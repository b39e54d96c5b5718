/**
 * The saved connection profile (ShinobiTerm/ShinobiTerm/Models/ConnectionProfile.swift)
 * and the keychain answers the views consult. Profiles are values; the
 * store the views query is a sequence of them, and a view that changes a
 * profile replaces every entry carrying its (unique) id. Dates are `int`
 * timestamps handed in by the caller.
 */
module Models {
  import opened Wrappers
  import opened SwiftText

  datatype AuthMethod = PasswordAuth | SshKeyAuth

  datatype Profile = Profile(
    profileId: string,
    name: string,
    hostname: string,
    port: int,
    username: string,
    authMethod: AuthMethod,
    lastTmuxSession: Option<string>,
    sshKeyId: Option<string>,
    lastConnectedAt: Option<int>)

  /** A new profile: port 22 and password authentication unless given otherwise. */
  function NewProfile(id: string, name: string, hostname: string, port: int, username: string,
                      auth: AuthMethod): (p: Profile)
    ensures p.profileId == id && p.name == name && p.hostname == hostname && p.port == port
    ensures p.username == username && p.authMethod == auth
    ensures p.lastTmuxSession.None? && p.sshKeyId.None? && p.lastConnectedAt.None?
  {
    Profile(id, name, hostname, port, username, auth, None, None, None)
  }

  /**
   * What the keychain answers: the stored password for a profile id (`None`
   * when `loadPassword` throws), and the status and data of the query for a key id.
   */
  datatype Keychain = Keychain(
    password: string -> Option<string>,
    keyItem: string -> (int, Option<seq<Byte>>))

  /** The first profile with this id, as `first(where:)` finds it. */
  function Find(ps: seq<Profile>, id: string): (r: Option<Profile>)
    ensures r.Some? ==> r.value in ps && r.value.profileId == id
    ensures r.None? <==> forall i | 0 <= i < |ps| :: ps[i].profileId != id
  {
    if ps == [] then None
    else if ps[0].profileId == id then Some(ps[0])
    else Find(ps[1..], id)
  }

  /** Apply `f` to every stored profile with this id. */
  function Update(ps: seq<Profile>, id: string, f: Profile -> Profile): (r: seq<Profile>)
    ensures |r| == |ps|
    ensures forall i | 0 <= i < |ps| :: r[i] == if ps[i].profileId == id then f(ps[i]) else ps[i]
  {
    if ps == [] then [] else [if ps[0].profileId == id then f(ps[0]) else ps[0]] + Update(ps[1..], id, f)
  }

  /** Every stored profile except those with this id. */
  function Remove(ps: seq<Profile>, id: string): (r: seq<Profile>)
    ensures forall p | p in r :: p in ps && p.profileId != id
    ensures forall p | p in ps && p.profileId != id :: p in r
  {
    if ps == [] then [] else (if ps[0].profileId == id then [] else [ps[0]]) + Remove(ps[1..], id)
  }

  /**
   * After an update that keeps the id, the profile found under it is the
   * updated one found before.
   */
  lemma {:induction false} FindUpdate(ps: seq<Profile>, id: string, f: Profile -> Profile)
    requires forall p: Profile :: f(p).profileId == p.profileId
    ensures Find(Update(ps, id, f), id) == if Find(ps, id).Some? then Some(f(Find(ps, id).value)) else None
  {
    if ps != [] {
      FindUpdate(ps[1..], id, f);
      assert Update(ps, id, f)[1..] == Update(ps[1..], id, f);
    }
  }

  /** Appending a profile under an id no stored profile has makes it the one found under that id. */
  lemma {:induction false} FindAppend(ps: seq<Profile>, q: Profile)
    requires forall i | 0 <= i < |ps| :: ps[i].profileId != q.profileId
    ensures Find(ps + [q], q.profileId) == Some(q)
  {
    if ps != [] {
      assert (ps + [q])[1..] == ps[1..] + [q];
      FindAppend(ps[1..], q);
    }
  }
}
