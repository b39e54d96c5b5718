/**
 * The connection list (ShinobiTerm/ShinobiTerm/Views/ConnectionListView.swift):
 * the `user@host:port` quick-connect parser, `connectToProfile`,
 * `quickConnect`, `deleteProfile`, the quick-attach selection and the lookup
 * the full-screen terminal cover makes.
 *
 * The screen's `@State` and the stored profiles are the class `ListScreen`;
 * its methods call the connection manager and the session objects of the
 * model. The keychain's password, the transport's answer, the clock and the
 * fresh UUID of a new profile are parameters; what `KeychainService.deleteAll`
 * is asked to delete is logged. Each `Task` runs to completion where it is started.
 */
module ConnectionList {
  import opened Wrappers
  import opened SwiftText
  import opened Models
  import opened SshSession
  import opened SshConnectionManager

  const DefaultPort: int := 22

  /** What a quick-connect text names. */
  datatype QuickTarget = QuickTarget(username: string, hostname: string, port: int)

  /**
   * The text has an '@' and nothing but ':' after it: splitting what follows
   * the '@' then gives no piece, and `parts[0]` traps.
   */
  predicate QuickConnectTraps(text: string) {
    var at := IndexOf(text, '@');
    at < |text| && OnlyAfter(text, at, ':')
  }

  /** Every character after position `at` is `c`. */
  predicate OnlyAfter(text: string, at: nat, c: char) {
    forall i | at < i < |text| :: text[i] == c
  }

  /**
   * The target for a user and the rest after the '@': the host is the first
   * nonempty piece of the rest free of ':', and the port is the integer after
   * the ':' that follows it, or 22 when nothing follows or it does not parse;
   * no range check is made.
   */
  function QuickParse(user: string, rest: string): (r: Option<QuickTarget>)
    requires SplitOnce(rest, ':') != []
    ensures r.Some? && r.value.username == user
    ensures r.value.hostname != [] && ':' !in r.value.hostname
    ensures var parts := SplitOnce(rest, ':');
      var trimmed := SkipSeparators(rest, ':');
      && (|parts| == 2 ==> trimmed == r.value.hostname + ":" + parts[1] &&
                           r.value.port == ParseInt(parts[1]).GetOr(DefaultPort))
      && (|parts| < 2 ==> (trimmed == r.value.hostname || trimmed == r.value.hostname + ":") &&
                          r.value.port == DefaultPort)
  {
    var parts := SplitOnce(rest, ':');
    SplitOnceSpec(rest, ':');
    Some(QuickTarget(user, parts[0], if |parts| == 2 then ParseInt(parts[1]).GetOr(DefaultPort) else DefaultPort))
  }

  /** The parsing half of `quickConnect`. */
  function ParseQuickConnect(text: string): Option<QuickTarget>
    requires !QuickConnectTraps(text)
  {
    var at := IndexOf(text, '@');
    if at == |text| then None
    else
      var rest := text[at + 1..];
      HasHostPiece(text, at);
      QuickParse(text[..at], rest)
  }

  /** The manager key the quick-connect session is registered under, as written. */
  function QuickSessionKey(hostname: string): string {
    "quick-" + hostname
  }

  /** What `quickConnect` hands to `connect`: always an empty password. */
  function QuickEndpoint(t: QuickTarget): Endpoint {
    Endpoint(t.hostname, t.port, t.username, Password(""))
  }

  /** The profile `quickConnect` stores: named after the host, password auth, just connected. */
  function QuickProfile(t: QuickTarget, newId: string, now: int): Profile {
    NewProfile(newId, t.hostname, t.hostname, t.port, t.username, PasswordAuth).(lastConnectedAt := Some(now))
  }

  /** What `connectToProfile` hands to `connect`: the stored password or an empty one, whatever the auth method. */
  function ProfileEndpoint(p: Profile, k: Keychain): Endpoint {
    Endpoint(p.hostname, p.port, p.username, Password(k.password(p.profileId).GetOr("")))
  }

  function Stamp(now: int): Profile -> Profile {
    (p: Profile) => p.(lastConnectedAt := Some(now))
  }

  /**
   * Whether `a` comes before `b` in the list's `@Query` order, which sorts
   * by `lastConnectedAt` in reverse: a later stamp first, and any stamp
   * before none.
   */
  predicate ConnectedLater(a: Profile, b: Profile) {
    a.lastConnectedAt.Some? && (b.lastConnectedAt.None? || a.lastConnectedAt.value > b.lastConnectedAt.value)
  }

  /**
   * `profiles.first` of the sorted query: a stored profile that no other
   * was connected later than. Profiles with equal stamps keep store order.
   */
  function MostRecent(ps: seq<Profile>): (r: Profile)
    requires ps != []
    ensures r in ps
    ensures forall i | 0 <= i < |ps| :: !ConnectedLater(ps[i], r)
  {
    if |ps| == 1 then ps[0]
    else
      var rest := MostRecent(ps[1..]);
      if ConnectedLater(rest, ps[0]) then rest else ps[0]
  }

  /** The quick-attach button: the first profile of the sorted list when there is one, else no change. */
  function QuickAttachSelection(ps: seq<Profile>, current: Option<Profile>): Option<Profile> {
    if |ps| == 1 then Some(MostRecent(ps))
    else if |ps| > 1 then Some(MostRecent(ps))
    else current
  }

  /** The full-screen cover: the session registered under the presented profile's id, if any. */
  function CoverSession(sessions: map<string, Session>, presented: Profile): Option<Session> {
    if presented.profileId in sessions then Some(sessions[presented.profileId]) else None
  }

  /** The screen's state as a value. */
  datatype Listing = Listing(
    profiles: seq<Profile>,
    selectedTmuxProfile: Option<Profile>,
    activeTerminalProfile: Option<Profile>,
    quickConnectText: string,
    deletedCredentials: seq<string>)

  /** The end of `connectToProfile`, once the session is in state `st`. */
  function AfterProfileConnect(l: Listing, p: Profile, st: SessionState, now: int): Listing {
    if st != Connected then l
    else l.(profiles := Update(l.profiles, p.profileId, Stamp(now)), activeTerminalProfile := Some(Stamp(now)(p)))
  }

  /** The end of `quickConnect`, once the session is in state `st`. */
  function AfterQuickConnect(l: Listing, t: QuickTarget, newId: string, st: SessionState, now: int): Listing {
    if st != Connected then l
    else l.(profiles := l.profiles + [QuickProfile(t, newId, now)], activeTerminalProfile := Some(QuickProfile(t, newId, now)))
  }

  function AfterDelete(l: Listing, p: Profile): Listing {
    l.(deletedCredentials := l.deletedCredentials + [p.profileId], profiles := Remove(l.profiles, p.profileId))
  }

  /** The session the manager holds for `id`, or the one `createSession` would make. */
  function SessionOf(m: map<string, Session>, id: string): Snapshot
    reads m.Values
  {
    if id in m then m[id].Snap() else Initial()
  }

  // ------------------------------------------------------------ the screen

  class ListScreen {
    var profiles: seq<Profile>
    var selectedTmuxProfile: Option<Profile>
    var activeTerminalProfile: Option<Profile>
    var quickConnectText: string
    var deletedCredentials: seq<string>

    function Snap(): Listing
      reads this
    {
      Listing(profiles, selectedTmuxProfile, activeTerminalProfile, quickConnectText, deletedCredentials)
    }

    constructor (stored: seq<Profile>)
      ensures Snap() == Listing(stored, None, None, "", [])
    {
      profiles, selectedTmuxProfile, activeTerminalProfile := stored, None, None;
      quickConnectText, deletedCredentials := "", [];
    }

    /** The quick-connect text field's binding. */
    method TypeQuickConnect(text: string)
      modifies this`quickConnectText
      ensures Snap() == old(Snap()).(quickConnectText := text)
    {
      quickConnectText := text;
    }

    method QuickAttach()
      modifies this`selectedTmuxProfile
      ensures selectedTmuxProfile == QuickAttachSelection(profiles, old(selectedTmuxProfile))
    {
      if |profiles| == 1 {
        selectedTmuxProfile := Some(MostRecent(profiles));
      } else if |profiles| > 1 {
        selectedTmuxProfile := Some(MostRecent(profiles));
      }
    }

    method ConnectToProfile(m: ConnectionManager, p: Profile, k: Keychain, o: TransportOutcome, now: int)
      requires m.Valid()
      modifies this, m, m.sessions.Values
      ensures m.Valid()
      ensures m.sessions.Keys == old(m.sessions.Keys) + {p.profileId}
      ensures var t := AfterConnect(old(SessionOf(m.sessions, p.profileId)), ProfileEndpoint(p, k), o);
        m.sessions[p.profileId].Snap() == t && Snap() == AfterProfileConnect(old(Snap()), p, t.state, now)
      ensures m.sessions[p.profileId].state == Connected ==>
        activeTerminalProfile.Some? && CoverSession(m.sessions, activeTerminalProfile.value) == Some(m.sessions[p.profileId])
      ensures forall j | j in old(m.sessions) && j != p.profileId :: m.sessions[j] == old(m.sessions[j])
      ensures forall x | x in old(m.sessions.Values) && x != m.sessions[p.profileId] :: unchanged(x)
    {
      var password := k.password(p.profileId).GetOr("");
      var _ := DialAndPresent(m, p.profileId, Endpoint(p.hostname, p.port, p.username, Password(password)), o,
                              Stamp(now)(p), Update(profiles, p.profileId, Stamp(now)));
    }

    /**
     * The common shape of both tasks: `createSession(for: key)`, `connect`,
     * and once connected, the terminal for `shown` over the profiles `ps`.
     */
    method DialAndPresent(m: ConnectionManager, key: string, e: Endpoint, o: TransportOutcome,
                          shown: Profile, ps: seq<Profile>) returns (s: Session)
      requires m.Valid()
      modifies this`profiles, this`activeTerminalProfile, m, m.sessions.Values
      ensures m.Valid()
      ensures m.sessions.Keys == old(m.sessions.Keys) + {key} && key in m.sessions && m.sessions[key] == s
      ensures s.Snap() == AfterConnect(old(SessionOf(m.sessions, key)), e, o)
      ensures Snap() == if s.state == Connected then old(Snap()).(profiles := ps, activeTerminalProfile := Some(shown))
                        else old(Snap())
      ensures forall j | j in old(m.sessions) && j != key :: m.sessions[j] == old(m.sessions[j])
      ensures forall x | x in old(m.sessions.Values) && x != s :: unchanged(x)
    {
      s := m.CreateSession(key);
      ConnectRegistered(m, key, s, e, o, shown, ps);
    }

    /** `connect` on the session registered under `key`, then the terminal once connected; the registry stays valid. */
    method ConnectRegistered(m: ConnectionManager, key: string, s: Session, e: Endpoint, o: TransportOutcome,
                             shown: Profile, ps: seq<Profile>)
      requires m.Valid() && key in m.sessions && m.sessions[key] == s
      modifies this`profiles, this`activeTerminalProfile, s
      ensures m.Valid()
      ensures s.Snap() == AfterConnect(old(s.Snap()), e, o)
      ensures Snap() == if s.state == Connected then old(Snap()).(profiles := ps, activeTerminalProfile := Some(shown))
                        else old(Snap())
      ensures m.sessions == old(m.sessions)
      ensures forall j | j in m.sessions && j != key :: unchanged(m.sessions[j])
    {
      ConnectAndPresent(s, e, o, shown, ps);
      forall j | j in m.sessions
        ensures m.sessions[j].Valid()
      {
        if j != key {
          assert m.sessions[j] != s;
        }
      }
    }

    /** `connect` on the session, then the terminal for `shown` over the profiles `ps` once connected. */
    method ConnectAndPresent(s: Session, e: Endpoint, o: TransportOutcome, shown: Profile, ps: seq<Profile>)
      requires s.Valid()
      modifies this`profiles, this`activeTerminalProfile, s
      ensures s.Valid() && s.Snap() == AfterConnect(old(s.Snap()), e, o)
      ensures Snap() == if s.state == Connected then old(Snap()).(profiles := ps, activeTerminalProfile := Some(shown))
                        else old(Snap())
    {
      s.Connect(e, o);
      if s.state == Connected {
        Present(shown, ps);
      }
    }

    method Present(p: Profile, ps: seq<Profile>)
      modifies this`profiles, this`activeTerminalProfile
      ensures profiles == ps && activeTerminalProfile == Some(p)
    {
      profiles := ps;
      activeTerminalProfile := Some(p);
    }

    method QuickConnect(m: ConnectionManager, newId: string, o: TransportOutcome, now: int)
      requires m.Valid() && !QuickConnectTraps(quickConnectText)
      modifies this, m, m.sessions.Values
      ensures m.Valid()
      ensures match ParseQuickConnect(old(quickConnectText))
        case None => Snap() == old(Snap()) && m.sessions == old(m.sessions)
          && forall x | x in old(m.sessions.Values) :: unchanged(x)
        case Some(t) =>
          var key := CorrectedSessionKey(newId);
          var after := AfterConnect(old(SessionOf(m.sessions, key)), QuickEndpoint(t), o);
          && m.sessions.Keys == old(m.sessions.Keys) + {key}
          && m.sessions[key].Snap() == after
          && Snap() == AfterQuickConnect(old(Snap()), t, newId, after.state, now)
          && (m.sessions[key].state == Connected ==>
                activeTerminalProfile.Some? && CoverSession(m.sessions, activeTerminalProfile.value) == Some(m.sessions[key]))
          && (forall j | j in old(m.sessions) && j != key :: m.sessions[j] == old(m.sessions[j]))
          && (forall x | x in old(m.sessions.Values) && x != m.sessions[key] :: unchanged(x))
    {
      var parsed := ParseQuickConnect(quickConnectText);
      if parsed.None? {
        return;
      }
      QuickConnectTo(m, parsed.value, newId, o, now);
    }

    /**
     * `quickConnect` once the text has named a target, with the session
     * registered under the new profile's id (see `QuickCoverMisses`).
     */
    method QuickConnectTo(m: ConnectionManager, t: QuickTarget, newId: string, o: TransportOutcome, now: int)
      requires m.Valid()
      modifies this`profiles, this`activeTerminalProfile, m, m.sessions.Values
      ensures m.Valid()
      ensures var key := CorrectedSessionKey(newId);
        var after := AfterConnect(old(SessionOf(m.sessions, key)), QuickEndpoint(t), o);
        && m.sessions.Keys == old(m.sessions.Keys) + {key}
        && m.sessions[key].Snap() == after
        && Snap() == AfterQuickConnect(old(Snap()), t, newId, after.state, now)
        && (m.sessions[key].state == Connected ==>
              activeTerminalProfile.Some? && CoverSession(m.sessions, activeTerminalProfile.value) == Some(m.sessions[key]))
      ensures forall j | j in old(m.sessions) && j != CorrectedSessionKey(newId) :: m.sessions[j] == old(m.sessions[j])
      ensures forall x | x in old(m.sessions.Values) && x != m.sessions[CorrectedSessionKey(newId)] :: unchanged(x)
    {
      var profile := NewProfile(newId, t.hostname, t.hostname, t.port, t.username, PasswordAuth);
      profile := profile.(lastConnectedAt := Some(now));
      var _ := DialAndPresent(m, CorrectedSessionKey(newId), Endpoint(t.hostname, t.port, t.username, Password("")), o,
                              profile, profiles + [profile]);
    }

    method DeleteProfile(m: ConnectionManager, p: Profile)
      requires m.Valid()
      modifies this, m, if p.profileId in m.sessions then {m.sessions[p.profileId]} else {}
      ensures m.Valid()
      ensures Snap() == AfterDelete(old(Snap()), p)
      ensures m.sessions == old(m.sessions) - {p.profileId}
      ensures p.profileId in old(m.sessions) ==>
        var s := old(m.sessions)[p.profileId]; s.Snap() == AfterDisconnect(old(s.Snap()))
    {
      deletedCredentials := deletedCredentials + [p.profileId];
      m.RemoveSession(p.profileId);
      profiles := Remove(profiles, p.profileId);
    }
  }

  // ------------------------------------------------------------ properties

  /** Quick connect ignores exactly the texts without an '@'. */
  lemma ParseQuickConnectNone(text: string)
    requires !QuickConnectTraps(text)
    ensures '@' !in text <==> ParseQuickConnect(text).None?
  {
    var at := IndexOf(text, '@');
    if at == |text| {
      assert forall j | 0 <= j < |text| :: text[j] != '@';
    }
  }

  /**
   * A text with an '@' that does not trap splits at its first '@' into a user
   * without '@' (possibly empty) and a rest, and parses as that user and rest do.
   */
  lemma ParseQuickConnectSome(text: string)
    requires !QuickConnectTraps(text) && '@' in text
    ensures var at := IndexOf(text, '@');
      && text == text[..at] + "@" + text[at + 1..] && '@' !in text[..at]
      && SplitOnce(text[at + 1..], ':') != []
      && ParseQuickConnect(text) == QuickParse(text[..at], text[at + 1..])
  {
    var at := IndexOf(text, '@');
    SplitAtFirst(text, at, '@');
    HasHostPiece(text, at);
  }

  lemma HasHostPiece(text: string, at: nat)
    requires at < |text| && !(forall i | at < i < |text| :: text[i] == ':')
    ensures SplitOnce(text[at + 1..], ':') != []
  {
    SplitOnceSpec(text[at + 1..], ':');
    AllAfter(text, text[at + 1..], at, ':');
  }

  lemma SplitAtFirst(text: string, at: nat, c: char)
    requires at < |text| && text[at] == c && forall j | 0 <= j < at :: text[j] != c
    ensures text == text[..at] + [c] + text[at + 1..] && c !in text[..at]
  {
    SplitAt(text, at);
    assert c !in text[..at] by {
      forall j | 0 <= j < at ensures text[..at][j] != c { assert text[..at][j] == text[j]; }
    }
  }

  /**
   * The predicate is the source's trap: with the first '@' at `at`, the text
   * has an '@' and splitting what follows it on ':' (empty pieces omitted)
   * gives no `parts[0]`.
   */
  lemma QuickConnectTrapsSpec(text: string, at: nat)
    requires at == IndexOf(text, '@')
    ensures QuickConnectTraps(text) <==> at < |text| && SplitOnce(text[at + 1..], ':') == []
  {
    if at < |text| {
      NoPieceAfter(text, at, text[at + 1..]);
    }
  }

  /** After position `at`, nothing but ':' is the same as no piece in the split of the rest. */
  lemma NoPieceAfter(text: string, at: nat, rest: string)
    requires at < |text| && rest == text[at + 1..]
    ensures SplitOnce(rest, ':') == [] <==> OnlyAfter(text, at, ':')
  {
    SplitOnceSpec(rest, ':');
    AllAfter(text, rest, at, ':');
  }

  lemma AllAfter(text: string, rest: string, at: nat, c: char)
    requires at < |text| && rest == text[at + 1..]
    ensures (forall i | 0 <= i < |rest| :: rest[i] == c) <==> (forall i | at < i < |text| :: text[i] == c)
  {
    if forall i | 0 <= i < |rest| :: rest[i] == c {
      forall i | at < i < |text| ensures text[i] == c {
        assert text[i] == rest[i - at - 1];
      }
    }
  }

  /** The inverse direction: a user without '@', an '@' and a rest with a host piece. */
  lemma ParseQuickConnectOf(user: string, rest: string)
    requires '@' !in user && SplitOnce(rest, ':') != []
    ensures !QuickConnectTraps(user + "@" + rest)
    ensures ParseQuickConnect(user + "@" + rest) == QuickParse(user, rest)
  {
    var text := user + "@" + rest;
    JoinAt(user, rest);
    SplitOnceSpec(rest, ':');
    AllAfter(text, rest, |user|, ':');
  }

  lemma JoinAt(user: string, rest: string)
    requires '@' !in user
    ensures var text := user + "@" + rest;
      IndexOf(text, '@') == |user| && text[..|user|] == user && text[|user| + 1..] == rest
  {
    JoinOn(user, '@', rest);
  }

  /** The first `c` of `u + [c] + r`, when `u` has none, is the one between them. */
  lemma JoinOn(u: string, c: char, r: string)
    requires c !in u
    ensures var t := u + [c] + r;
      IndexOf(t, c) == |u| && t[..|u|] == u && t[|u| + 1..] == r
  {
    var t := u + [c] + r;
    assert t[|u|] == c;
    assert forall j | 0 <= j < |u| :: t[j] == u[j];
  }

  /**
   * The ordinary form: a user, a host and whatever follows the host's ':'
   * parse to that user, that host and the port that text gives, 22 when it
   * is not a number.
   */
  lemma QuickConnectHostPort(user: string, host: string, after: string)
    requires '@' !in user && host != [] && ':' !in host && after != []
    ensures var text := user + "@" + host + ":" + after;
      !QuickConnectTraps(text) &&
      ParseQuickConnect(text) == Some(QuickTarget(user, host, ParseInt(after).GetOr(DefaultPort)))
  {
    var rest := host + ":" + after;
    assert user + "@" + host + ":" + after == user + "@" + rest;
    HostThenRest(host, after);
    ParseQuickConnectOf(user, rest);
  }

  lemma HostThenRest(host: string, after: string)
    requires host != [] && ':' !in host && after != []
    ensures SplitOnce(host + ":" + after, ':') == [host, after]
  {
    var t := host + ":" + after;
    assert t[0] == host[0];
    assert SkipSeparators(t, ':') == t;
    JoinOn(host, ':', after);
  }

  /**
   * A ':' straight after the '@' is skipped rather than read as an empty
   * host: "u@:22" dials host "22" on port 22.
   */
  lemma QuickConnectLeadingColon(user: string, host: string)
    requires '@' !in user && host != [] && ':' !in host
    ensures var text := user + "@:" + host;
      !QuickConnectTraps(text) && ParseQuickConnect(text) == Some(QuickTarget(user, host, DefaultPort))
  {
    var rest := ":" + host;
    assert user + "@:" + host == user + "@" + rest;
    ColonThenHost(host);
    ParseQuickConnectOf(user, rest);
  }

  lemma ColonThenHost(host: string)
    requires host != [] && ':' !in host
    ensures SplitOnce(":" + host, ':') == [host]
  {
    assert (":" + host)[1..] == host;
    assert SkipSeparators(host, ':') == host by {
      assert host[0] != ':';
    }
    assert IndexOf(host, ':') == |host|;
    assert host[..|host|] == host;
  }

  /**
   * An '@' followed only by ':' (as in "u@" or "u@::") leaves no host piece:
   * the source then reads `parts[0]` of an empty array.
   */
  lemma NoHostTraps(user: string, rest: string)
    requires '@' !in user && forall i | 0 <= i < |rest| :: rest[i] == ':'
    ensures SplitOnce(rest, ':') == []
    ensures QuickConnectTraps(user + "@" + rest)
  {
    SplitOnceSpec(rest, ':');
    JoinAt(user, rest);
    var text := user + "@" + rest;
    forall i | |user| < i < |text| ensures text[i] == ':' {
      assert text[i] == rest[i - |user| - 1];
    }
  }

  /**
   * Quick attach keeps the selection when there is no profile, and otherwise
   * selects a stored profile that was connected at least as recently as
   * every other one.
   */
  lemma QuickAttachSpec(ps: seq<Profile>, current: Option<Profile>)
    ensures ps == [] ==> QuickAttachSelection(ps, current) == current
    ensures ps != [] ==> var r := QuickAttachSelection(ps, current);
      && r.Some? && r.value in ps
      && forall i | 0 <= i < |ps| :: ps[i].lastConnectedAt.Some? ==>
           r.value.lastConnectedAt.Some? && ps[i].lastConnectedAt.value <= r.value.lastConnectedAt.value
  {
  }

  /**
   * Profile `a` stored first, `b` stored second and connected later: quick
   * attach selects `b`.
   */
  lemma QuickAttachPrefersLater(a: Profile, b: Profile, current: Option<Profile>)
    requires a.lastConnectedAt == Some(1) && b.lastConnectedAt == Some(2)
    ensures QuickAttachSelection([a, b], current) == Some(b)
  {
    assert MostRecent([a, b][1..]) == b;
  }

  /** A profile never connected is selected only when no stored profile was ever connected. */
  lemma QuickAttachNeverConnected(ps: seq<Profile>, current: Option<Profile>)
    requires ps != [] && QuickAttachSelection(ps, current).value.lastConnectedAt.None?
    ensures forall i | 0 <= i < |ps| :: ps[i].lastConnectedAt.None?
  {
  }

  /**
   * `connectToProfile` always dials with a password, even for a key profile;
   * the profile is stamped and presented exactly when the session ends up connected.
   */
  lemma ConnectToProfileSpec(l: Listing, p: Profile, k: Keychain, s: Snapshot, o: TransportOutcome, now: int)
    ensures ProfileEndpoint(p, k).credential == Password(k.password(p.profileId).GetOr(""))
    ensures var r := AfterProfileConnect(l, p, AfterConnect(s, ProfileEndpoint(p, k), o).state, now);
      && (o.Opened? ==> r.activeTerminalProfile == Some(p.(lastConnectedAt := Some(now))) &&
                        Find(r.profiles, p.profileId) == if Find(l.profiles, p.profileId).Some? then
                          Some(Find(l.profiles, p.profileId).value.(lastConnectedAt := Some(now))) else None)
      && (o.Failed? ==> r == l)
  {
    FindUpdate(l.profiles, p.profileId, Stamp(now));
  }

  /** A quick connection that fails leaves the screen as it was; one that opens presents a new password profile. */
  lemma QuickConnectSpec(l: Listing, t: QuickTarget, newId: string, s: Snapshot, o: TransportOutcome, now: int)
    ensures var r := AfterQuickConnect(l, t, newId, AfterConnect(s, QuickEndpoint(t), o).state, now);
      && (o.Failed? ==> r == l)
      && (o.Opened? ==>
            r.profiles == l.profiles + [r.activeTerminalProfile.value] &&
            r.activeTerminalProfile == Some(Profile(newId, t.hostname, t.hostname, t.port, t.username,
                                                    PasswordAuth, None, None, Some(now))))
  {
  }

  /** Deleting a profile drops every stored profile with its id, keeps the others, and clears its credentials. */
  lemma DeleteSpec(l: Listing, p: Profile)
    ensures var r := AfterDelete(l, p);
      && (forall q | q in r.profiles :: q.profileId != p.profileId && q in l.profiles)
      && (forall q | q in l.profiles && q.profileId != p.profileId :: q in r.profiles)
      && r.deletedCredentials == l.deletedCredentials + [p.profileId]
      && r.activeTerminalProfile == l.activeTerminalProfile
  {
  }

  // ------------------------------------------------------------ the quick-connect cover

  /** A `UUID().uuidString`: 36 upper-case hexadecimal digits and dashes. */
  predicate IsUuidString(id: string) {
    |id| == 36 && forall i | 0 <= i < |id| :: id[i] in "0123456789ABCDEF-"
  }

  /**
   * As written, the quick-connect session is registered under
   * "quick-" + host while the presented profile has a fresh UUID, so the
   * cover never finds the session that just connected: unless the manager
   * already held one under that UUID, it shows "Session not found".
   */
  lemma QuickCoverMisses(sessions: map<string, Session>, t: QuickTarget, newId: string, s: Session, now: int)
    requires IsUuidString(newId) && newId !in sessions
    ensures QuickSessionKey(t.hostname) != newId
    ensures CoverSession(sessions[QuickSessionKey(t.hostname) := s], QuickProfile(t, newId, now)).None?
  {
    assert QuickSessionKey(t.hostname)[0] == 'q';
    assert newId[0] in "0123456789ABCDEF-";
  }

  /**
   * The intended key: the id of the profile the cover will be given, so the
   * profile's UUID is drawn before the session is created.
   */
  function CorrectedSessionKey(newId: string): string {
    newId
  }

  /** With the session registered under the new profile's id, the cover finds the session just connected. */
  lemma CorrectedCoverFinds(sessions: map<string, Session>, t: QuickTarget, newId: string, s: Session, now: int)
    ensures CoverSession(sessions[CorrectedSessionKey(newId) := s], QuickProfile(t, newId, now)) == Some(s)
  {
  }
}
