/**
 * The registry of live sessions, keyed by profile id
 * (ShinobiTerm/ShinobiTerm/Services/SSHConnectionManager.swift).
 */
module SshConnectionManager {
  import opened SshSession

  class ConnectionManager {
    var sessions: map<string, Session>

    predicate Valid()
      reads this, sessions.Values
    {
      Distinct(sessions) && forall k | k in sessions :: sessions[k].Valid()
    }

    constructor ()
      ensures sessions == map[] && Valid()
    {
      sessions := map[];
    }

    /** Whether the registry holds a session for `id`. */
    function Has(id: string): bool
      reads this
    {
      id in sessions
    }

    /**
     * `createSession(for:)`: the session already registered under `id`, or a
     * new disconnected one registered under it. No other entry changes.
     */
    method CreateSession(id: string) returns (s: Session)
      requires Valid()
      modifies this
      ensures Valid()
      ensures id in old(sessions) ==> s == old(sessions)[id] && sessions == old(sessions)
      ensures id !in old(sessions) ==>
        fresh(s) && s.Snap() == Initial() && s.published == [] && sessions == old(sessions)[id := s]
      ensures id in sessions && sessions[id] == s && sessions.Keys == old(sessions.Keys) + {id}
      ensures forall k | k in old(sessions) && k != id :: sessions[k] == old(sessions)[k]
    {
      if id in sessions {
        s := sessions[id];
        return;
      }
      s := new Session();
      sessions := sessions[id := s];
    }

    /** `removeSession(for:)`: disconnect and unregister the session for `id`, if any. */
    method RemoveSession(id: string)
      requires Valid()
      modifies this, if id in sessions then {sessions[id]} else {}
      ensures Valid()
      ensures sessions == old(sessions) - {id}
      ensures id in old(sessions) ==>
        var s := old(sessions)[id]; s.Snap() == AfterDisconnect(old(s.Snap()))
      ensures forall k | k in sessions :: sessions[k] == old(sessions)[k]
    {
      if id in sessions {
        var s := sessions[id];
        s.Disconnect();
        sessions := sessions - {id};
      }
    }

    /** `disconnectAll`: disconnect every registered session, then empty the registry. */
    method DisconnectAll()
      requires Valid()
      modifies this, sessions.Values
      ensures Valid() && sessions == map[]
      ensures forall k | k in old(sessions) ::
        old(sessions)[k].Valid() && old(sessions)[k].Snap() == AfterDisconnect(old(sessions[k].Snap()))
    {
      DisconnectEach(sessions);
      sessions := map[];
    }
  }

  /** No session object is registered under two ids. */
  predicate Distinct(m: map<string, Session>) {
    forall j, k | j in m && k in m && j != k :: m[j] != m[k]
  }

  /** The `for` loop of `disconnectAll`: each session of `m` is disconnected once. */
  method DisconnectEach(m: map<string, Session>)
    requires Distinct(m) && forall k | k in m :: m[k].Valid()
    modifies m.Values
    ensures forall k | k in m :: m[k].Valid() && m[k].Snap() == AfterDisconnect(old(m[k].Snap()))
  {
    var keys := m.Keys;
    ghost var before := map k | k in m :: m[k].Snap();
    while keys != {}
      invariant keys <= m.Keys
      invariant DoneSoFar(m, m.Keys - keys, before)
      decreases keys
    {
      var k :| k in keys;
      DisconnectTracked(m, k, m.Keys - keys, before);
      keys := keys - {k};
    }
  }

  /**
   * Loop state of `disconnectAll`: every session is valid, those under the ids
   * in `done` are disconnected from their state in `before`, the others are as they were.
   */
  ghost predicate DoneSoFar(m: map<string, Session>, done: set<string>, before: map<string, Snapshot>)
    reads m.Values
  {
    && Distinct(m)
    && (forall k | k in m :: k in before && m[k].Valid())
    && (forall k | k in m && k in done :: m[k].Snap() == AfterDisconnect(before[k]))
    && (forall k | k in m && k !in done :: m[k].Snap() == before[k])
  }

  /** One iteration of `disconnectAll`. */
  method DisconnectTracked(m: map<string, Session>, k: string, ghost done: set<string>,
                           ghost before: map<string, Snapshot>)
    requires k in m && k !in done && DoneSoFar(m, done, before)
    modifies m[k]
    ensures DoneSoFar(m, done + {k}, before)
  {
    var s := m[k];
    s.Disconnect();
    forall j | j in m && j != k
      ensures m[j].Valid() && m[j].Snap() == old(m[j].Snap())
    {
      assert m[j] != s;
    }
    assert s.Snap() == AfterDisconnect(before[k]);
    forall j | j in m && j in done + {k}
      ensures m[j].Snap() == AfterDisconnect(before[j])
    {
    }
    forall j | j in m && j !in done + {k}
      ensures m[j].Snap() == before[j]
    {
    }
  }

  /** Two `createSession` calls with one id give the same object. */
  method CreateTwice(m: ConnectionManager, id: string) returns (a: Session, b: Session)
    requires m.Valid()
    modifies m
    ensures a == b && m.sessions == old(m.sessions)[id := a]
  {
    a := m.CreateSession(id);
    b := m.CreateSession(id);
  }
}
