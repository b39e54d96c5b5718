/**
 * The tmux attach screen (ShinobiTerm/ShinobiTerm/Views/TmuxAttachView.swift):
 * the literal attach-or-create command, the default for a typed session
 * name, and the decisions of `switchProfile`, `connectAndListSessions`,
 * `refreshSessions`, `attachToSession` and `connectSession`.
 *
 * The screen's `@State` is the class `AttachScreen`; its methods call the
 * connection manager and the session objects of the model. Every method is
 * specified by a function from the old screen value and the old session
 * snapshot to the new ones, and the properties are lemmas about those
 * functions. The keychain, the transport and the remote `tmux` answer are
 * parameters; each `Task` runs to completion where it is started, and the
 * two-second sleep is left out.
 */
module TmuxAttach {
  import opened Wrappers
  import opened SwiftText
  import opened Models
  import opened SshSession
  import opened SshConnectionManager
  import opened SshKeyService
  import opened TmuxService

  const NoKeyMessage: string :=
    "No SSH key selected. Go to Settings > SSH Keys to generate one, or switch to password auth."
  const KeyMissingMessage: string :=
    "SSH key not found in Keychain. It may have been deleted. Re-generate in Settings > SSH Keys."

  const AttachPrefix: string := "tmux a -t "
  const AttachMiddle: string := " 2>/dev/null || tmux new -s "

  /** The command typed into the shell: attach to `name`, or create it. The name is not quoted. */
  function AttachCommand(name: string): string {
    AttachPrefix + name + AttachMiddle + name + "\n"
  }

  /** The name the arrow button attaches to: the typed text, else the last one used, else "0". */
  function ManualName(typed: string, current: Option<Profile>): string {
    if typed != [] then typed
    else if current.Some? && current.value.lastTmuxSession.Some? then current.value.lastTmuxSession.value
    else "0"
  }

  /** What `connectSession` does: refuse with a message, or hand this endpoint to `connect`. */
  datatype Plan = Refuse(message: string) | Dial(endpoint: Endpoint)

  function ConnectPlan(p: Profile, k: Keychain): Plan {
    match p.authMethod
    case PasswordAuth =>
      Dial(Endpoint(p.hostname, p.port, p.username, Password(k.password(p.profileId).GetOr(""))))
    case SshKeyAuth =>
      if p.sshKeyId.None? then Refuse(NoKeyMessage)
      else
        var item := k.keyItem(p.sshKeyId.value);
        match LoadPrivateKey(item.0, item.1)
        case Err(_) => Refuse(KeyMissingMessage)
        case Ok(key) => Dial(Endpoint(p.hostname, p.port, p.username, PrivateKey(Some(key))))
  }

  /** The error shown and the session left by `connectSession`. */
  function AfterConnectSession(err: Option<string>, s: Snapshot, plan: Plan, o: TransportOutcome): (Option<string>, Snapshot) {
    match plan
    case Refuse(message) => (Some(message), s)
    case Dial(e) => (err, AfterConnect(s, e, o))
  }

  /** The screen's state as a value. */
  datatype Attach = Attach(
    profiles: seq<Profile>,
    selectedProfileId: string,
    sessions: seq<TmuxSession>,
    manualSessionName: string,
    isLoading: bool,
    isConnecting: bool,
    showTerminal: bool,
    activeSession: Option<Session>,
    tmuxCommand: Option<string>,
    connectionError: Option<string>)

  /** `currentProfile`. */
  function Current(v: Attach): Option<Profile> {
    Find(v.profiles, v.selectedProfileId)
  }

  /** The session the manager holds for `id`, or the one `createSession` would make. */
  function SessionOf(m: map<string, Session>, id: string): Snapshot
    reads m.Values
  {
    if id in m then m[id].Snap() else Initial()
  }

  function RecordSession(name: string): Profile -> Profile {
    (p: Profile) => p.(lastTmuxSession := Some(name))
  }

  function AfterSwitchProfile(v: Attach, p: Profile): Attach {
    if p.profileId == v.selectedProfileId then v
    else v.(selectedProfileId := p.profileId, sessions := [], isLoading := true, connectionError := None)
  }

  /** `connectSession` when the session is not connected yet, and nothing otherwise. */
  function EnsureConnected(err: Option<string>, s: Snapshot, plan: Plan, o: TransportOutcome): (Option<string>, Snapshot) {
    if s.state == Connected then (err, s) else AfterConnectSession(err, s, plan, o)
  }

  /** The end of `connectAndListSessions`, once `connectSession` has left this error and session. */
  function AfterListing(v: Attach, c: (Option<string>, Snapshot), cmd: CommandOutcome): Attach {
    var t := c.1;
    if t.state.Error? then v.(connectionError := Some(t.state.message), isLoading := false)
    else v.(connectionError := c.0, sessions := ListSessions(t.client.Some?, cmd), isLoading := false)
  }

  function AfterConnectAndList(v: Attach, s: Snapshot, k: Keychain, o: TransportOutcome, cmd: CommandOutcome): (Attach, Snapshot) {
    match Current(v)
    case None => (v.(isLoading := false), s)
    case Some(p) =>
      var c := EnsureConnected(v.connectionError, s, ConnectPlan(p, k), o);
      (AfterListing(v, c, cmd), c.1)
  }

  /** `refreshSessions`, given the session the manager holds for the profile, if any. */
  function AfterRefresh(v: Attach, found: Option<Snapshot>, cmd: CommandOutcome): Attach {
    if Current(v).None? then v
    else if found.None? then v.(isLoading := false)
    else v.(sessions := ListSessions(found.value.client.Some?, cmd), isLoading := false)
  }

  /** The first part of `attachToSession`: connecting starts, the name is recorded, the command is set. */
  function Recorded(v: Attach, p: Profile, name: string): Attach {
    v.(isConnecting := true, profiles := Update(v.profiles, p.profileId, RecordSession(name)),
       tmuxCommand := Some(AttachCommand(name)))
  }

  /**
   * The rest of `attachToSession`: show a session that is connected already,
   * or else take the error and session `c` that `connectSession` left and
   * show the session once it is connected.
   */
  function AfterAttachConnect(w: Attach, sess: Session, s: Snapshot, c: (Option<string>, Snapshot)): (Attach, Snapshot) {
    if s.state == Connected then (w.(activeSession := Some(sess), showTerminal := true, isConnecting := false), s)
    else if c.1.state.Error? then (w.(connectionError := Some(c.1.state.message), isConnecting := false), c.1)
    else if c.1.state == Connected then
      (w.(connectionError := c.0, activeSession := Some(sess), showTerminal := true, isConnecting := false), c.1)
    else (w.(connectionError := c.0, isConnecting := false), c.1)
  }

  /** `attachToSession`, given the session object the manager holds for the profile, and its snapshot. */
  function AfterAttach(v: Attach, name: string, sess: Option<Session>, s: Snapshot, k: Keychain, o: TransportOutcome): (Attach, Snapshot) {
    match Current(v)
    case None => (v, s)
    case Some(p) =>
      if sess.None? then (v.(isConnecting := true), s)
      else
        var c := AfterConnectSession(v.connectionError, s, ConnectPlan(RecordSession(name)(p), k), o);
        AfterAttachConnect(Recorded(v, p, name), sess.value, s, c)
  }

  // ------------------------------------------------------------ the screen

  class AttachScreen {
    var profiles: seq<Profile>
    var selectedProfileId: string
    var sessions: seq<TmuxSession>
    var manualSessionName: string
    var isLoading: bool
    var isConnecting: bool
    var showTerminal: bool
    var activeSession: Option<Session>
    var tmuxCommand: Option<string>
    var connectionError: Option<string>

    function Snap(): Attach
      reads this
    {
      Attach(profiles, selectedProfileId, sessions, manualSessionName, isLoading, isConnecting,
             showTerminal, activeSession, tmuxCommand, connectionError)
    }

    /** `init(profile:connectionManager:)`, over the stored profiles. */
    constructor (stored: seq<Profile>, profile: Profile)
      ensures Snap() == Attach(stored, profile.profileId, [], "", true, false, false, None, None, None)
    {
      profiles, selectedProfileId, sessions, manualSessionName := stored, profile.profileId, [], "";
      isLoading, isConnecting, showTerminal := true, false, false;
      activeSession, tmuxCommand, connectionError := None, None, None;
    }

    /** `switchProfile(to:)`; the task it starts is a following `ConnectAndListSessions`. */
    method SwitchProfile(p: Profile)
      modifies this
      ensures Snap() == AfterSwitchProfile(old(Snap()), p)
    {
      if p.profileId == selectedProfileId {
        return;
      }
      selectedProfileId := p.profileId;
      sessions := [];
      isLoading := true;
      connectionError := None;
    }

    method ConnectSession(s: Session, p: Profile, k: Keychain, o: TransportOutcome)
      requires s.Valid()
      modifies this`connectionError, s
      ensures s.Valid()
      ensures (connectionError, s.Snap()) == AfterConnectSession(old(connectionError), old(s.Snap()), ConnectPlan(p, k), o)
      ensures s.published == old(s.published) + (if ConnectPlan(p, k).Dial? then [Connecting, s.state] else [])
    {
      match p.authMethod {
        case PasswordAuth =>
          var password := k.password(p.profileId).GetOr("");
          s.Connect(Endpoint(p.hostname, p.port, p.username, Password(password)), o);
        case SshKeyAuth =>
          if p.sshKeyId.None? {
            connectionError := Some(NoKeyMessage);
            return;
          }
          var item := k.keyItem(p.sshKeyId.value);
          var key := LoadPrivateKey(item.0, item.1);
          if key.Err? {
            connectionError := Some(KeyMissingMessage);
            return;
          }
          s.Connect(Endpoint(p.hostname, p.port, p.username, PrivateKey(Some(key.value))), o);
      }
    }

    method ConnectAndListSessions(m: ConnectionManager, k: Keychain, o: TransportOutcome, cmd: CommandOutcome)
      requires m.Valid()
      modifies this, m, m.sessions.Values
      ensures m.Valid()
      ensures var id := old(selectedProfileId);
        var r := AfterConnectAndList(old(Snap()), old(SessionOf(m.sessions, id)), k, o, cmd);
        && Snap() == r.0
        && (Current(old(Snap())).None? ==> m.sessions == old(m.sessions))
        && (Current(old(Snap())).Some? ==>
              m.sessions.Keys == old(m.sessions.Keys) + {id} && m.sessions[id].Snap() == r.1)
      ensures forall j | j in old(m.sessions) && j != old(selectedProfileId) :: m.sessions[j] == old(m.sessions[j])
      ensures forall x | x in old(m.sessions.Values) && (old(selectedProfileId) !in m.sessions ||
                                                         x != m.sessions[old(selectedProfileId)]) :: unchanged(x)
    {
      var current := Find(profiles, selectedProfileId);
      if current.None? {
        isLoading := false;
        return;
      }
      CreateConnectList(m, current.value, k, o, cmd);
    }

    /** `connectAndListSessions` once the profile is known: create or reuse its session, connect, list. */
    method CreateConnectList(m: ConnectionManager, p: Profile, k: Keychain, o: TransportOutcome, cmd: CommandOutcome)
      requires m.Valid()
      modifies this, m, m.sessions.Values
      ensures m.Valid()
      ensures var c := EnsureConnected(old(connectionError), old(SessionOf(m.sessions, p.profileId)), ConnectPlan(p, k), o);
        && Snap() == AfterListing(old(Snap()), c, cmd)
        && m.sessions.Keys == old(m.sessions.Keys) + {p.profileId}
        && m.sessions[p.profileId].Snap() == c.1
      ensures forall j | j in old(m.sessions) && j != p.profileId :: m.sessions[j] == old(m.sessions[j])
      ensures forall x | x in old(m.sessions.Values) && x != m.sessions[p.profileId] :: unchanged(x)
    {
      var s := m.CreateSession(p.profileId);
      ListRegistered(m, s, p, k, o, cmd);
    }

    /** `connectAndListSessions` on the session registered for `p`; the registry stays valid. */
    method ListRegistered(m: ConnectionManager, s: Session, p: Profile, k: Keychain, o: TransportOutcome,
                          cmd: CommandOutcome)
      requires m.Valid() && p.profileId in m.sessions && m.sessions[p.profileId] == s
      modifies this`connectionError, this`sessions, this`isLoading, s
      ensures m.Valid() && m.sessions == old(m.sessions)
      ensures var c := EnsureConnected(old(connectionError), old(s.Snap()), ConnectPlan(p, k), o);
        s.Snap() == c.1 && Snap() == AfterListing(old(Snap()), c, cmd)
      ensures forall j | j in m.sessions && j != p.profileId :: unchanged(m.sessions[j])
    {
      ConnectThenList(s, p, k, o, cmd);
      forall j | j in m.sessions
        ensures m.sessions[j].Valid()
      {
        if j != p.profileId {
          assert m.sessions[j] != s;
        }
      }
    }

    /** `connectAndListSessions` from the point where the session is known. */
    method ConnectThenList(s: Session, p: Profile, k: Keychain, o: TransportOutcome, cmd: CommandOutcome)
      requires s.Valid()
      modifies this`connectionError, this`sessions, this`isLoading, s
      ensures s.Valid()
      ensures var c := EnsureConnected(old(connectionError), old(s.Snap()), ConnectPlan(p, k), o);
        s.Snap() == c.1 && Snap() == AfterListing(old(Snap()), c, cmd)
    {
      if s.state != Connected {
        ConnectSession(s, p, k, o);
      }
      ghost var c := (connectionError, s.Snap());
      assert c == EnsureConnected(old(connectionError), old(s.Snap()), ConnectPlan(p, k), o);
      if s.state.Error? {
        connectionError := Some(s.state.message);
        isLoading := false;
        return;
      }
      sessions := ListSessions(s.HasClient(), cmd);
      isLoading := false;
    }

    method RefreshSessions(m: ConnectionManager, cmd: CommandOutcome)
      modifies this
      ensures Snap() == AfterRefresh(old(Snap()),
        if selectedProfileId in m.sessions then Some(m.sessions[selectedProfileId].Snap()) else None, cmd)
    {
      var current := Find(profiles, selectedProfileId);
      if current.None? {
        return;
      }
      isLoading := true;
      var id := current.value.profileId;
      if id in m.sessions {
        var s := m.sessions[id];
        sessions := ListSessions(s.HasClient(), cmd);
      }
      isLoading := false;
    }

    method AttachToSession(name: string, m: ConnectionManager, k: Keychain, o: TransportOutcome)
      requires m.Valid()
      modifies this, m.sessions.Values
      ensures m.Valid()
      ensures var id := old(selectedProfileId);
        var sess := if id in m.sessions then Some(m.sessions[id]) else None;
        var r := AfterAttach(old(Snap()), name, sess, old(SessionOf(m.sessions, id)), k, o);
        Snap() == r.0 && (id in m.sessions ==> m.sessions[id].Snap() == r.1)
      ensures forall j | j in old(m.sessions) && j != old(selectedProfileId) ::
        m.sessions[j] == old(m.sessions[j]) && unchanged(m.sessions[j])
    {
      var current := Find(profiles, selectedProfileId);
      if current.None? {
        return;
      }
      var p := current.value;
      if p.profileId !in m.sessions {
        isConnecting := true;
        return;
      }
      RecordAndConnect(m, p, name, k, o);
    }

    /** `attachToSession` once the profile's session is known: record the name, set the command, connect. */
    method RecordAndConnect(m: ConnectionManager, p: Profile, name: string, k: Keychain, o: TransportOutcome)
      requires m.Valid() && p.profileId in m.sessions
      modifies this, m.sessions.Values
      ensures m.Valid()
      ensures var s := m.sessions[p.profileId];
        (Snap(), s.Snap()) == AfterAttachConnect(Recorded(old(Snap()), p, name), s, old(s.Snap()),
          AfterConnectSession(old(connectionError), old(s.Snap()), ConnectPlan(RecordSession(name)(p), k), o))
      ensures forall j | j in old(m.sessions) && j != p.profileId ::
        m.sessions[j] == old(m.sessions[j]) && unchanged(m.sessions[j])
    {
      var s := m.sessions[p.profileId];
      isConnecting := true;
      profiles := Update(profiles, p.profileId, RecordSession(name));
      tmuxCommand := Some(AttachCommand(name));
      label Recorded:
      ConnectOrShow(s, RecordSession(name)(p), k, o);
      forall j | j in m.sessions
        ensures m.sessions[j].Valid()
      {
        if m.sessions[j] != s {
          assert unchanged@Recorded(m.sessions[j]);
        }
      }
    }

    /** The `else` branch of `attachToSession` and the shortcut for a connected session. */
    method ConnectOrShow(s: Session, p: Profile, k: Keychain, o: TransportOutcome)
      requires s.Valid()
      modifies this`activeSession, this`showTerminal, this`isConnecting, this`connectionError, s
      ensures s.Valid()
      ensures (Snap(), s.Snap()) == AfterAttachConnect(old(Snap()), s, old(s.Snap()),
        AfterConnectSession(old(connectionError), old(s.Snap()), ConnectPlan(p, k), o))
    {
      if s.state == Connected {
        activeSession := Some(s);
        showTerminal := true;
        isConnecting := false;
        return;
      }
      ConnectSession(s, p, k, o);
      ghost var c := (connectionError, s.Snap());
      assert c == AfterConnectSession(old(connectionError), old(s.Snap()), ConnectPlan(p, k), o);
      if s.state.Error? {
        connectionError := Some(s.state.message);
        isConnecting := false;
        return;
      }
      if s.state == Connected {
        activeSession := Some(s);
        showTerminal := true;
      }
      isConnecting := false;
    }
  }

  // ------------------------------------------------------------ properties

  /** The command names the session twice, verbatim, and ends the line. */
  lemma AttachCommandSpec(name: string)
    ensures var c := AttachCommand(name);
      && |c| == 2 * |name| + 39
      && c[..10] == AttachPrefix
      && c[10..10 + |name|] == name
      && c[10 + |name|..38 + |name|] == AttachMiddle
      && c[38 + |name|..38 + 2 * |name|] == name
      && c[|c| - 1] == '\n'
  {
  }

  /** Different names give different commands. */
  lemma AttachCommandInjective(a: string, b: string)
    requires AttachCommand(a) == AttachCommand(b)
    ensures a == b
  {
    AttachCommandSpec(a);
    AttachCommandSpec(b);
  }

  lemma ManualNameSpec(typed: string, current: Option<Profile>)
    ensures typed != [] ==> ManualName(typed, current) == typed
    ensures typed == [] && current.Some? && current.value.lastTmuxSession.Some? ==>
      ManualName(typed, current) == current.value.lastTmuxSession.value
    ensures typed == [] && (current.None? || current.value.lastTmuxSession.None?) ==>
      ManualName(typed, current) == "0"
  {
  }

  /**
   * Key authentication without a key id, or with a key the keychain does not
   * yield, is refused with its message; anything else dials the profile's
   * host, port and user with the stored password (or an empty one) or the key
   * read from the keychain.
   */
  lemma ConnectPlanSpec(p: Profile, k: Keychain)
    ensures var plan := ConnectPlan(p, k);
      && (plan.Refuse? <==>
            p.authMethod == SshKeyAuth &&
            (p.sshKeyId.None? || LoadPrivateKey(k.keyItem(p.sshKeyId.value).0, k.keyItem(p.sshKeyId.value).1).Err?))
      && (plan.Refuse? ==> plan.message == if p.sshKeyId.None? then NoKeyMessage else KeyMissingMessage)
      && (plan.Dial? ==>
            plan.endpoint.host == p.hostname && plan.endpoint.port == p.port && plan.endpoint.username == p.username)
      && (p.authMethod == PasswordAuth ==> plan.Dial? && plan.endpoint.credential == Password(k.password(p.profileId).GetOr("")))
      && (p.authMethod == SshKeyAuth && plan.Dial? ==>
            plan.endpoint.credential.PrivateKey? && plan.endpoint.credential.key.Some? &&
            k.keyItem(p.sshKeyId.value).1 == plan.endpoint.credential.key &&
            |plan.endpoint.credential.key.value| == RawKeyLength)
  {
  }

  /** A refused key never reaches `connect`: the session is untouched and the message is set. */
  lemma RefusalNeverConnects(err: Option<string>, s: Snapshot, p: Profile, k: Keychain, o: TransportOutcome)
    requires ConnectPlan(p, k).Refuse?
    ensures AfterConnectSession(err, s, ConnectPlan(p, k), o) == (Some(ConnectPlan(p, k).message), s)
  {
  }

  /** Switching to the selected profile changes nothing; any other resets the list and the error. */
  lemma SwitchProfileSpec(v: Attach, p: Profile)
    ensures p.profileId == v.selectedProfileId ==> AfterSwitchProfile(v, p) == v
    ensures p.profileId != v.selectedProfileId ==>
      var r := AfterSwitchProfile(v, p);
      r.selectedProfileId == p.profileId && r.sessions == [] && r.isLoading && r.connectionError.None? &&
      r.profiles == v.profiles && r.isConnecting == v.isConnecting && r.showTerminal == v.showTerminal
  {
  }

  /**
   * `connectAndListSessions` connects only a session that is not connected;
   * a session left in `.error(m)` shows `m` and skips the listing; otherwise
   * the listing replaces the sessions. Loading always ends.
   */
  lemma ConnectAndListSpec(v: Attach, s: Snapshot, k: Keychain, o: TransportOutcome, cmd: CommandOutcome)
    requires Current(v).Some?
    ensures var r := AfterConnectAndList(v, s, k, o, cmd);
      var plan := ConnectPlan(Current(v).value, k);
      && (s.state == Connected ==> r.1 == s)
      && (s.state != Connected && plan.Dial? ==> r.1 == AfterConnect(s, plan.endpoint, o))
      && (r.1.state.Error? ==> r.0 == v.(connectionError := Some(r.1.state.message), isLoading := false))
      && (!r.1.state.Error? ==> r.0.sessions == ListSessions(r.1.client.Some?, cmd))
      && !r.0.isLoading && r.0.selectedProfileId == v.selectedProfileId && r.0.profiles == v.profiles
  {
  }

  /** A transport failure is what the screen reports, and nothing is listed. */
  lemma ConnectFailureShown(v: Attach, s: Snapshot, k: Keychain, d: string, cmd: CommandOutcome)
    requires Current(v).Some? && s.state != Connected && ConnectPlan(Current(v).value, k).Dial?
    ensures var r := AfterConnectAndList(v, s, k, Failed(d), cmd);
      r.0.connectionError == Some(d) && r.0.sessions == v.sessions && r.1.state == Error(d)
  {
  }

  /**
   * A refused key over a session still in `.error(m)` from an earlier
   * attempt shows `m`, not the refusal, and lists nothing.
   */
  lemma StaleErrorHidesRefusal(v: Attach, s: Snapshot, k: Keychain, o: TransportOutcome, cmd: CommandOutcome)
    requires Current(v).Some? && s.state.Error? && ConnectPlan(Current(v).value, k).Refuse?
    ensures AfterConnectAndList(v, s, k, o, cmd) == (v.(connectionError := Some(s.state.message), isLoading := false), s)
  {
  }

  /**
   * With no profile selected nothing happens. Otherwise loading ends either
   * way; a missing session keeps the listing and a present one is listed again.
   */
  lemma RefreshSpec(v: Attach, found: Option<Snapshot>, cmd: CommandOutcome)
    ensures Current(v).None? ==> AfterRefresh(v, found, cmd) == v
    ensures Current(v).Some? ==>
      var r := AfterRefresh(v, found, cmd);
      !r.isLoading && r.sessions == (if found.Some? then ListSessions(found.value.client.Some?, cmd) else v.sessions) &&
      r.connectionError == v.connectionError && r.selectedProfileId == v.selectedProfileId
  {
  }

  /**
   * With a session to attach to, the name is recorded as the profile's last
   * session and the attach command is set, whatever the connection then does.
   */
  lemma {:induction false} AttachRecordsName(v: Attach, name: string, sess: Session, s: Snapshot, k: Keychain, o: TransportOutcome)
    requires Current(v).Some?
    ensures var r := AfterAttach(v, name, Some(sess), s, k, o);
      && Current(r.0) == Some(Current(v).value.(lastTmuxSession := Some(name)))
      && r.0.tmuxCommand == Some(AttachCommand(name))
      && !r.0.isConnecting
  {
    var p := Current(v).value;
    var w := Recorded(v, p, name);
    var c := AfterConnectSession(v.connectionError, s, ConnectPlan(RecordSession(name)(p), k), o);
    assert AfterAttach(v, name, Some(sess), s, k, o) == AfterAttachConnect(w, sess, s, c);
    AttachConnectKeeps(w, sess, s, c);
    FindUpdate(v.profiles, p.profileId, RecordSession(name));
  }

  /** The connecting part of `attachToSession` leaves the profiles and the command alone. */
  lemma AttachConnectKeeps(w: Attach, sess: Session, s: Snapshot, c: (Option<string>, Snapshot))
    ensures var r := AfterAttachConnect(w, sess, s, c);
      r.0.profiles == w.profiles && r.0.selectedProfileId == w.selectedProfileId &&
      r.0.tmuxCommand == w.tmuxCommand && !r.0.isConnecting
  {
  }

  /** An already-connected session is shown without a connect, and connecting ends. */
  lemma AttachConnected(v: Attach, name: string, sess: Session, s: Snapshot, k: Keychain, o: TransportOutcome)
    requires Current(v).Some? && s.state == Connected
    ensures var r := AfterAttach(v, name, Some(sess), s, k, o);
      r.1 == s && r.0.showTerminal && r.0.activeSession == Some(sess) && !r.0.isConnecting &&
      r.0.connectionError == v.connectionError
  {
  }

  /** Without a session in the manager, connecting is left on and nothing is recorded. */
  lemma AttachWithoutSession(v: Attach, name: string, s: Snapshot, k: Keychain, o: TransportOutcome)
    requires Current(v).Some?
    ensures AfterAttach(v, name, None, s, k, o) == (v.(isConnecting := true), s)
  {
  }

  /**
   * The terminal is newly shown only over a connected session, and a failed
   * or refused connection shows the reason.
   */
  lemma AttachShowsOnlyConnected(v: Attach, name: string, sess: Session, s: Snapshot, k: Keychain, o: TransportOutcome)
    requires Current(v).Some? && !v.showTerminal
    ensures var r := AfterAttach(v, name, Some(sess), s, k, o);
      var plan := ConnectPlan(Current(v).value.(lastTmuxSession := Some(name)), k);
      && (r.0.showTerminal <==> r.1.state == Connected)
      && (s.state != Connected && plan.Refuse? ==>
            r.1 == s &&
            r.0.connectionError == Some(if s.state.Error? then s.state.message else plan.message))
      && (s.state != Connected && plan.Dial? && o.Failed? ==> r.0.connectionError == Some(o.description) && !r.0.showTerminal)
  {
  }
}
