/**
 * The add/edit connection form (ShinobiTerm/ShinobiTerm/Views/ConnectionFormView.swift):
 * loading a profile into the fields, `save`, `saveCredentials` and
 * `testConnection`.
 *
 * The screen's `@State`, the profile being edited and the profile store are
 * the class `FormScreen`. The keychain's answers, the key list, the fresh
 * UUID of a new profile and the transport's answer are parameters; what
 * `KeychainService.savePassword` is asked to store is logged. The test's
 * `Task` runs to completion where it is started.
 */
module ConnectionForm {
  import opened Wrappers
  import opened SwiftText
  import opened Models
  import opened SshSession
  import opened SshKeyService

  const DefaultPort: int := 22
  const FallbackMessage: string := "Connection failed"

  datatype TestResult = Success | Failure(message: string)

  /** The fields the user edits. */
  datatype Fields = Fields(
    name: string,
    hostname: string,
    port: string,
    username: string,
    authMethod: AuthMethod,
    password: string,
    selectedKeyId: Option<string>)

  /** An empty form: port "22", password authentication, no key chosen. */
  function BlankFields(): (f: Fields)
    ensures f.name == f.hostname == f.username == f.password == "" && f.port == "22"
    ensures f.authMethod == PasswordAuth && f.selectedKeyId.None?
  {
    Fields("", "", "22", "", PasswordAuth, "", None)
  }

  /** The whole screen as a value, with the profile store and the passwords written to the keychain. */
  datatype Form = Form(
    editing: Option<Profile>,
    fields: Fields,
    availableKeys: seq<SshKeyInfo>,
    isTesting: bool,
    testResult: Option<TestResult>,
    profiles: seq<Profile>,
    savedPasswords: seq<(string, string)>,  // (password, profile id)
    dismissed: bool)

  /** The Save button (toolbar and form) is enabled when name, host and user are all filled in. */
  predicate SaveEnabled(f: Fields) {
    f.name != "" && f.hostname != "" && f.username != ""
  }

  /** The Test button is enabled when no test is running and host and user are filled in. */
  predicate TestEnabled(f: Form) {
    !f.isTesting && f.fields.hostname != "" && f.fields.username != ""
  }

  /** `onAppear`: the key list, and for an edited profile its fields and stored password ("" if none). */
  function AfterAppear(f: Form, keys: seq<SshKeyInfo>, k: Keychain): (r: Form)
    ensures r.editing == f.editing && r.profiles == f.profiles && r.savedPasswords == f.savedPasswords
    ensures r.availableKeys == keys
    ensures f.editing.None? ==> r.fields == f.fields
  {
    match f.editing
    case None => f.(availableKeys := keys)
    case Some(p) => f.(availableKeys := keys, fields := Loaded(p, k))
  }

  /** The fields `onAppear` fills in from a profile and its stored password ("" if none). */
  function Loaded(p: Profile, k: Keychain): Fields {
    Fields(p.name, p.hostname, IntToString(p.port), p.username, p.authMethod,
           k.password(p.profileId).GetOr(""), p.sshKeyId)
  }

  /** The port to save or dial: the text as a Swift `Int`, or 22 when it does not parse. */
  function SavedPort(port: string): (n: int)
    ensures IntMin <= n <= IntMax
  {
    ParseInt(port).GetOr(DefaultPort)
  }

  /** The key id to save: the chosen key under key authentication, none under password authentication. */
  function SavedKeyId(f: Fields): Option<string> {
    if f.authMethod == SshKeyAuth then f.selectedKeyId else None
  }

  /** The edit path of `save`: the fields replace the profile's, its id and history stay. */
  function Edited(p: Profile, f: Fields): (r: Profile)
    ensures r.profileId == p.profileId && r.lastTmuxSession == p.lastTmuxSession
    ensures r.lastConnectedAt == p.lastConnectedAt
    ensures r.sshKeyId.Some? ==> r.authMethod == SshKeyAuth
  {
    p.(name := f.name, hostname := f.hostname, port := SavedPort(f.port), username := f.username,
       authMethod := f.authMethod, sshKeyId := SavedKeyId(f))
  }

  /** The create path of `save`: a new profile from the fields, never connected. */
  function Created(id: string, f: Fields): (r: Profile)
    ensures r.profileId == id && r.lastTmuxSession.None? && r.lastConnectedAt.None?
    ensures r.sshKeyId.Some? ==> r.authMethod == SshKeyAuth
  {
    NewProfile(id, f.name, f.hostname, SavedPort(f.port), f.username, f.authMethod).(sshKeyId := SavedKeyId(f))
  }

  /** `saveCredentials(for:)`: only password authentication writes the password. */
  function SavedCredentials(log: seq<(string, string)>, f: Fields, id: string): seq<(string, string)> {
    if f.authMethod == PasswordAuth then log + [(f.password, id)] else log
  }

  /** The id `save` files the fields under: the edited profile's, or the new one's. */
  function SaveTarget(f: Form, newId: string): string {
    if f.editing.Some? then f.editing.value.profileId else newId
  }

  /** `save`, followed by `dismiss`. */
  function AfterSave(f: Form, newId: string): Form {
    f.(profiles := match f.editing
                   case Some(p) => Update(f.profiles, p.profileId, q => Edited(q, f.fields))
                   case None => f.profiles + [Created(newId, f.fields)],
       savedPasswords := SavedCredentials(f.savedPasswords, f.fields, SaveTarget(f, newId)),
       dismissed := true)
  }

  /** The key `testConnection` hands over: none when no key is chosen or it does not load. */
  function TestKey(f: Fields, k: Keychain): (key: Option<RawKey>)
    ensures key.Some? <==>
      f.selectedKeyId.Some? && LoadPrivateKey(k.keyItem(f.selectedKeyId.value).0, k.keyItem(f.selectedKeyId.value).1).Ok?
    ensures key.Some? ==> |key.value| == RawKeyLength
  {
    if f.selectedKeyId.None? then None
    else
      var item := k.keyItem(f.selectedKeyId.value);
      match LoadPrivateKey(item.0, item.1)
      case Err(_) => None
      case Ok(raw) => Some(raw)
  }

  /** What `testConnection` dials: the fields' host, port and user with the chosen credential. */
  function TestEndpoint(f: Fields, k: Keychain): Endpoint {
    Endpoint(f.hostname, SavedPort(f.port), f.username,
             match f.authMethod
             case PasswordAuth => Password(f.password)
             case SshKeyAuth => PrivateKey(TestKey(f, k)))
  }

  /** The result shown for the state the test session ends the connect in. */
  function ResultFor(st: SessionState): TestResult {
    if st == Connected then Success
    else if st.Error? then Failure(st.message)
    else Failure(FallbackMessage)
  }

  /** The throwaway session's state for the test: the connect, then a disconnect once connected. */
  function TestSession(e: Endpoint, o: TransportOutcome): Snapshot {
    var s := AfterConnect(Initial(), e, o);
    if s.state == Connected then AfterDisconnect(s) else s
  }

  /** The start of `testConnection`: the spinner on, the previous result cleared. */
  function BeginTest(f: Form): Form {
    f.(isTesting := true, testResult := None)
  }

  /** The end of `testConnection`, once the connect left the session in state `st`. */
  function AfterTest(f: Form, st: SessionState): Form {
    f.(isTesting := false, testResult := Some(ResultFor(st)))
  }

  class FormScreen {
    const editing: Option<Profile>
    var name: string
    var hostname: string
    var port: string
    var username: string
    var authMethod: AuthMethod
    var password: string
    var selectedKeyId: Option<string>
    var availableKeys: seq<SshKeyInfo>
    var isTesting: bool
    var testResult: Option<TestResult>
    var profiles: seq<Profile>
    var savedPasswords: seq<(string, string)>
    var dismissed: bool

    function Entries(): Fields
      reads this
    {
      Fields(name, hostname, port, username, authMethod, password, selectedKeyId)
    }

    function Snap(): Form
      reads this
    {
      Form(editing, Entries(), availableKeys, isTesting, testResult, profiles, savedPasswords, dismissed)
    }

    /** The form for `editingProfile` (none when adding) over the stored profiles. */
    constructor (editingProfile: Option<Profile>, stored: seq<Profile>)
      ensures Snap() == Form(editingProfile, BlankFields(), [], false, None, stored, [], false)
    {
      editing := editingProfile;
      name, hostname, port, username := "", "", "22", "";
      authMethod, password, selectedKeyId := PasswordAuth, "", None;
      availableKeys, isTesting, testResult := [], false, None;
      profiles, savedPasswords, dismissed := stored, [], false;
    }

    /** The bindings of the text fields, the picker and the key list. */
    method Type(f: Fields)
      modifies this`name, this`hostname, this`port, this`username, this`authMethod, this`password,
        this`selectedKeyId
      ensures Entries() == f
    {
      name, hostname, port, username := f.name, f.hostname, f.port, f.username;
      authMethod, password, selectedKeyId := f.authMethod, f.password, f.selectedKeyId;
    }

    method Appear(keys: seq<SshKeyInfo>, k: Keychain)
      modifies this`name, this`hostname, this`port, this`username, this`authMethod, this`password,
        this`selectedKeyId, this`availableKeys
      ensures availableKeys == keys && Entries() == AfterAppear(old(Snap()), keys, k).fields
    {
      availableKeys := keys;
      if editing.Some? {
        var p := editing.value;
        name := p.name;
        hostname := p.hostname;
        port := IntToString(p.port);
        username := p.username;
        authMethod := p.authMethod;
        selectedKeyId := p.sshKeyId;
        var profileId := p.profileId;
        password := k.password(profileId).GetOr("");
      }
    }

    method Save(newId: string)
      modifies this`profiles, this`savedPasswords, this`dismissed
      ensures var r := AfterSave(old(Snap()), newId);
        profiles == r.profiles && savedPasswords == r.savedPasswords && dismissed
    {
      var entries := Entries();
      var target: string;
      if editing.Some? {
        target := editing.value.profileId;
        profiles := Update(profiles, target, q => Edited(q, entries));
      } else {
        target := newId;
        profiles := profiles + [Created(newId, entries)];
      }
      SaveCredentials(target);
      dismissed := true;
    }

    method SaveCredentials(profileId: string)
      modifies this`savedPasswords
      ensures savedPasswords == SavedCredentials(old(savedPasswords), Entries(), profileId)
    {
      if authMethod == PasswordAuth {
        savedPasswords := savedPasswords + [(password, profileId)];
      }
    }

    /** The key the test's closure loads: none without a chosen key or when loading throws. */
    method LoadTestKey(k: Keychain) returns (key: Option<RawKey>)
      ensures key == TestKey(Entries(), k)
    {
      key := None;
      if selectedKeyId.Some? {
        var item := k.keyItem(selectedKeyId.value);
        var loaded := LoadPrivateKey(item.0, item.1);
        if loaded.Ok? {
          key := Some(loaded.value);
        }
      }
    }

    /**
     * `testConnection`: a fresh session connects with the fields, the result
     * is shown, and a session that connected is disconnected again.
     */
    method TestConnection(k: Keychain, o: TransportOutcome) returns (session: Session)
      modifies this`isTesting, this`testResult
      ensures fresh(session) && session.Valid()
      ensures var e := TestEndpoint(old(Entries()), k);
        && !isTesting && testResult == AfterTest(BeginTest(old(Snap())), AfterConnect(Initial(), e, o).state).testResult
        && session.Snap() == TestSession(e, o)
    {
      isTesting := true;
      testResult := None;
      session := new Session();
      var privateKey := LoadTestKey(k);
      var credential := if authMethod == PasswordAuth then Password(password) else PrivateKey(privateKey);
      var e := Endpoint(hostname, SavedPort(port), username, credential);
      assert e == TestEndpoint(old(Entries()), k);
      session.Connect(e, o);
      ghost var connected := session.Snap();
      isTesting := false;
      testResult := Some(ResultFor(session.state));
      if session.state == Connected {
        session.Disconnect();
      }
    }
  }

  // ------------------------------------------------------------ properties

  /** The port text loaded from a profile saves back as the same port. */
  lemma SavedPortRoundTrip(n: int)
    requires IntMin <= n <= IntMax
    ensures SavedPort(IntToString(n)) == n
  {
    ParseIntToString(n);
  }

  /**
   * Opening a stored profile and saving it unchanged keeps it as it was,
   * except that a key id left on a password profile is dropped; the password
   * the keychain held (or "" if it held none) is written back under password
   * authentication only, and the form is dismissed.
   */
  lemma LoadThenSave(f: Form, p: Profile, keys: seq<SshKeyInfo>, k: Keychain, newId: string)
    requires f.editing == Some(p) && Find(f.profiles, p.profileId) == Some(p)
    requires IntMin <= p.port <= IntMax
    ensures var r := AfterSave(AfterAppear(f, keys, k), newId);
      && |r.profiles| == |f.profiles|
      && Find(r.profiles, p.profileId) == Some(p.(sshKeyId := if p.authMethod == SshKeyAuth then p.sshKeyId else None))
      && r.savedPasswords == f.savedPasswords +
           (if p.authMethod == PasswordAuth then [(k.password(p.profileId).GetOr(""), p.profileId)] else [])
      && r.dismissed
  {
    var loaded := AfterAppear(f, keys, k);
    var edit := q => Edited(q, Loaded(p, k));
    assert loaded.editing == Some(p) && loaded.profiles == f.profiles && loaded.fields == Loaded(p, k);
    assert AfterSave(loaded, newId).profiles == Update(f.profiles, p.profileId, edit);
    EditLoaded(p, k);
    FindUpdate(f.profiles, p.profileId, edit);
  }

  /** Saving the fields loaded from a profile gives the profile back, less a key id it does not use. */
  lemma EditLoaded(p: Profile, k: Keychain)
    requires IntMin <= p.port <= IntMax
    ensures Edited(p, Loaded(p, k)) == p.(sshKeyId := if p.authMethod == SshKeyAuth then p.sshKeyId else None)
  {
    SavedPortRoundTrip(p.port);
  }

  /**
   * Saving a new form keeps every stored profile in place and appends one
   * new profile, found under the new id, holding the fields.
   */
  lemma SaveNew(f: Form, newId: string)
    requires f.editing.None?
    requires forall i | 0 <= i < |f.profiles| :: f.profiles[i].profileId != newId
    ensures var r := AfterSave(f, newId);
      && |r.profiles| == |f.profiles| + 1 && r.profiles[..|f.profiles|] == f.profiles
      && Find(r.profiles, newId) == Some(Created(newId, f.fields))
      && r.profiles[|f.profiles|].name == f.fields.name
      && r.profiles[|f.profiles|].hostname == f.fields.hostname
      && r.profiles[|f.profiles|].username == f.fields.username
      && r.profiles[|f.profiles|].authMethod == f.fields.authMethod
      && r.savedPasswords == SavedCredentials(f.savedPasswords, f.fields, newId)
  {
    FindAppend(f.profiles, Created(newId, f.fields));
  }

  /**
   * Saving an edit changes only the profiles under the edited id, whose
   * name, host, port, user and method become the fields' and whose id and
   * history stay.
   */
  lemma SaveEdit(f: Form, p: Profile, newId: string)
    requires f.editing == Some(p)
    ensures var r := AfterSave(f, newId);
      && |r.profiles| == |f.profiles|
      && (forall i | 0 <= i < |f.profiles| && f.profiles[i].profileId != p.profileId :: r.profiles[i] == f.profiles[i])
      && (forall i | 0 <= i < |f.profiles| && f.profiles[i].profileId == p.profileId ::
            && r.profiles[i].name == f.fields.name && r.profiles[i].hostname == f.fields.hostname
            && r.profiles[i].port == SavedPort(f.fields.port) && r.profiles[i].username == f.fields.username
            && r.profiles[i].authMethod == f.fields.authMethod && r.profiles[i].profileId == p.profileId
            && r.profiles[i].lastConnectedAt == f.profiles[i].lastConnectedAt)
      && r.savedPasswords == SavedCredentials(f.savedPasswords, f.fields, p.profileId)
  {
  }

  /** Under key authentication no password reaches the keychain; under password authentication exactly one does. */
  lemma SaveCredentialsSpec(log: seq<(string, string)>, f: Fields, id: string)
    ensures var r := SavedCredentials(log, f, id);
      && (f.authMethod == SshKeyAuth ==> r == log)
      && (f.authMethod == PasswordAuth ==> |r| == |log| + 1 && r[..|log|] == log && r[|log|] == (f.password, id))
  {
  }

  /**
   * The result the test shows follows the transport's answer: success when
   * it opened a client, its error description when it failed; the fallback
   * "Connection failed" is never shown.
   */
  lemma TestResultFollowsTransport(f: Fields, k: Keychain, o: TransportOutcome)
    ensures ResultFor(AfterConnect(Initial(), TestEndpoint(f, k), o).state) ==
      match o
      case Opened(_) => Success
      case Failed(d) => Failure(d)
  {
    match o
    case Opened(c) => ConnectSuccess(Initial(), TestEndpoint(f, k), c);
    case Failed(d) => ConnectFailure(Initial(), TestEndpoint(f, k), d);
  }

  /**
   * The test leaves no connection open: the throwaway session ends with no
   * client and no running task, disconnected after a success and in the
   * error state after a failure, having made exactly the one attempt.
   */
  lemma TestLeavesNothingOpen(f: Fields, k: Keychain, o: TransportOutcome)
    ensures var s := TestSession(TestEndpoint(f, k), o);
      && s.client.None? && !Live(s) && Inv(s)
      && s.attempts == [TestEndpoint(f, k)]
      && s.state == (if o.Opened? then Disconnected else Error(o.description))
  {
    var e := TestEndpoint(f, k);
    match o
    case Opened(c) =>
      ConnectSuccess(Initial(), e, c);
      DisconnectSpec(AfterConnect(Initial(), e, o));
    case Failed(d) =>
      ConnectFailure(Initial(), e, d);
  }

  /**
   * The test dials the host, port and user of the fields; under password
   * authentication with the typed password, under key authentication with
   * the loaded key, or with no key when none is chosen or it does not load.
   */
  lemma TestEndpointSpec(f: Fields, k: Keychain)
    ensures var e := TestEndpoint(f, k);
      && e.host == f.hostname && e.port == SavedPort(f.port) && e.username == f.username
      && (f.authMethod == PasswordAuth <==> e.credential == Password(f.password))
      && (f.authMethod == SshKeyAuth && f.selectedKeyId.None? ==> e.credential == PrivateKey(None))
      && (e.credential.PrivateKey? && e.credential.key.Some? ==>
            && f.authMethod == SshKeyAuth && f.selectedKeyId.Some?
            && LoadPrivateKey(k.keyItem(f.selectedKeyId.value).0, k.keyItem(f.selectedKeyId.value).1)
                 == Ok(e.credential.key.value))
  {
  }

  /** A profile saved from the form carries a key id only under key authentication, and then the chosen one. */
  lemma SavedKeyIdSpec(p: Profile, f: Fields, id: string)
    ensures Edited(p, f).sshKeyId == Created(id, f).sshKeyId
    ensures Created(id, f).sshKeyId == if f.authMethod == SshKeyAuth then f.selectedKeyId else None
  {
  }

  /** A form the Save button accepts saves a profile with a name, a host and a user. */
  lemma SaveEnabledSavesFilled(p: Profile, f: Fields, id: string)
    requires SaveEnabled(f)
    ensures Edited(p, f).name != "" && Edited(p, f).hostname != "" && Edited(p, f).username != ""
    ensures Created(id, f).name != "" && Created(id, f).hostname != "" && Created(id, f).username != ""
  {
  }
}
