# ShinobiTerm, modelled in Dafny

ShinobiTerm is an iPhone SSH client that is built around tmux. This project models the parts of it that make decisions. It proves properties of those parts, and treats the SwiftUI and foreign-library layers as given.

The model covers the following, one Dafny module per Swift file:

- **`SshSession`** models one SSH connection as a class. Its state is `disconnected | connecting | connected | error`. It also covers the client handle, the PTY task, the outbound byte queue and the terminal geometry. It models `connect`, `disconnect`, `send`, `resize`, the reader, the writer and the end-of-stream handling.
- **`SshConnectionManager`** is the get-or-create registry of sessions, keyed by profile id, with `removeSession` and `disconnectAll`.
- **`TmuxService`** parses `tmux ls` lines and turns command output into a session list.
- **`TmuxAttach`** covers the attach screen:
  - the literal attach-or-create command and the manual-name default;
  - `switchProfile`, `connectAndListSessions`, `attachToSession` and `connectSession`.
- **`TerminalContainer`** covers the terminal screen:
  - tmux copy mode and the handling of scroll gestures;
  - the return to the live view, the input bar, read mode and the usage overlay toggle;
  - the extra-keys bar with its Ctrl latch.
- **`ScrollOverlay`** is the gesture coordinator. It turns pan deltas into whole 16-point lines and keeps the remainder.
- **`ExtraKeys`** holds the ten extra keys, their labels, font sizes and byte sequences.
- **`ConnectionList`** is the profile list:
  - the `user@host:port` quick-connect parser and `quickConnect`;
  - `connectToProfile`, `deleteProfile` and the quick-attach selection;
  - the lookup that the terminal cover makes.
- **`ConnectionForm`** is the add/edit form: the save-enable predicate, `save`, `saveCredentials` and `testConnection` with its result mapping.
- **`SshKeyService`** covers ed25519 keys:
  - the OpenSSH public-key blob, key line and fingerprint (section 5 of RFC 4251, section 6.6 of RFC 4253, section 4 of RFC 8709);
  - the error mapping of `loadPrivateKey` and `deleteKey`;
  - the filtering in `listKeys`.
- **`ClaudeUsageService`** covers POSIX single-quote escaping, proved against an unquoting function. It also covers the branching of `fetchUsage` and the reading of the JSON reply.
- **`ClaudeUsageOverlay`** covers the reset countdown text, the remaining balance and the usage-ratio clamp, each with its colour thresholds.
- **`TipJarService`** is the tip-jar purchase state machine, over abstract StoreKit outcomes.
- **Shared modules:**
  - `Models` holds the connection profile and the keychain's answers.
  - `Base64` is section 4 of RFC 4648, with an encoder, a decoder and the round trip between them.
  - `SwiftText` holds the Swift `String` operations the code relies on: `split` with empty pieces omitted, trimming, `Int(String)` as 64-bit parsing, `String(Int)`, `replacingOccurrences` and UTF-8.
  - `Wrappers` provides `Option` and `Result`.

Where the source changes state in place, the model does too. The session, the manager and each screen's `@State` become classes, and their methods carry `modifies` clauses. Each class has a `Snap()` function that returns its state as a plain value. Each method ensures that the new `Snap()` is a named transition function applied to the old one. The properties are then proved as lemmas about those transition functions.

Everything outside the program is passed in as a value:
- the transport's answer, a command's output and StoreKit's outcome;
- the keychain's answers and the clock;
- freshly drawn UUIDs;
- SHA-256, public-key derivation, `JSONSerialization`, `Double(String)` and ISO 8601 parsing.

Each `Task` is modelled as running to completion at the point where it is started.

These behaviours of the code are easy to miss; the model keeps them as the code has them:
- Inbound data that arrives with no `onDataReceived` callback set is dropped, not buffered (`SshSession.InboundSpec`).
- A failed `connect` keeps a client stored by an earlier connection rather than clearing it (`SshSession.ConnectFailure`).
- The callers use an `SSHSession.connect(hostname:port:username:authMethod:privateKey:)` overload that `SSHSession.swift` does not define. It is modelled as the credential `PrivateKey(key)` next to `Password(p)`.
- The views use `ConnectionProfile.sshKeyId`, which `ConnectionProfile.swift` does not declare. It is modelled as an optional field of the profile.
- `TerminalContainerView.swift` switches on `.read`, `.keyboard` and `.claude`, which are not among the cases in `ExtraKeysView.swift`. They are modelled as the extra bar buttons `Read | Keyboard | Claude` next to `Key(k)`.
- `resize` only records the geometry. The next PTY is opened with it, but a running channel is never told (`SshSession.ResizeThenConnect`).
- Scroll direction: the coordinator passes `-trunc(acc / 16)`, the opposite sign of the accumulated movement. One-finger drags of +20, +20, +20 points from the live view therefore give three `onScroll(-1)` calls, which send three cursor-down keys. The offset stays at 0, and lifting the finger leaves copy mode (`TerminalContainer.DragDownFromLiveView`). Three cursor-up keys and an offset of 3 come from three `onScroll(+1)` calls (`TerminalContainer.ScrollUpFromLiveView`).

## Model

| member | source | states |
|---|---|---|
| SshSession.Initial | ShinobiTerm/ShinobiTerm/Services/SSHSession.swift:14-23 | a new session is disconnected with no client, task or queue, and 80 by 24 |
| SshSession.Session.constructor | ShinobiTerm/ShinobiTerm/Services/SSHSession.swift:14-23 | the session starts in the initial state with nothing published |
| SshSession.Session.SetState | ShinobiTerm/ShinobiTerm/Services/SSHSession.swift:14 | assigning the published state changes only the state and appends it to the published history |
| SshSession.Session.StartPtySession | ShinobiTerm/ShinobiTerm/Services/SSHSession.swift:84-106 | the new state is the PTY start of the old: a fresh empty queue and a new task whose PTY uses the stored geometry |
| SshSession.Session.Connect | ShinobiTerm/ShinobiTerm/Services/SSHSession.swift:25-50 | the new state is the connect transition of the old; `.connecting` is published, then the transport's answer |
| SshSession.Session.Disconnect | ShinobiTerm/ShinobiTerm/Services/SSHSession.swift:52-65 | the new state is the disconnect transition of the old; `.disconnected` is published |
| SshSession.Session.Send | ShinobiTerm/ShinobiTerm/Services/SSHSession.swift:67-70 | the new state is the send transition of the old |
| SshSession.Session.SendText | ShinobiTerm/ShinobiTerm/Services/SSHSession.swift:72-74 | sending a text sends its UTF-8 bytes |
| SshSession.Session.Resize | ShinobiTerm/ShinobiTerm/Services/SSHSession.swift:76-82 | the new state is the resize transition of the old; out-of-range sizes trap in the `UInt32` conversion |
| SshSession.Session.SetDataCallback | ShinobiTerm/ShinobiTerm/Services/SSHSession.swift:19 | only whether a callback is set changes |
| SshSession.Session.ReceiveChunk | ShinobiTerm/ShinobiTerm/Services/SSHSession.swift:111-118 | the new state is one reader step of the old |
| SshSession.Session.ReceiveAll | ShinobiTerm/ShinobiTerm/Services/SSHSession.swift:111-118 | the reader loop delivers every chunk in order when live with a callback, and nothing otherwise |
| SshSession.Session.WriterStep | ShinobiTerm/ShinobiTerm/Services/SSHSession.swift:122-126 | the new state is one writer step of the old |
| SshSession.Session.DrainWriter | ShinobiTerm/ShinobiTerm/Services/SSHSession.swift:122-126 | on a live task the writer loop writes everything queued, in order, and empties the queue; otherwise nothing changes |
| SshSession.Session.StreamEnded | ShinobiTerm/ShinobiTerm/Services/SSHSession.swift:132-144 | the new state is the stream-end transition of the old, with the error and `.disconnected` published unless the task was cancelled |
| SshSession.BeginConnectSpec | ShinobiTerm/ShinobiTerm/Services/SSHSession.swift:31 | `.connecting` is set and the attempt recorded before the transport answers |
| SshSession.ConnectFailure | ShinobiTerm/ShinobiTerm/Services/SSHSession.swift:47-49 | a failed transport ends in `.error(description)` and stores no new client, task, queue or PTY |
| SshSession.ConnectFailureAfterDisconnect | ShinobiTerm/ShinobiTerm/Services/SSHSession.swift:47-65 | a failed connect after a disconnect leaves no client |
| SshSession.ConnectSuccess | ShinobiTerm/ShinobiTerm/Services/SSHSession.swift:44-46 | a successful transport stores the client, ends connected with a fresh empty queue and starts a new live task whose PTY uses the stored geometry (the queue is the one `startPTYSession` makes, lines 87-88) |
| SshSession.ConnectPreservesInv | ShinobiTerm/ShinobiTerm/Services/SSHSession.swift:25-50 | connecting keeps the session invariant |
| SshSession.DisconnectSpec | ShinobiTerm/ShinobiTerm/Services/SSHSession.swift:52-65 | from any state disconnect leaves `.disconnected` with no task, queue or client, and cancels the running task |
| SshSession.DisconnectIdempotent | ShinobiTerm/ShinobiTerm/Services/SSHSession.swift:52-65 | disconnecting twice is disconnecting once |
| SshSession.SendSpec | ShinobiTerm/ShinobiTerm/Services/SSHSession.swift:67-70 | send appends at the queue's tail when a queue exists and changes nothing otherwise |
| SshSession.SendTextConcat | ShinobiTerm/ShinobiTerm/Services/SSHSession.swift:72-74 | the bytes of two texts sent one after another are the bytes of their concatenation |
| SshSession.WriterStepKeepsOrder | ShinobiTerm/ShinobiTerm/Services/SSHSession.swift:122-126 | a writer step keeps written-then-queued unchanged and consumes one queued chunk when live |
| SshSession.WriterFifo | ShinobiTerm/ShinobiTerm/Services/SSHSession.swift:122-126 | on a live task the writer writes each queued chunk exactly once, in enqueue order |
| SshSession.ResizeSpec | ShinobiTerm/ShinobiTerm/Services/SSHSession.swift:76-82 | resize changes only the stored geometry: state, task and PTYs are untouched |
| SshSession.ResizeThenConnect | ShinobiTerm/ShinobiTerm/Services/SSHSession.swift:90-102 | the next PTY opens with the resized geometry, 0 by 0 pixels and `xterm-256color` |
| SshSession.FirstPtyIsDefault | ShinobiTerm/ShinobiTerm/Services/SSHSession.swift:90-102 | a fresh session's first PTY is 80 by 24, the defaults of lines 22-23 |
| SshSession.InboundSpec | ShinobiTerm/ShinobiTerm/Services/SSHSession.swift:111-118 | an inbound chunk is delivered when a callback is set and dropped otherwise; nothing else changes |
| SshSession.DroppedStaysDropped | ShinobiTerm/ShinobiTerm/Services/SSHSession.swift:116 | setting the callback later does not bring back a dropped chunk |
| SshSession.StreamEndUncancelled | ShinobiTerm/ShinobiTerm/Services/SSHSession.swift:132-144 | an uncancelled stream end always leaves `.disconnected`, publishing the error first when there is one |
| SshSession.StreamEndCancelled | ShinobiTerm/ShinobiTerm/Services/SSHSession.swift:132-144 | a cancelled stream end changes no state and publishes nothing |
| SshSession.StreamEndPreservesInv | ShinobiTerm/ShinobiTerm/Services/SSHSession.swift:132-144 | a stream end keeps the session invariant |
| SshSession.EndedTaskIsSilent | ShinobiTerm/ShinobiTerm/Services/SSHSession.swift:111-144 | once its stream has ended the current task neither delivers nor writes |
| SshConnectionManager.ConnectionManager.constructor | ShinobiTerm/ShinobiTerm/Services/SSHConnectionManager.swift:5 | the registry starts empty |
| SshConnectionManager.ConnectionManager.CreateSession | ShinobiTerm/ShinobiTerm/Services/SSHConnectionManager.swift:7-14 | a registered id returns its session and changes nothing; an absent id gets exactly one new disconnected session; every other key keeps its session |
| SshConnectionManager.ConnectionManager.RemoveSession | ShinobiTerm/ShinobiTerm/Services/SSHConnectionManager.swift:16-21 | only that id's session is disconnected and removed; the other entries are untouched and an absent id is a no-op |
| SshConnectionManager.ConnectionManager.DisconnectAll | ShinobiTerm/ShinobiTerm/Services/SSHConnectionManager.swift:23-28 | every registered session is disconnected and the registry is left empty and valid for further use |
| SshConnectionManager.DisconnectEach | ShinobiTerm/ShinobiTerm/Services/SSHConnectionManager.swift:24-26 | the loop disconnects every session of the map exactly once |
| SshConnectionManager.DisconnectTracked | ShinobiTerm/ShinobiTerm/Services/SSHConnectionManager.swift:25 | one iteration disconnects that session only, leaving the others as they were |
| SshConnectionManager.CreateTwice | ShinobiTerm/ShinobiTerm/Services/SSHConnectionManager.swift:7-14 | two calls with the same id return the same session, registered under that id |
| TmuxService.DigitRun | ShinobiTerm/ShinobiTerm/Services/TmuxService.swift:22 | the `\d+` run at the front is all digits and maximal |
| TmuxService.WindowMatch | ShinobiTerm/ShinobiTerm/Services/TmuxService.swift:22 | a `<digits> window` match starts with a digit |
| TmuxService.LazyClose | ShinobiTerm/ShinobiTerm/Services/TmuxService.swift:30 | the lazy `(.+?)\)` stops at a `)` at least one character on |
| TmuxService.CreatedMatch | ShinobiTerm/ShinobiTerm/Services/TmuxService.swift:30 | a `(created …)` match starts with `(created ` |
| TmuxService.ParseLine | ShinobiTerm/ShinobiTerm/Services/TmuxService.swift:12-44 | a parsed session's id is its name and the name has no `:` |
| TmuxService.LineEntry | ShinobiTerm/ShinobiTerm/Services/TmuxService.swift:58-62 | a line contributes at most one session, the one its trimmed text parses to |
| TmuxService.ListSessions | ShinobiTerm/ShinobiTerm/Services/TmuxService.swift:49-66 | no client or a thrown error gives no sessions |
| TmuxService.TrimKeepsAbsence | ShinobiTerm/ShinobiTerm/Services/TmuxService.swift:16 | trimming cannot bring in a character the text lacks |
| TmuxService.ParseLineSpec | ShinobiTerm/ShinobiTerm/Services/TmuxService.swift:13-39 | a line parses exactly when it splits on `:` into two pieces and the trimmed rest contains `window`; then the name is the trimmed first piece and attached means the rest contains `(attached)` |
| TmuxService.WindowMatchShape | ShinobiTerm/ShinobiTerm/Services/TmuxService.swift:22 | the leftmost match is its digit run followed by ` window` |
| TmuxService.FirstWordOfMatch | ShinobiTerm/ShinobiTerm/Services/TmuxService.swift:23 | the first space-separated word of a match is its digit run |
| TmuxService.WindowCountSpec | ShinobiTerm/ShinobiTerm/Services/TmuxService.swift:21-25 | the window count is the number of the leftmost match, or 1 without a match or when the number exceeds `Int` |
| TmuxService.LazyCloseSpec | ShinobiTerm/ShinobiTerm/Services/TmuxService.swift:30 | the closing `)` is the first one after the first character, with no line terminator before it |
| TmuxService.CreatedMatchShape | ShinobiTerm/ShinobiTerm/Services/TmuxService.swift:30 | a match is `(created `, a nonempty single-line text with no `)` after its first character, and `)` |
| TmuxService.CreatedAtInner | ShinobiTerm/ShinobiTerm/Services/TmuxService.swift:29-35 | the creation text is the text inside the group when that text holds no `(created ` and does not start with `)` |
| TmuxService.CreatedAtAbsent | ShinobiTerm/ShinobiTerm/Services/TmuxService.swift:29 | without a `(created …)` group the creation text is empty |
| TmuxService.ParseLinesConcat | ShinobiTerm/ShinobiTerm/Services/TmuxService.swift:58-62 | listing distributes over concatenated output lines, so the output order is kept and nothing is sorted |
| TmuxService.ParseLinesSources | ShinobiTerm/ShinobiTerm/Services/TmuxService.swift:58-62 | there are no more sessions than lines and each comes from one parsed line |
| TmuxService.BlankLineSkipped | ShinobiTerm/ShinobiTerm/Services/TmuxService.swift:60 | a blank line lists nothing |
| TmuxService.NoColonNoSession | ShinobiTerm/ShinobiTerm/Services/TmuxService.swift:13-14 | a line without `:` does not parse |
| TmuxAttach.AttachScreen.constructor | ShinobiTerm/ShinobiTerm/Views/TmuxAttachView.swift:14-32 | the screen starts on the given profile, loading, with no sessions, error, command or terminal |
| TmuxAttach.AttachScreen.SwitchProfile | ShinobiTerm/ShinobiTerm/Views/TmuxAttachView.swift:263-272 | the new screen is the switch transition of the old |
| TmuxAttach.AttachScreen.ConnectSession | ShinobiTerm/ShinobiTerm/Views/TmuxAttachView.swift:340-367 | the error and the session become what the connect plan for the profile and keychain gives; `connect` is called exactly when the plan dials |
| TmuxAttach.AttachScreen.ConnectAndListSessions | ShinobiTerm/ShinobiTerm/Views/TmuxAttachView.swift:274-295 | the screen and the profile's session become the connect-and-list transition of the old ones; with no current profile the manager is untouched. Every other registered session keeps its entry and its state. |
| TmuxAttach.AttachScreen.CreateConnectList | ShinobiTerm/ShinobiTerm/Views/TmuxAttachView.swift:278-294 | the profile's session is created or reused, connected unless connected, and the listing follows; exactly that key is added to the manager. Every other registered session keeps its entry and its state. |
| TmuxAttach.AttachScreen.ConnectThenList | ShinobiTerm/ShinobiTerm/Views/TmuxAttachView.swift:282-294 | the session is connected unless connected; an error is shown, otherwise the listing replaces the sessions |
| TmuxAttach.AttachScreen.ListRegistered | ShinobiTerm/ShinobiTerm/Views/TmuxAttachView.swift:282-294 | the registered session is connected unless connected and the listing follows; no other registered session changes and the registry stays valid |
| TmuxAttach.AttachScreen.RefreshSessions | ShinobiTerm/ShinobiTerm/Views/TmuxAttachView.swift:297-305 | the new screen is the refresh transition of the old, given the manager's session for the profile |
| TmuxAttach.AttachScreen.AttachToSession | ShinobiTerm/ShinobiTerm/Views/TmuxAttachView.swift:307-338 | the screen and the profile's session become the attach transition of the old ones. Every other registered session keeps its entry and its state. |
| TmuxAttach.AttachScreen.RecordAndConnect | ShinobiTerm/ShinobiTerm/Views/TmuxAttachView.swift:313-337 | the name is recorded and the command set before the connecting part runs. Every other registered session keeps its entry and its state. |
| TmuxAttach.AttachScreen.ConnectOrShow | ShinobiTerm/ShinobiTerm/Views/TmuxAttachView.swift:319-336 | a connected session is shown at once; otherwise it is connected and shown only when connected |
| TmuxAttach.AttachCommandSpec | ShinobiTerm/ShinobiTerm/Views/TmuxAttachView.swift:317 | the command is `tmux a -t `, the name, ` 2>/dev/null \|\| tmux new -s `, the name and a newline, the name inserted verbatim |
| TmuxAttach.AttachCommandInjective | ShinobiTerm/ShinobiTerm/Views/TmuxAttachView.swift:317 | different names give different commands |
| TmuxAttach.ManualNameSpec | ShinobiTerm/ShinobiTerm/Views/TmuxAttachView.swift:238-241 | the typed name if nonempty, else the profile's last session, else "0" |
| TmuxAttach.ConnectPlanSpec | ShinobiTerm/ShinobiTerm/Views/TmuxAttachView.swift:340-367 | key auth without a key id or with a key that does not load is refused with its message; anything else dials the profile's host, port and user with the stored password (or an empty one) or the loaded key |
| TmuxAttach.RefusalNeverConnects | ShinobiTerm/ShinobiTerm/Views/TmuxAttachView.swift:351-358 | a refused key sets its message and leaves the session untouched |
| TmuxAttach.SwitchProfileSpec | ShinobiTerm/ShinobiTerm/Views/TmuxAttachView.swift:263-268 | switching to the selected profile changes nothing; any other clears the sessions and the error and starts loading |
| TmuxAttach.ConnectAndListSpec | ShinobiTerm/ShinobiTerm/Views/TmuxAttachView.swift:282-294 | only a session that is not connected is connected; an error is shown and listing skipped; otherwise the listing replaces the sessions; loading always ends |
| TmuxAttach.ConnectFailureShown | ShinobiTerm/ShinobiTerm/Views/TmuxAttachView.swift:285-290 | a transport failure is the error shown and nothing is listed |
| TmuxAttach.StaleErrorHidesRefusal | ShinobiTerm/ShinobiTerm/Views/TmuxAttachView.swift:285-290 | a refusal over a session still in an earlier error shows that earlier error and lists nothing, whatever the key check of lines 351-358 decided |
| TmuxAttach.RefreshSpec | ShinobiTerm/ShinobiTerm/Views/TmuxAttachView.swift:297-305 | no current profile changes nothing; otherwise loading ends and the sessions are relisted when the manager has a session |
| TmuxAttach.AttachRecordsName | ShinobiTerm/ShinobiTerm/Views/TmuxAttachView.swift:314-317 | the name is recorded as the profile's last session and the command is set, whatever the connection does |
| TmuxAttach.AttachConnectKeeps | ShinobiTerm/ShinobiTerm/Views/TmuxAttachView.swift:319-336 | connecting leaves the profiles and the command alone and ends connecting |
| TmuxAttach.AttachConnected | ShinobiTerm/ShinobiTerm/Views/TmuxAttachView.swift:319-322 | a connected session is shown without a connect, and connecting ends |
| TmuxAttach.AttachWithoutSession | ShinobiTerm/ShinobiTerm/Views/TmuxAttachView.swift:309-312 | without a session in the manager connecting stays on and nothing is recorded |
| TmuxAttach.AttachShowsOnlyConnected | ShinobiTerm/ShinobiTerm/Views/TmuxAttachView.swift:319-336 | the terminal is newly shown exactly over a connected session; a refusal or failure shows its reason |
| TerminalContainer.Repeat | ShinobiTerm/ShinobiTerm/Views/TerminalContainerView.swift:312-314 | `n` copies of one key, nothing else |
| TerminalContainer.TerminalScreen.constructor | ShinobiTerm/ShinobiTerm/Views/TerminalContainerView.swift:15-45 | the screen starts out of copy mode at the live view with no latch, no input and nothing sent |
| TerminalContainer.TerminalScreen.Launch | ShinobiTerm/ShinobiTerm/Views/TerminalContainerView.swift:122-130 | the new screen is the launch transition of the old |
| TerminalContainer.TerminalScreen.EnterCopyMode | ShinobiTerm/ShinobiTerm/Views/TerminalContainerView.swift:261-266 | the new screen is the enter-copy-mode transition of the old |
| TerminalContainer.TerminalScreen.ExitCopyMode | ShinobiTerm/ShinobiTerm/Views/TerminalContainerView.swift:268-272 | the new screen is the exit-copy-mode transition of the old |
| TerminalContainer.TerminalScreen.ReturnToLiveView | ShinobiTerm/ShinobiTerm/Views/TerminalContainerView.swift:274-277 | the new screen is the return-to-live-view transition of the old |
| TerminalContainer.TerminalScreen.HandleScrollGesture | ShinobiTerm/ShinobiTerm/Views/TerminalContainerView.swift:306-316 | the loop sends one arrow per line and the new screen is the scroll transition of the old |
| TerminalContainer.TerminalScreen.HandleScrollEnded | ShinobiTerm/ShinobiTerm/Views/TerminalContainerView.swift:318-322 | the new screen is the scroll-ended transition of the old |
| TerminalContainer.TerminalScreen.SendInputText | ShinobiTerm/ShinobiTerm/Views/TerminalContainerView.swift:326-347 | the new screen is the send-input transition of the old |
| TerminalContainer.TerminalScreen.ToggleReadMode | ShinobiTerm/ShinobiTerm/Views/TerminalContainerView.swift:351-359 | the new screen is the read-mode toggle of the old |
| TerminalContainer.TerminalScreen.FetchClaudeUsage | ShinobiTerm/ShinobiTerm/Views/TerminalContainerView.swift:372-376 | a fetch starts unless one is running, clearing the error; only the overlay changes |
| TerminalContainer.TerminalScreen.UsageArrived | ShinobiTerm/ShinobiTerm/Views/TerminalContainerView.swift:376-381 | the result's usage and error are shown and loading ends; only the overlay changes |
| TerminalContainer.TerminalScreen.ToggleClaudeUsage | ShinobiTerm/ShinobiTerm/Views/TerminalContainerView.swift:363-370 | the overlay flips and a fetch starts when it becomes visible; only the overlay changes |
| TerminalContainer.TerminalScreen.HandleExtraKey | ShinobiTerm/ShinobiTerm/Views/TerminalContainerView.swift:386-411 | the new screen is the extra-key transition of the old |
| TerminalContainer.CopyModeBytes | ShinobiTerm/ShinobiTerm/Views/TerminalContainerView.swift:7-11 | `[` and `q` are one UTF-8 byte each and the arrows are the bar's arrow sequences, as lines 264 and 271 send them |
| TerminalContainer.NoTmuxNoCopyMode | ShinobiTerm/ShinobiTerm/Views/TerminalContainerView.swift:262-307 | outside tmux entering, leaving and scrolling send nothing and change nothing |
| TerminalContainer.CopyModeToggles | ShinobiTerm/ShinobiTerm/Views/TerminalContainerView.swift:261-272 | entering sends the prefix and `[` once and only out of copy mode; leaving sends `q` once and only in copy mode |
| TerminalContainer.ScrollGestureSpec | ShinobiTerm/ShinobiTerm/Views/TerminalContainerView.swift:306-316 | in tmux a scroll ends in copy mode, entering first if needed, sends \|n\| arrows (up for positive n) and moves the offset by n but not below 0; nothing else changes |
| TerminalContainer.ScrollEndedSpec | ShinobiTerm/ShinobiTerm/Views/TerminalContainerView.swift:318-322 | the end of a scroll leaves copy mode exactly when in it at offset 0 or below, and otherwise changes nothing |
| TerminalContainer.ReturnToLiveViewSpec | ShinobiTerm/ShinobiTerm/Views/TerminalContainerView.swift:274-277 | the offset becomes 0 and `q` is sent exactly when in tmux copy mode; nothing else changes |
| TerminalContainer.SendInputTextSpec | ShinobiTerm/ShinobiTerm/Views/TerminalContainerView.swift:326-347 | blank input changes nothing; other input clears the field, leaves copy mode and sends the trimmed text and one carriage return, after a `q` when in copy mode |
| TerminalContainer.ToggleReadModeSpec | ShinobiTerm/ShinobiTerm/Views/TerminalContainerView.swift:351-359 | read mode on zeroes the offset and keeps copy mode; read mode off returns to the live view |
| TerminalContainer.CtrlBytes | ShinobiTerm/ShinobiTerm/Views/TerminalContainerView.swift:399-406 | Ctrl with Esc, Tab, `~` and `\|` sends 0x05, 0x14, 0x1E and 0x1C; the arrows have no control byte |
| TerminalContainer.CtrlByteIsC0 | ShinobiTerm/ShinobiTerm/Views/TerminalContainerView.swift:401-403 | a control byte is below 32 |
| TerminalContainer.ExtraKeySends | ShinobiTerm/ShinobiTerm/Views/TerminalContainerView.swift:399-409 | a non-modifier key sends one chunk, the control byte under Ctrl when there is one, its sequence otherwise, and releases Ctrl; nothing else changes |
| TerminalContainer.ModifiersLatch | ShinobiTerm/ShinobiTerm/Views/TerminalContainerView.swift:388-391 | Ctrl and Alt only flip their latch |
| TerminalContainer.AltIgnored | ShinobiTerm/ShinobiTerm/Views/TerminalContainerView.swift:386-411 | the Alt latch never changes what is sent |
| TerminalContainer.UsageFetchSpec | ShinobiTerm/ShinobiTerm/Views/TerminalContainerView.swift:363-382 | showing the overlay starts a fetch unless one runs, hiding starts none; an arrived result shows exactly one of usage and error |
| TerminalContainer.CopyOpsKeepInv | ShinobiTerm/ShinobiTerm/Views/TerminalContainerView.swift:261-322 | the copy-mode operations keep the offset non-negative and copy mode within tmux |
| TerminalContainer.SendInputKeepsInv | ShinobiTerm/ShinobiTerm/Views/TerminalContainerView.swift:326-347 | sending input keeps that invariant |
| TerminalContainer.LaunchSpec | ShinobiTerm/ShinobiTerm/Views/TerminalContainerView.swift:122-130 | on appearing the locale export is sent, then the initial command if any, and the input is focused; nothing else changes |
| TerminalContainer.ExtraKeyKeepsInv | ShinobiTerm/ShinobiTerm/Views/TerminalContainerView.swift:386-411 | every key of the bar keeps that invariant |
| TerminalContainer.DeliverScroll | ShinobiTerm/ShinobiTerm/Views/TerminalContainerView.swift:306-316 | one more delivered scroll callback is one more scroll gesture |
| TerminalContainer.FirstScrollDown | ShinobiTerm/ShinobiTerm/Views/TerminalContainerView.swift:306-316 | from the live view one line down enters copy mode and sends one cursor-down key, the offset staying 0 |
| TerminalContainer.NextScrollDown | ShinobiTerm/ShinobiTerm/Views/TerminalContainerView.swift:306-316 | in copy mode at the live view one line down only sends one cursor-down key |
| TerminalContainer.ThreeScrollsDown | ShinobiTerm/ShinobiTerm/Views/TerminalContainerView.swift:306-316 | three one-line scrolls down enter copy mode once and send three cursor-down keys |
| TerminalContainer.DragDownFromLiveView | ShinobiTerm/ShinobiTerm/Views/TerminalContainerView.swift:306-322 | three 20-point drags down from the live view send the copy-mode entry and three cursor-down keys at offset 0, and lifting the finger leaves copy mode |
| TerminalContainer.ScrollUpFromLiveView | ShinobiTerm/ShinobiTerm/Views/TerminalContainerView.swift:306-316 | three one-line scrolls up send the entry and three cursor-up keys and leave the offset at 3 |
| ScrollOverlay.Trunc | ShinobiTerm/ShinobiTerm/Views/ScrollOverlayView.swift:110 | `Int(CGFloat)` truncates toward zero: the result lies within one of the value on the side of zero |
| ScrollOverlay.Coordinator.constructor | ShinobiTerm/ShinobiTerm/Views/ScrollOverlayView.swift:73-90 | the coordinator starts with no accumulated movement and no callbacks made |
| ScrollOverlay.Coordinator.SetZoomed | ShinobiTerm/ShinobiTerm/Views/ScrollOverlayView.swift:51-53 | only the zoomed flag changes |
| ScrollOverlay.Coordinator.HandleSinglePan | ShinobiTerm/ShinobiTerm/Views/ScrollOverlayView.swift:92-122 | the new state is the one-finger pan step of the old state |
| ScrollOverlay.Coordinator.HandleTwoPan | ShinobiTerm/ShinobiTerm/Views/ScrollOverlayView.swift:124-133 | the new state is the two-finger pan step of the old state |
| ScrollOverlay.Coordinator.HandlePinch | ShinobiTerm/ShinobiTerm/Views/ScrollOverlayView.swift:135-143 | a change passes the recognizer's scale on and resets it to 1 |
| ScrollOverlay.Coordinator.PinchMoved | ShinobiTerm/ShinobiTerm/Views/ScrollOverlayView.swift:138-139 | finger movement multiplies the recognizer's scale and nothing else |
| ScrollOverlay.Coordinator.HandleDoubleTap | ShinobiTerm/ShinobiTerm/Views/ScrollOverlayView.swift:145-147 | a double tap is passed on and nothing else changes |
| ScrollOverlay.RemainderBelowLine | ShinobiTerm/ShinobiTerm/Views/ScrollOverlayView.swift:108-114 | after an unzoomed change less than one line height is left over, from any state |
| ScrollOverlay.ScrollDirection | ShinobiTerm/ShinobiTerm/Views/ScrollOverlayView.swift:108-115 | a change scrolls exactly when at least a line has built up, once, by a nonzero count of the opposite sign; otherwise it only accumulates |
| ScrollOverlay.DragKeepsLog | ShinobiTerm/ShinobiTerm/Views/ScrollOverlayView.swift:106-115 | a drag keeps the zoom flag and only appends callbacks |
| ScrollOverlay.DragConservation | ShinobiTerm/ShinobiTerm/Views/ScrollOverlayView.swift:109-113 | over a whole drag, the leftover less a line height per line scrolled equals the start plus the total translation |
| ScrollOverlay.DragExample | ShinobiTerm/ShinobiTerm/Views/ScrollOverlayView.swift:106-115 | three 20-point moves each call `onScroll(-1)`, one cursor-down key each, and leave 12 points |
| ScrollOverlay.EndResets | ShinobiTerm/ShinobiTerm/Views/ScrollOverlayView.swift:116-118 | an ended or cancelled pan clears the accumulator and reports the end once |
| ScrollOverlay.ZoomedPanOnlyMoves | ShinobiTerm/ShinobiTerm/Views/ScrollOverlayView.swift:93-104 | while zoomed a one-finger pan only passes on its translation and leaves the accumulator alone |
| ScrollOverlay.ForwardedGestures | ShinobiTerm/ShinobiTerm/Views/ScrollOverlayView.swift:124-143 | two-finger pans and pinches pass on exactly a change's translation or scale |
| ExtraKeys.Csi | ShinobiTerm/ShinobiTerm/Views/ExtraKeysView.swift:62-65 | an arrow's bytes are ESC, `[` and the final character, three bytes |
| ExtraKeys.ArrowsAreCursorControls | ShinobiTerm/ShinobiTerm/Views/ExtraKeysView.swift:62-65 | the four arrows send CSI A, B, C and D (up, down, right, left) |
| ExtraKeys.SingleByteKeys | ShinobiTerm/ShinobiTerm/Views/ExtraKeysView.swift:58-61 | Esc sends 0x1B, Tab 0x09, and `~` and `\|` their one UTF-8 byte |
| ExtraKeys.EmptyIffModifier | ShinobiTerm/ShinobiTerm/Views/ExtraKeysView.swift:56-67 | a key sends no bytes exactly when it is Ctrl or Alt |
| ExtraKeys.LabelRoundTrip | ShinobiTerm/ShinobiTerm/Views/ExtraKeysView.swift:32-45 | every key is recovered from its label |
| ExtraKeys.LabelsDistinct | ShinobiTerm/ShinobiTerm/Views/ExtraKeysView.swift:32-45 | two keys with the same label are the same key |
| ExtraKeys.AllKeysOnce | ShinobiTerm/ShinobiTerm/Views/ExtraKeysView.swift:70-73 | the bar lists ten keys, every key, none twice |
| ExtraKeys.BarLabelsDistinct | ShinobiTerm/ShinobiTerm/Views/ExtraKeysView.swift:8 | the labels the bar uses as identities are pairwise distinct |
| ExtraKeys.FontSizeSpec | ShinobiTerm/ShinobiTerm/Views/ExtraKeysView.swift:47-53 | size 15 exactly for `~` and `\|`, 14 exactly for the arrows, 13 for the rest |
| ConnectionList.QuickParse | ShinobiTerm/ShinobiTerm/Views/ConnectionListView.swift:280-284 | the user is everything before the '@'; the host is the first nonempty ':'-free piece after it; the port is the integer after the following ':', or 22 when there is none or it does not parse |
| ConnectionList.ParseQuickConnectNone | ShinobiTerm/ShinobiTerm/Views/ConnectionListView.swift:279 | quick connect does nothing exactly when the text has no '@' |
| ConnectionList.ParseQuickConnectSome | ShinobiTerm/ShinobiTerm/Views/ConnectionListView.swift:279-284 | a text with an '@' splits at its first '@' into an '@'-free user and a rest, and parses as that user and rest |
| ConnectionList.ParseQuickConnectOf | ShinobiTerm/ShinobiTerm/Views/ConnectionListView.swift:279-284 | conversely, an '@'-free user, an '@' and a rest with a host piece parse to that user and rest |
| ConnectionList.QuickConnectTrapsSpec | ShinobiTerm/ShinobiTerm/Views/ConnectionListView.swift:282-283 | the trap predicate holds exactly when the text has an '@' and splitting what follows its first '@' on ':', with empty pieces omitted, gives no `parts[0]` |
| ConnectionList.NoHostTraps | ShinobiTerm/ShinobiTerm/Views/ConnectionListView.swift:282-283 | after an '@'-free user, a rest of nothing but ':' (as in "u@" or "u@::") splits into no pieces, so `parts[0]` traps |
| ConnectionList.QuickConnectHostPort | ShinobiTerm/ShinobiTerm/Views/ConnectionListView.swift:280-284 | "user@host:port" parses to that user, that host and the parsed port, 22 when the port text is not a number |
| ConnectionList.QuickConnectLeadingColon | ShinobiTerm/ShinobiTerm/Views/ConnectionListView.swift:282 | a ':' straight after the '@' is skipped: "u@:h" dials host h on port 22 |
| ConnectionList.MostRecent | ShinobiTerm/ShinobiTerm/Views/ConnectionListView.swift:6 | `profiles.first` of the list sorted by `lastConnectedAt` in reverse: a stored profile that no other was connected later than, with a stamp counting as later than none |
| ConnectionList.QuickAttachSpec | ShinobiTerm/ShinobiTerm/Views/ConnectionListView.swift:89-95 | with no profile the selection is unchanged; otherwise a stored profile whose `lastConnectedAt` is at least every other profile's is selected |
| ConnectionList.QuickAttachPrefersLater | ShinobiTerm/ShinobiTerm/Views/ConnectionListView.swift:89-95 | of a profile stored first and one stored second but connected later, the later one is selected |
| ConnectionList.QuickAttachNeverConnected | ShinobiTerm/ShinobiTerm/Views/ConnectionListView.swift:89-95 | a never-connected profile is selected only when no profile was ever connected, with nil dates placed last |
| ConnectionList.ConnectToProfileSpec | ShinobiTerm/ShinobiTerm/Views/ConnectionListView.swift:258-274 | `connectToProfile` dials with the stored password, or an empty one, whatever the auth method; an opened connection stamps the profile and presents it, a failed one changes nothing |
| ConnectionList.QuickConnectSpec | ShinobiTerm/ShinobiTerm/Views/ConnectionListView.swift:286-305 | a failed quick connection leaves the screen as it was; an opened one appends and presents a new password profile named after the host and stamped now |
| ConnectionList.DeleteSpec | ShinobiTerm/ShinobiTerm/Views/ConnectionListView.swift:308-313 | deleting drops every stored profile with that id, keeps all the others, clears that id's credentials and leaves the presented terminal alone |
| ConnectionList.QuickCoverMisses | ShinobiTerm/ShinobiTerm/Views/ConnectionListView.swift:45-58 | as written, the session registered under "quick-"+host is not found by the cover, which looks up the new profile's UUID |
| ConnectionList.CorrectedCoverFinds | ShinobiTerm/ShinobiTerm/Views/ConnectionListView.swift:45-58 | with the session registered under the new profile's id, the cover finds the session that just connected |
| ConnectionList.ListScreen.constructor | ShinobiTerm/ShinobiTerm/Views/ConnectionListView.swift:6-11 | the screen starts with the stored profiles, nothing selected or presented and an empty quick-connect text |
| ConnectionList.ListScreen.TypeQuickConnect | ShinobiTerm/ShinobiTerm/Views/ConnectionListView.swift:11 | the text field's binding replaces the quick-connect text and nothing else |
| ConnectionList.ListScreen.QuickAttach | ShinobiTerm/ShinobiTerm/Views/ConnectionListView.swift:89-95 | the selected tmux profile becomes the quick-attach selection, the most recently connected profile |
| ConnectionList.ListScreen.ConnectToProfile | ShinobiTerm/ShinobiTerm/Views/ConnectionListView.swift:258-274 | the profile's session is registered under its id and connected with the keychain password; the screen becomes the profile-connect transition, and once connected the cover finds that session. Every other registered session keeps its entry and its state. |
| ConnectionList.ListScreen.DialAndPresent | ShinobiTerm/ShinobiTerm/Views/ConnectionListView.swift:260-272 | creates or reuses the session under the key, connects it, and presents the profile only when the session is connected. Every other registered session keeps its entry and its state. |
| ConnectionList.ListScreen.ConnectRegistered | ShinobiTerm/ShinobiTerm/Views/ConnectionListView.swift:264-272 | the registered session is connected and the profile presented only once it is connected; no other registered session changes and the registry stays valid |
| ConnectionList.ListScreen.ConnectAndPresent | ShinobiTerm/ShinobiTerm/Views/ConnectionListView.swift:264-272 | the session takes the connect transition; the screen changes only when the session ends up connected |
| ConnectionList.ListScreen.Present | ShinobiTerm/ShinobiTerm/Views/ConnectionListView.swift:303-304 | the profiles become the given ones and the given profile is presented |
| ConnectionList.ListScreen.QuickConnect | ShinobiTerm/ShinobiTerm/Views/ConnectionListView.swift:276-306 | a text without '@' changes nothing; otherwise the session is registered under the new profile's id, dialled with the parsed target and an empty password, and once connected the new profile is appended, presented and found by the cover. Every other registered session keeps its entry and its state. |
| ConnectionList.ListScreen.QuickConnectTo | ShinobiTerm/ShinobiTerm/Views/ConnectionListView.swift:286-305 | the quick-connect task for a parsed target, ending in the quick-connect transition. Every other registered session keeps its entry and its state. |
| ConnectionList.ListScreen.DeleteProfile | ShinobiTerm/ShinobiTerm/Views/ConnectionListView.swift:308-313 | the credentials are cleared, the manager's session is disconnected and removed, and the profile leaves the store |
| ConnectionForm.BlankFields | ShinobiTerm/ShinobiTerm/Views/ConnectionFormView.swift:11-18 | a new form is empty except for port "22" and password authentication, with no key chosen |
| ConnectionForm.AfterAppear | ShinobiTerm/ShinobiTerm/Views/ConnectionFormView.swift:127-139 | appearing sets the key list and leaves the profile, the store and the keychain log alone; fields change only when a profile is being edited |
| ConnectionForm.SavedPort | ShinobiTerm/ShinobiTerm/Views/ConnectionFormView.swift:311 | the saved port is always a 64-bit Swift `Int` |
| ConnectionForm.SavedPortRoundTrip | ShinobiTerm/ShinobiTerm/Views/ConnectionFormView.swift:132 | a port shown as `String(profile.port)` saves back as the same port |
| ConnectionForm.Edited | ShinobiTerm/ShinobiTerm/Views/ConnectionFormView.swift:313-319 | an edit keeps the profile's id, last tmux session and last connection time, and stores a key id only under key authentication |
| ConnectionForm.Created | ShinobiTerm/ShinobiTerm/Views/ConnectionFormView.swift:321-329 | a new profile gets the new id, no history, and a key id only under key authentication |
| ConnectionForm.TestKey | ShinobiTerm/ShinobiTerm/Views/ConnectionFormView.swift:359-362 | the test has a key exactly when one is chosen and loads, and then it is a 32-byte raw key |
| ConnectionForm.LoadThenSave | ShinobiTerm/ShinobiTerm/Views/ConnectionFormView.swift:127-139 | opening a stored profile and saving it unchanged gives the same profile back, except that a key id on a password profile is dropped; the keychain password, or "", is written back under password authentication only; the form is dismissed, through `save` at lines 310-336 |
| ConnectionForm.EditLoaded | ShinobiTerm/ShinobiTerm/Views/ConnectionFormView.swift:130-135 | the fields loaded from a profile, saved over it, give the profile back less an unused key id, through the edit path at lines 313-319 |
| ConnectionForm.SaveNew | ShinobiTerm/ShinobiTerm/Views/ConnectionFormView.swift:321-332 | saving a new form keeps the stored profiles in place and appends one new profile with the fields, found under the new id, and saves its credentials |
| ConnectionForm.SaveEdit | ShinobiTerm/ShinobiTerm/Views/ConnectionFormView.swift:313-320 | saving an edit changes only the profiles with the edited id; their name, host, port, user and method become the fields' while their id and history stay |
| ConnectionForm.SaveCredentialsSpec | ShinobiTerm/ShinobiTerm/Views/ConnectionFormView.swift:338-342 | key authentication writes no password; password authentication writes exactly the typed password under the id |
| ConnectionForm.SavedKeyIdSpec | ShinobiTerm/ShinobiTerm/Views/ConnectionFormView.swift:319-329 | both save paths store the chosen key id under key authentication and none under password authentication |
| ConnectionForm.SaveEnabledSavesFilled | ShinobiTerm/ShinobiTerm/Views/ConnectionFormView.swift:62 | a form the Save button accepts (this guard, repeated at line 124) saves a profile with a nonempty name, host and user |
| ConnectionForm.TestResultFollowsTransport | ShinobiTerm/ShinobiTerm/Views/ConnectionFormView.swift:372-382 | the test shows success when the transport opened a client and its error text when it failed; the fallback "Connection failed" never appears |
| ConnectionForm.TestLeavesNothingOpen | ShinobiTerm/ShinobiTerm/Views/ConnectionFormView.swift:349-376 | the throwaway session ends with no client and no running task, disconnected after a success and in the error state after a failure, after exactly one attempt |
| ConnectionForm.TestEndpointSpec | ShinobiTerm/ShinobiTerm/Views/ConnectionFormView.swift:350-370 | the test dials the fields' host, port and user, with the typed password under password authentication, and otherwise with the loaded key or none |
| ConnectionForm.FormScreen.constructor | ShinobiTerm/ShinobiTerm/Views/ConnectionFormView.swift:9-21 | the form starts blank for the given profile over the stored profiles, not testing, with no result |
| ConnectionForm.FormScreen.Type | ShinobiTerm/ShinobiTerm/Views/ConnectionFormView.swift:11-18 | the field bindings become the typed fields |
| ConnectionForm.FormScreen.Appear | ShinobiTerm/ShinobiTerm/Views/ConnectionFormView.swift:127-139 | the key list is the one given and the fields are the appear transition's |
| ConnectionForm.FormScreen.Save | ShinobiTerm/ShinobiTerm/Views/ConnectionFormView.swift:310-336 | the store and the keychain log become the save transition's, and the form is dismissed |
| ConnectionForm.FormScreen.SaveCredentials | ShinobiTerm/ShinobiTerm/Views/ConnectionFormView.swift:338-342 | the keychain log grows by the password only under password authentication |
| ConnectionForm.FormScreen.LoadTestKey | ShinobiTerm/ShinobiTerm/Views/ConnectionFormView.swift:359-362 | returns the key the test would use |
| ConnectionForm.FormScreen.TestConnection | ShinobiTerm/ShinobiTerm/Views/ConnectionFormView.swift:344-384 | a fresh session is dialled with the fields' endpoint; the spinner is off, the result is the one the state gives, and the session is left as the test session function says |
| Models.NewProfile | ShinobiTerm/ShinobiTerm/Models/ConnectionProfile.swift:21-37 | a new profile holds the given fields, with no tmux session, no key and no connection time |
| Models.Find | ShinobiTerm/ShinobiTerm/Views/TmuxAttachView.swift:24-26 | the found profile is stored and has the id; nothing is found exactly when no stored profile has it |
| Models.Update | ShinobiTerm/ShinobiTerm/Views/ConnectionFormView.swift:313-319 | the length is kept; every profile with the id is changed and every other one is kept |
| Models.Remove | ShinobiTerm/ShinobiTerm/Views/ConnectionListView.swift:312 | every profile left is stored and has another id; every stored profile with another id is left |
| Models.FindUpdate | ShinobiTerm/ShinobiTerm/Views/ConnectionFormView.swift:313-319 | after an update that keeps ids, the profile found under the id is the updated one found before |
| Models.FindAppend | ShinobiTerm/ShinobiTerm/Views/ConnectionFormView.swift:330 | appending a profile with a new id makes it the one found under that id |
| SshKeyService.BigEndian32 | ShinobiTerm/ShinobiTerm/Services/SSHKeyService.swift:148-153 | a length prefix is four bytes |
| SshKeyService.DecodeBigEndian32 | ShinobiTerm/ShinobiTerm/Services/SSHKeyService.swift:148-152 | four bytes read as a big-endian number give a `uint32` |
| SshKeyService.BigEndian32RoundTrip | ShinobiTerm/ShinobiTerm/Services/SSHKeyService.swift:148-153 | decoding a four-byte prefix gives back the length, and encoding any four bytes' value gives them back |
| SshKeyService.StringField | ShinobiTerm/ShinobiTerm/Services/SSHKeyService.swift:148-154 | an SSH `string` is four bytes longer than its data |
| SshKeyService.ReadStringFieldRoundTrip | ShinobiTerm/ShinobiTerm/Services/SSHKeyService.swift:148-154 | reading an SSH `string` off the front gives back the data and exactly what followed it |
| SshKeyService.KeyTypeBytes | ShinobiTerm/ShinobiTerm/Services/SSHKeyService.swift:143-144 | `ssh-ed25519` is 11 UTF-8 bytes |
| SshKeyService.KeyBlobLayout | ShinobiTerm/ShinobiTerm/Services/SSHKeyService.swift:146-154 | the blob reads back as the key type then the key with nothing left over; it is 19 bytes longer than the key, 51 for a 32-byte key |
| SshKeyService.BuildBlob | ShinobiTerm/ShinobiTerm/Services/SSHKeyService.swift:146-154 | the four appends to an empty buffer build exactly the key blob |
| SshKeyService.FormatOpenSshPublicKey | ShinobiTerm/ShinobiTerm/Services/SSHKeyService.swift:139-157 | the line is the key type, the padded base 64 of the blob and the comment, separated by spaces |
| SshKeyService.ComputeFingerprint | ShinobiTerm/ShinobiTerm/Services/SSHKeyService.swift:159-174 | the fingerprint is `SHA256:` and the base 64 of the blob's hash with every `=` removed |
| SshKeyService.PublicKeyLineFields | ShinobiTerm/ShinobiTerm/Services/SSHKeyService.swift:156 | the line splits into the key type, a middle field without spaces that decodes back to the blob, and the comment |
| SshKeyService.EncodingHasNoSpace | ShinobiTerm/ShinobiTerm/Services/SSHKeyService.swift:156 | a base 64 encoding contains no space |
| SshKeyService.Unpadded | ShinobiTerm/ShinobiTerm/Services/SSHKeyService.swift:172-173 | removing `=` from an encoding leaves no `=` and drops exactly the padding characters |
| SshKeyService.FingerprintUnpadded | ShinobiTerm/ShinobiTerm/Services/SSHKeyService.swift:171-173 | no `=` follows the prefix, and a 32-byte digest gives 43 characters |
| SshKeyService.LineAndFingerprintAgree | ShinobiTerm/ShinobiTerm/Services/SSHKeyService.swift:146-169 | the blob the line's middle field decodes to is the one the fingerprint hashes |
| SshKeyService.SameMiddle | ShinobiTerm/ShinobiTerm/Services/SSHKeyService.swift:156 | the middle field of a line with known type and comment is determined by the line |
| SshKeyService.LoadPrivateKey | ShinobiTerm/ShinobiTerm/Services/SSHKeyService.swift:96-120 | not found exactly when the status says so, a keychain error with the status for any other failure or missing data, invalid data exactly for bytes that are not a 32-byte key, and otherwise the key itself |
| SshKeyService.DeleteKey | ShinobiTerm/ShinobiTerm/Services/SSHKeyService.swift:124-135 | deleting succeeds exactly on success or not found; otherwise it fails with the status |
| SshKeyService.ItemInfo | ShinobiTerm/ShinobiTerm/Services/SSHKeyService.swift:73-91 | an item gives an entry exactly when it has an account, a label and a creation date and its key loads, carrying those attributes |
| SshKeyService.InfoEntry | ShinobiTerm/ShinobiTerm/Services/SSHKeyService.swift:73 | an item contributes at most one entry to the list, its info |
| SshKeyService.ListKeysConcat | ShinobiTerm/ShinobiTerm/Services/SSHKeyService.swift:73-91 | listing keeps the stored order: the list of two runs of items is the two lists joined |
| SshKeyService.ListKeysSources | ShinobiTerm/ShinobiTerm/Services/SSHKeyService.swift:73-91 | the list is no longer than the items and every entry comes from a stored item |
| SshKeyService.ListKeysComplete | ShinobiTerm/ShinobiTerm/Services/SSHKeyService.swift:73-91 | items that all load give one entry each, in order |
| SshKeyService.ListKeysFailedQuery | ShinobiTerm/ShinobiTerm/Services/SSHKeyService.swift:67-71 | a failed query or a result that is not a list gives no keys |
| Base64.Sym | ShinobiTerm/ShinobiTerm/Services/SSHKeyService.swift:156 | each of the 64 values has a symbol of the RFC 4648 alphabet that maps back to it |
| Base64.SymIndex | ShinobiTerm/ShinobiTerm/Services/SSHKeyService.swift:156 | a symbol's value is below 64 |
| Base64.EncodeThree | ShinobiTerm/ShinobiTerm/Services/SSHKeyService.swift:156 | three bytes encode as four symbols |
| Base64.EncodeTwo | ShinobiTerm/ShinobiTerm/Services/SSHKeyService.swift:156 | two final bytes encode as three symbols and one `=` |
| Base64.EncodeOne | ShinobiTerm/ShinobiTerm/Services/SSHKeyService.swift:156 | one final byte encodes as two symbols and two `=` |
| Base64.Encode | ShinobiTerm/ShinobiTerm/Services/SSHKeyService.swift:156 | `base64EncodedString`: four characters per started group of three bytes, all from the alphabet or `=`, as the fingerprint at line 172 also uses it |
| Base64.DecodeThree | ShinobiTerm/ShinobiTerm/Services/SSHKeyService.swift:156 | a full group decodes back to its three bytes |
| Base64.DecodeTwo | ShinobiTerm/ShinobiTerm/Services/SSHKeyService.swift:156 | a group with one `=` decodes back to its two bytes |
| Base64.DecodeOne | ShinobiTerm/ShinobiTerm/Services/SSHKeyService.swift:156 | a group with two `=` decodes back to its byte |
| Base64.DecodeCons | ShinobiTerm/ShinobiTerm/Services/SSHKeyService.swift:156 | decoding a leading full group and the rest gives the group's bytes before the rest's |
| Base64.DecodeEncode | ShinobiTerm/ShinobiTerm/Services/SSHKeyService.swift:156 | decoding an encoding gives back exactly the bytes, for every byte sequence |
| Base64.EncodePadding | ShinobiTerm/ShinobiTerm/Services/SSHKeyService.swift:172-173 | an encoding carries 0, 2 or 1 `=` as the length is 0, 1 or 2 modulo 3 |
| Base64.ShortGroupPadding | ShinobiTerm/ShinobiTerm/Services/SSHKeyService.swift:172-173 | one or two bytes encode with two or one `=` |
| Base64.RemoveCharLength | ShinobiTerm/ShinobiTerm/Services/SSHKeyService.swift:173 | removing a character shortens a text by its number of occurrences |
| ClaudeUsageService.ShellEscapedRoundTrip | ShinobiTerm/ShinobiTerm/Services/ClaudeUsageService.swift:106-109 | a POSIX shell reads the single-quoted, quote-escaped script back as exactly the script, for every script |
| ClaudeUsageService.UnquoteMapped | ShinobiTerm/ShinobiTerm/Services/ClaudeUsageService.swift:107 | inside quotes, the escaped text followed by the closing quote reads as the original text |
| ClaudeUsageService.ShellEscapedQuoted | ShinobiTerm/ShinobiTerm/Services/ClaudeUsageService.swift:108 | the escaped script starts and ends with a single quote |
| ClaudeUsageService.ShellEscapedLength | ShinobiTerm/ShinobiTerm/Services/ClaudeUsageService.swift:106-109 | the escaped script is two quotes plus three more characters per quote in it longer than the script |
| ClaudeUsageService.MapQuoteLength | ShinobiTerm/ShinobiTerm/Services/ClaudeUsageService.swift:107 | replacing each quote by `'\''` adds three characters per quote |
| ClaudeUsageService.ParseUtilization | ShinobiTerm/ShinobiTerm/Services/ClaudeUsageService.swift:132-139 | a double is kept, an integer widened, a string read after removing every `%`, anything else is 0 |
| ClaudeUsageService.ParsePeriod | ShinobiTerm/ShinobiTerm/Services/ClaudeUsageService.swift:114-119 | a period exists exactly when the key holds an object |
| ClaudeUsageService.UsageDefaults | ShinobiTerm/ShinobiTerm/Services/ClaudeUsageService.swift:123-129 | missing five-hour and seven-day windows become 0 with no reset; the Opus and Sonnet windows exist exactly when present as objects |
| ClaudeUsageService.UtilizationIgnoresPercent | ShinobiTerm/ShinobiTerm/Services/ClaudeUsageService.swift:135 | a `%` in a utilization string does not change the value read |
| ClaudeUsageService.FetchUsageExclusive | ShinobiTerm/ShinobiTerm/Services/ClaudeUsageService.swift:75-102 | every result carries exactly one of a usage and an error |
| ClaudeUsageService.FetchUsageNoClient | ShinobiTerm/ShinobiTerm/Services/ClaudeUsageService.swift:76-78 | without a client the result is the fixed "SSH client not available" error |
| ClaudeUsageService.FetchUsageErrorPassedThrough | ShinobiTerm/ShinobiTerm/Services/ClaudeUsageService.swift:94-96 | an `"error"` string in the reply is returned as the error |
| ClaudeUsageService.FetchUsageBlankReply | ShinobiTerm/ShinobiTerm/Services/ClaudeUsageService.swift:84-92 | an all-whitespace or unreadable reply gives the parse-failure message |
| ClaudeUsageOverlay.HoursMinutes | ShinobiTerm/ShinobiTerm/Views/ClaudeUsageOverlayView.swift:214-215 | the minutes are below 60 and hours and minutes account for the seconds to within the last minute |
| ClaudeUsageOverlay.RemainingTimeEmpty | ShinobiTerm/ShinobiTerm/Views/ClaudeUsageOverlayView.swift:209-220 | the countdown text is empty exactly when the reset time is absent or does not parse |
| ClaudeUsageOverlay.RemainingTimeShort | ShinobiTerm/ShinobiTerm/Views/ClaudeUsageOverlayView.swift:212-213 | a past reset reads "Reset complete" and one within a minute "Resets soon" |
| ClaudeUsageOverlay.RemainingTimeLong | ShinobiTerm/ShinobiTerm/Views/ClaudeUsageOverlayView.swift:214-219 | past a minute the text names the whole hours when there are any and the leftover minutes, at least one minute when there are no hours |
| ClaudeUsageOverlay.Balance | ShinobiTerm/ShinobiTerm/Views/ClaudeUsageOverlayView.swift:124-125 | the balance is 100 less the larger utilization, never negative, and 0 exactly when a window is used up |
| ClaudeUsageOverlay.BalanceTintSpec | ShinobiTerm/ShinobiTerm/Views/ClaudeUsageOverlayView.swift:126 | blue from 50, orange from 20 to below 50, red below 20 |
| ClaudeUsageOverlay.BalanceTintMonotone | ShinobiTerm/ShinobiTerm/Views/ClaudeUsageOverlayView.swift:124-126 | more usage never gives a less alarming balance colour |
| ClaudeUsageOverlay.ClampRatio | ShinobiTerm/ShinobiTerm/Views/ClaudeUsageOverlayView.swift:145 | the bar ratio lies in [0, 1], equal to the input inside it and to the nearer bound outside |
| ClaudeUsageOverlay.UsedPercent | ShinobiTerm/ShinobiTerm/Views/ClaudeUsageOverlayView.swift:157 | the printed percentage lies between 0 and 100 and is the clamped ratio times 100 rounded down |
| ClaudeUsageOverlay.BarTintSpec | ShinobiTerm/ShinobiTerm/Views/ClaudeUsageOverlayView.swift:180-196 | red from 0.8, orange from 0.5 to below 0.8, blue below 0.5 |
| ClaudeUsageOverlay.BarTintMonotone | ShinobiTerm/ShinobiTerm/Views/ClaudeUsageOverlayView.swift:180-196 | a fuller bar never has a less alarming colour |
| TipJarService.CheckVerified | ShinobiTerm/ShinobiTerm/Services/TipJarService.swift:57-64 | a verified result yields its transaction; an unverified one fails with its error |
| TipJarService.TipJar.constructor | ShinobiTerm/ShinobiTerm/Services/TipJarService.swift:7-8 | the service starts idle with no product |
| TipJarService.TipJar.LoadProducts | ShinobiTerm/ShinobiTerm/Services/TipJarService.swift:21-28 | the product is the first one found, or none when the lookup throws; nothing else changes |
| TipJarService.TipJar.Publish | ShinobiTerm/ShinobiTerm/Services/TipJarService.swift:8 | assigning the published state appends it to the published history |
| TipJarService.TipJar.PurchaseBeer | ShinobiTerm/ShinobiTerm/Services/TipJarService.swift:30-51 | without a product nothing happens; otherwise `.purchasing` then the answer's state is published, and a verified transaction is finished |
| TipJarService.TipJar.ResetState | ShinobiTerm/ShinobiTerm/Services/TipJarService.swift:53-55 | the state becomes idle from any state |
| TipJarService.PurchaseNeverStuck | ShinobiTerm/ShinobiTerm/Services/TipJarService.swift:33-50 | a purchase that got an answer never ends in `.purchasing` |
| TipJarService.PurchaseSuccessSpec | ShinobiTerm/ShinobiTerm/Services/TipJarService.swift:37-40 | success exactly when the purchase is verified, and exactly when a transaction is finished |
| TipJarService.PurchaseFailureSpec | ShinobiTerm/ShinobiTerm/Services/TipJarService.swift:38-49 | failure exactly on a throw or an unverified purchase, carrying its description |
| TipJarService.PurchaseIdleSpec | ShinobiTerm/ShinobiTerm/Services/TipJarService.swift:41-46 | back to idle exactly on cancel, pending or an unknown answer |
| SwiftText.EncodeScalar | ShinobiTerm/ShinobiTerm/Services/SSHSession.swift:72-74 | a character encodes as one to four UTF-8 bytes, one byte exactly for ASCII, which is its code |
| SwiftText.Utf8Concat | ShinobiTerm/ShinobiTerm/Services/SSHSession.swift:72-74 | encoding a concatenation encodes the parts one after the other |
| SwiftText.Utf8Ascii | ShinobiTerm/ShinobiTerm/Views/ExtraKeysView.swift:60-61 | an ASCII text encodes as its codes, one byte per character |
| SwiftText.TrimSpec | ShinobiTerm/ShinobiTerm/Services/TmuxService.swift:16 | trimming leaves a slice of the input with no class character at either end, empty exactly for blank input |
| SwiftText.TrimNoop | ShinobiTerm/ShinobiTerm/Services/TmuxService.swift:16 | a text whose ends are outside the class is unchanged by trimming |
| SwiftText.SplitOnceSpec | ShinobiTerm/ShinobiTerm/Services/TmuxService.swift:13 | `split(maxSplits: 1)` gives nothing exactly for an all-separator text, a first piece free of the separator, and the rest after its separator |
| SwiftText.SplitAllContents | ShinobiTerm/ShinobiTerm/Services/TmuxService.swift:58 | `split(separator:)` loses exactly the separators: the pieces joined are the text without them |
| SwiftText.ParseInt | ShinobiTerm/ShinobiTerm/Views/ConnectionFormView.swift:311 | `Int(String)` yields only 64-bit values and nothing for the empty text |
| SwiftText.NatToString | ShinobiTerm/ShinobiTerm/Views/ConnectionFormView.swift:132 | decimal digits, at least one |
| SwiftText.ParseIntToString | ShinobiTerm/ShinobiTerm/Views/ConnectionFormView.swift:132 | `Int(String(n))` is `n` for every 64-bit `n`, so the port shown there parses back at line 311 |
| SwiftText.ParseDigits | ShinobiTerm/ShinobiTerm/Views/ConnectionListView.swift:284 | a digit string within range parses to its decimal value |

## Left out

- Concurrency is not modelled: `Task`, `MainActor.run`, the `AsyncStream` machinery, task groups and `Task.sleep` delays. Each task runs to completion where it starts. Interleavings are not modelled, nor is the race between `disconnect`'s fire-and-forget close and a following `connect`.
- Citadel/NIO, CryptoKit, the Security framework, StoreKit, `JSONSerialization`, `ISO8601DateFormatter`, `Date` and `UUID` are foreign code. Their answers are parameters; `KeychainService.swift` is not part of this model.
- Key generation and `savePrivateKey` are left out. They are foreign calls with no decisions of their own.
- SwiftUI view bodies, layout and styling are left out, except the enable predicates of the form's buttons. Also left out: `SettingsView.swift`, `SSHKeyManagementView.swift`, `InputBarView.swift`, `ContentView.swift`, `ShinobiTermApp.swift`, `ShinobiTerminalView.swift` and `FontManager.swift`.
- Zoom is left out. That covers the zoom-scale clamp, the pan offsets and the font-size stepper of the terminal screen, which are floating-point geometry. The overlay's zoomed pans are logged as callbacks only.
- `CGFloat` and `Double` are modelled as `real`. NaN, infinities and rounding are not modelled.
- The text of the remote Python usage script is left out. It runs on the remote host, and the model treats it as an opaque payload.
- `createdAt` timestamps are plain `int` values from the caller. Dates in profiles and keys are not compared or formatted.
- The store is a sequence in insertion order. The `@Query` sort by `lastConnectedAt` in reverse matters only where the list's first element is used, which is quick attach; `ConnectionList.MostRecent` stands for it. Profiles with equal stamps, which SwiftData leaves unordered, keep store order there, and the model places a nil stamp after every date.
- Profiles are values, and each screen holds its own copy of the stored profiles. A change one screen makes to a shared `@Model` object does not reach the others in the model: `lastTmuxSession` recorded by `attachToSession` (TmuxAttachView.swift line 314) and `lastConnectedAt` stamped by `connectToProfile`. Persistence is not modelled.
- The `modelContext.save()` and `try?` keychain-write failures are not modelled. The source ignores them.
- `\d` in regular expressions is modelled on ASCII digits and `lowercased()` on ASCII letters, where Swift accepts all Unicode decimal digits and lowercases all scripts. Whitespace trimming follows Foundation's Unicode classes. Grapheme clusters are `char`s.
- `sshKey` is a form field that is declared but never read, so it is not modelled.
- The key list that `onAppear` fetches with `SSHKeyService.listKeys()` is a parameter of `ConnectionForm.FormScreen.Appear`.
- `TmuxAttach.AttachScreen.SwitchProfile` does not run the `connectAndListSessions` task it starts. That task is the following call of `TmuxAttach.AttachScreen.ConnectAndListSessions`.
- `ClaudeUsageService.ParseUtilization`: treats a JSON boolean as "anything else" (0). Foundation bridges it to an `NSNumber` that `as? Double` accepts, so the source would read it as 0 or 1.
- `ClaudeUsageOverlay.RemainingTimeText`: uses an unbounded floor, so `Int(remaining)` trapping on a remaining time beyond 64 bits is not modelled.
- The crash that `quickConnect` hits on `parts[0]` for a text such as "u@" is modelled as the precondition `!QuickConnectTraps(text)` of `ConnectionList.ParseQuickConnect` and `ConnectionList.ListScreen.QuickConnect`, so the crash itself is not modelled. `ConnectionList.QuickConnectTrapsSpec` ties that predicate to the empty split.
- `ConnectionList.ListScreen.QuickConnect`: registers the session under the new profile's id, the corrected key described under Findings, and not under "quick-"+host as written. `ConnectionList.QuickCoverMisses` states what the written key does.
- `ConnectionList.ListScreen.QuickConnectTo`: registers the session under `CorrectedSessionKey(newId)`, the new profile's id, and not under line 286's "quick-"+hostname; it is the task half of `QuickConnect` and has the same deviation.

## Findings

| source | as written | input that shows it | evidently intended | confidence | as-written member | corrected member |
|---|---|---|---|---|---|---|
| ShinobiTerm/ShinobiTerm/Views/ConnectionListView.swift:286 | `quickConnect` registers the session under `"quick-" + hostname`. It then presents a new profile whose id is a fresh UUID, and the full-screen cover (lines 45-58) looks the session up by that id. | quick-connect text `u@h`: the session key is `quick-h`, so once connected the cover shows "Session not found" | the cover finds and shows the session that just connected | high, not executed | ConnectionList.QuickCoverMisses | ConnectionList.CorrectedCoverFinds |
