/**
 * The terminal screen's input logic
 * (ShinobiTerm/ShinobiTerm/Views/TerminalContainerView.swift): tmux copy
 * mode driven by scroll gestures, the input bar, read mode, the usage overlay
 * and the extra-keys bar with its Ctrl latch.
 *
 * What the screen hands to `SSHSession.send`, in order, is the log `sent`;
 * what the session then does with each chunk is modelled by `SshSession`.
 * The `Task`s that send after a sleep are taken to run at once and in order,
 * and the usage fetch is split into its start and the arrival of its result.
 */
module TerminalContainer {
  import opened Wrappers
  import opened SwiftText
  import opened ExtraKeys
  import ClaudeUsageService
  import ScrollOverlay

  type Chunk = seq<Byte>

  /** An argument of `SSHSession.send`: a string, sent as its UTF-8 bytes, or bytes as they are. */
  datatype Outbound = Text(text: string) | Data(bytes: Chunk)

  const ArrowUpKeys: Chunk := [0x1B, 0x5B, 0x41]
  const ArrowDownKeys: Chunk := [0x1B, 0x5B, 0x42]
  /** tmux's default prefix key, Ctrl-B. */
  const TmuxPrefix: Chunk := [0x02]
  /** The UTF-8 bytes of `[` and `q`, tmux's copy-mode key and its quit key there. */
  const CopyModeKey: Chunk := [0x5B]
  const QuitKey: Chunk := [0x71]
  const CarriageReturn: Chunk := [0x0D]
  const LocaleExport: string := "export LANG=en_US.UTF-8 LC_ALL=en_US.UTF-8\n"

  /** The keys of the bar: the ten of `ExtraKey` and the three that act on the screen itself. */
  datatype BarKey = Key(key: ExtraKey) | Read | Keyboard | Claude

  /** tmux copy mode as the screen tracks it. */
  datatype CopyMode = CopyMode(isInCopyMode: bool, scrollLinesFromBottom: int)

  /** The usage overlay: shown or not, the last result, and the fetch in flight. */
  datatype UsageOverlay = UsageOverlay(
    isClaudeUsageVisible: bool,
    claudeUsage: Option<ClaudeUsageService.ClaudeUsage>,
    isLoadingUsage: bool,
    claudeUsageError: Option<string>,
    usageFetches: nat)

  datatype Screen = Screen(
    tmuxSession: Option<string>,
    copy: CopyMode,
    isCtrlActive: bool,
    isAltActive: bool,
    isReadMode: bool,
    inputText: string,
    isInputFocused: bool,
    usage: UsageOverlay,
    sent: seq<Outbound>)

  function Initial(tmux: Option<string>): Screen {
    Screen(tmux, CopyMode(false, 0), false, false, false, "", false, UsageOverlay(false, None, false, None, 0), [])
  }

  /** The screen never believes it is in copy mode outside tmux, nor scrolled below the live view. */
  predicate Inv(s: Screen) {
    s.copy.scrollLinesFromBottom >= 0 && (s.copy.isInCopyMode ==> s.tmuxSession.Some?)
  }

  function Abs(n: int): nat {
    if n < 0 then -n else n
  }

  function Repeat(c: Outbound, n: nat): (r: seq<Outbound>)
    ensures |r| == n && forall i | 0 <= i < n :: r[i] == c
  {
    if n == 0 then [] else Repeat(c, n - 1) + [c]
  }

  // ------------------------------------------------------------ copy mode

  function AfterEnterCopyMode(s: Screen): Screen {
    if s.tmuxSession.None? || s.copy.isInCopyMode then s
    else s.(sent := s.sent + [Data(TmuxPrefix)] + [Data(CopyModeKey)], copy := s.copy.(isInCopyMode := true))
  }

  function AfterExitCopyMode(s: Screen): Screen {
    if s.tmuxSession.None? || !s.copy.isInCopyMode then s
    else s.(sent := s.sent + [Data(QuitKey)], copy := s.copy.(isInCopyMode := false))
  }

  function AfterReturnToLiveView(s: Screen): Screen {
    var t := AfterExitCopyMode(s);
    t.(copy := t.copy.(scrollLinesFromBottom := 0))
  }

  function ScrollKey(lines: int): Outbound {
    if lines > 0 then Data(ArrowUpKeys) else Data(ArrowDownKeys)
  }

  function AfterScrollGesture(s: Screen, lines: int): Screen {
    if s.tmuxSession.None? then s
    else
      var t := if !s.copy.isInCopyMode then AfterEnterCopyMode(s) else s;
      var offset := if t.copy.scrollLinesFromBottom + lines < 0 then 0 else t.copy.scrollLinesFromBottom + lines;
      t.(copy := t.copy.(scrollLinesFromBottom := offset), sent := t.sent + Repeat(ScrollKey(lines), Abs(lines)))
  }

  function AfterScrollEnded(s: Screen): Screen {
    if s.copy.scrollLinesFromBottom <= 0 && s.copy.isInCopyMode then AfterExitCopyMode(s) else s
  }

  // ------------------------------------------------------------ input and modes

  function AfterSendInputText(s: Screen): Screen {
    var text := Trim(s.inputText, WhitespacesAndNewlines);
    if text == [] then s
    else
      var t := s.(inputText := "", isInputFocused := false);
      var u := if t.copy.isInCopyMode && t.tmuxSession.Some? then AfterReturnToLiveView(t) else t;
      u.(sent := u.sent + [Text(text)] + [Data(CarriageReturn)])
  }

  function AfterToggleReadMode(s: Screen): Screen {
    var t := s.(isReadMode := !s.isReadMode);
    if t.isReadMode then t.(copy := t.copy.(scrollLinesFromBottom := 0)) else AfterReturnToLiveView(t)
  }

  function FetchStarted(u: UsageOverlay): UsageOverlay {
    if u.isLoadingUsage then u
    else u.(isLoadingUsage := true, claudeUsageError := None, usageFetches := u.usageFetches + 1)
  }

  function FetchFinished(u: UsageOverlay, r: ClaudeUsageService.UsageResult): UsageOverlay {
    u.(claudeUsage := r.usage, claudeUsageError := r.error, isLoadingUsage := false)
  }

  function Toggled(u: UsageOverlay): UsageOverlay {
    var t := u.(isClaudeUsageVisible := !u.isClaudeUsageVisible);
    if t.isClaudeUsageVisible then FetchStarted(t) else t
  }

  /** Lower-casing of an ASCII capital; every other character is its own lower case here. */
  function LowerAscii(c: char): char {
    if 'A' <= c <= 'Z' then (c as int + 32) as char else c
  }

  /**
   * `asciiValue & 0x1F` of the lower-cased first label character, when that is
   * ASCII; masking a byte with 0x1F keeps its low five bits, its remainder by 32.
   */
  function CtrlByte(k: ExtraKey): Option<Byte> {
    var l := Label(k);
    if l == [] then None
    else
      var c := LowerAscii(l[0]);
      if c as int < 128 then Some(c as int % 32) else None
  }

  /** What a key of the bar other than the modifiers sends, with Ctrl latched or not. */
  function KeyBytes(x: ExtraKey, ctrl: bool): Chunk {
    if ctrl then
      match CtrlByte(x) case Some(b) => [b] case None => Sequence(x)
    else Sequence(x)
  }

  function AfterLaunch(s: Screen, initialCommand: Option<string>): Screen {
    var cmd := match initialCommand case Some(c) => [Text(c)] case None => [];
    s.(sent := s.sent + [Text(LocaleExport)] + cmd, isInputFocused := true)
  }

  function AfterExtraKey(s: Screen, k: BarKey): Screen {
    match k
    case Read => AfterToggleReadMode(s)
    case Keyboard => s.(isInputFocused := !s.isInputFocused)
    case Claude => s.(usage := Toggled(s.usage))
    case Key(x) => AfterKey(s, x)
  }

  /** The ten keys of `ExtraKey`: the modifiers latch, every other key sends. */
  function AfterKey(s: Screen, x: ExtraKey): Screen {
    if x == Ctrl then s.(isCtrlActive := !s.isCtrlActive)
    else if x == Alt then s.(isAltActive := !s.isAltActive)
    else s.(isCtrlActive := false, sent := s.sent + [Data(KeyBytes(x, s.isCtrlActive))])
  }

  class TerminalScreen {
    const tmuxSession: Option<string>
    var isCtrlActive: bool
    var isAltActive: bool
    var isReadMode: bool
    var isInCopyMode: bool
    var scrollLinesFromBottom: int
    var inputText: string
    var isInputFocused: bool
    var isClaudeUsageVisible: bool
    var claudeUsage: Option<ClaudeUsageService.ClaudeUsage>
    var isLoadingUsage: bool
    var claudeUsageError: Option<string>
    /** The number of usage fetches started, standing for the `Task`s launched. */
    var usageFetches: nat
    var sent: seq<Outbound>

    function Usage(): UsageOverlay
      reads this
    {
      UsageOverlay(isClaudeUsageVisible, claudeUsage, isLoadingUsage, claudeUsageError, usageFetches)
    }

    function Snap(): Screen
      reads this
    {
      Screen(tmuxSession, CopyMode(isInCopyMode, scrollLinesFromBottom), isCtrlActive, isAltActive,
        isReadMode, inputText, isInputFocused, Usage(), sent)
    }

    constructor (tmux: Option<string>)
      ensures Snap() == Initial(tmux)
    {
      tmuxSession := tmux;
      isCtrlActive, isAltActive, isReadMode, isInCopyMode := false, false, false, false;
      scrollLinesFromBottom, inputText, isInputFocused := 0, "", false;
      isClaudeUsageVisible, claudeUsage, isLoadingUsage, claudeUsageError := false, None, false, None;
      usageFetches, sent := 0, [];
    }

    /** The `.task` run when the screen appears. */
    method Launch(initialCommand: Option<string>)
      modifies this
      ensures Snap() == AfterLaunch(old(Snap()), initialCommand)
    {
      sent := sent + [Text(LocaleExport)];
      if initialCommand.Some? {
        sent := sent + [Text(initialCommand.value)];
      }
      isInputFocused := true;
    }

    method EnterCopyMode()
      modifies this`sent, this`isInCopyMode
      ensures Snap() == AfterEnterCopyMode(old(Snap()))
    {
      if tmuxSession.None? || isInCopyMode {
        return;
      }
      sent := sent + [Data(TmuxPrefix)];
      sent := sent + [Data(CopyModeKey)];
      isInCopyMode := true;
    }

    method ExitCopyMode()
      modifies this`sent, this`isInCopyMode
      ensures Snap() == AfterExitCopyMode(old(Snap()))
    {
      if tmuxSession.None? || !isInCopyMode {
        return;
      }
      sent := sent + [Data(QuitKey)];
      isInCopyMode := false;
    }

    method ReturnToLiveView()
      modifies this`sent, this`isInCopyMode, this`scrollLinesFromBottom
      ensures Snap() == AfterReturnToLiveView(old(Snap()))
    {
      ExitCopyMode();
      scrollLinesFromBottom := 0;
    }

    /** One arrow key per line scrolled, sent one at a time. */
    method HandleScrollGesture(lines: int)
      modifies this
      ensures Snap() == AfterScrollGesture(old(Snap()), lines)
    {
      if tmuxSession.None? {
        return;
      }
      ghost var s := Snap();
      if !isInCopyMode {
        EnterCopyMode();
      }
      ghost var t := Snap();
      assert t == if !s.copy.isInCopyMode then AfterEnterCopyMode(s) else s;
      scrollLinesFromBottom := if scrollLinesFromBottom + lines < 0 then 0 else scrollLinesFromBottom + lines;
      var key := if lines > 0 then ArrowUpKeys else ArrowDownKeys;
      ghost var sent0 := sent;
      for i := 0 to Abs(lines)
        modifies this`sent
        invariant sent == sent0 + Repeat(Data(key), i)
      {
        sent := sent + [Data(key)];
      }
      assert Data(key) == ScrollKey(lines);
    }

    method HandleScrollEnded()
      modifies this
      ensures Snap() == AfterScrollEnded(old(Snap()))
    {
      if scrollLinesFromBottom <= 0 && isInCopyMode {
        ExitCopyMode();
      }
    }

    method SendInputText()
      modifies this
      ensures Snap() == AfterSendInputText(old(Snap()))
    {
      ghost var s := Snap();
      var text := Trim(inputText, WhitespacesAndNewlines);
      if text == [] {
        return;
      }
      inputText := "";
      isInputFocused := false;
      ghost var t := Snap();
      assert t == s.(inputText := "", isInputFocused := false);
      if isInCopyMode && tmuxSession.Some? {
        ReturnToLiveView();
      }
      ghost var u := Snap();
      assert u == if t.copy.isInCopyMode && t.tmuxSession.Some? then AfterReturnToLiveView(t) else t;
      sent := sent + [Text(text)];
      sent := sent + [Data(CarriageReturn)];
      assert Snap() == u.(sent := u.sent + [Text(text)] + [Data(CarriageReturn)]);
    }

    method ToggleReadMode()
      modifies this
      ensures Snap() == AfterToggleReadMode(old(Snap()))
    {
      isReadMode := !isReadMode;
      if isReadMode {
        scrollLinesFromBottom := 0;
      } else {
        ReturnToLiveView();
      }
    }

    method FetchClaudeUsage()
      modifies this
      ensures Snap() == old(Snap()).(usage := FetchStarted(old(Usage())))
    {
      if isLoadingUsage {
        return;
      }
      isLoadingUsage := true;
      claudeUsageError := None;
      usageFetches := usageFetches + 1;
    }

    /** The fetch started by `FetchClaudeUsage` finishes with `result`. */
    method UsageArrived(result: ClaudeUsageService.UsageResult)
      modifies this
      ensures Snap() == old(Snap()).(usage := FetchFinished(old(Usage()), result))
    {
      claudeUsage := result.usage;
      claudeUsageError := result.error;
      isLoadingUsage := false;
    }

    method ToggleClaudeUsage()
      modifies this
      ensures Snap() == old(Snap()).(usage := Toggled(old(Usage())))
    {
      isClaudeUsageVisible := !isClaudeUsageVisible;
      if isClaudeUsageVisible {
        FetchClaudeUsage();
      }
    }

    method HandleExtraKey(k: BarKey)
      modifies this
      ensures Snap() == AfterExtraKey(old(Snap()), k)
    {
      match k {
        case Read => ToggleReadMode();
        case Keyboard => isInputFocused := !isInputFocused;
        case Claude => ToggleClaudeUsage();
        case Key(x) =>
          if x == Ctrl {
            isCtrlActive := !isCtrlActive;
            return;
          } else if x == Alt {
            isAltActive := !isAltActive;
            return;
          }
          ghost var s := Snap();
          if isCtrlActive {
            isCtrlActive := false;
            var b := CtrlByte(x);
            if b.Some? {
              sent := sent + [Data([b.value])];
            } else {
              sent := sent + [Data(Sequence(x))];
            }
          } else {
            sent := sent + [Data(Sequence(x))];
          }
          assert Snap() == s.(isCtrlActive := false, sent := s.sent + [Data(KeyBytes(x, s.isCtrlActive))]);
      }
    }
  }

  // ------------------------------------------------------------ properties

  /** `[` and `q` are sent as their UTF-8 bytes; the arrows send what the bar's arrow keys send. */
  lemma CopyModeBytes()
    ensures Utf8("[") == CopyModeKey && Utf8("q") == QuitKey
    ensures ArrowUpKeys == Sequence(ArrowUp) && ArrowDownKeys == Sequence(ArrowDown)
  {
    Utf8Ascii("[");
    Utf8Ascii("q");
  }

  /** Outside tmux the scroll and copy-mode operations send nothing and change nothing. */
  lemma NoTmuxNoCopyMode(s: Screen, lines: int)
    requires s.tmuxSession.None?
    ensures AfterEnterCopyMode(s) == s && AfterExitCopyMode(s) == s && AfterScrollGesture(s, lines) == s
  {
  }

  /** Entering copy mode sends the prefix and `[` once; exiting sends `q` once; each only from the other mode. */
  lemma CopyModeToggles(s: Screen)
    requires s.tmuxSession.Some?
    ensures !s.copy.isInCopyMode ==>
      AfterEnterCopyMode(s) == s.(sent := s.sent + [Data(TmuxPrefix), Data(CopyModeKey)], copy := CopyMode(true, s.copy.scrollLinesFromBottom))
    ensures s.copy.isInCopyMode ==> AfterEnterCopyMode(s) == s
    ensures s.copy.isInCopyMode ==>
      AfterExitCopyMode(s) == s.(sent := s.sent + [Data(QuitKey)], copy := CopyMode(false, s.copy.scrollLinesFromBottom))
    ensures !s.copy.isInCopyMode ==> AfterExitCopyMode(s) == s
  {
  }

  /**
   * A scroll of `n` lines in tmux ends in copy mode, having entered it first if
   * needed, then sends |n| arrows, up for positive `n`, and moves the offset by
   * `n` but never below 0.
   */
  lemma ScrollGestureSpec(s: Screen, n: int)
    requires s.tmuxSession.Some?
    ensures var r := AfterScrollGesture(s, n);
      var entry := if s.copy.isInCopyMode then [] else [Data(TmuxPrefix), Data(CopyModeKey)];
      var offset := s.copy.scrollLinesFromBottom + n;
      && r.copy == CopyMode(true, if offset < 0 then 0 else offset)
      && r.copy.scrollLinesFromBottom >= 0
      && r.sent == s.sent + entry + Repeat(Data(if n > 0 then Sequence(ArrowUp) else Sequence(ArrowDown)), Abs(n))
      && r.(sent := s.sent, copy := s.copy) == s
  {
    CopyModeBytes();
  }

  /** The end of a scroll leaves copy mode exactly when the offset is back at the live view. */
  lemma ScrollEndedSpec(s: Screen)
    requires Inv(s)
    ensures s.copy.scrollLinesFromBottom <= 0 && s.copy.isInCopyMode ==>
      AfterScrollEnded(s) == s.(sent := s.sent + [Data(QuitKey)], copy := CopyMode(false, s.copy.scrollLinesFromBottom))
    ensures !(s.copy.scrollLinesFromBottom <= 0 && s.copy.isInCopyMode) ==> AfterScrollEnded(s) == s
  {
  }

  /** Returning to the live view always zeroes the offset and sends `q` exactly when in tmux copy mode. */
  lemma ReturnToLiveViewSpec(s: Screen)
    ensures var r := AfterReturnToLiveView(s);
      && r.copy.scrollLinesFromBottom == 0
      && r.sent == s.sent + (if s.copy.isInCopyMode && s.tmuxSession.Some? then [Data(QuitKey)] else [])
      && (s.tmuxSession.Some? ==> !r.copy.isInCopyMode)
      && r.(sent := s.sent, copy := s.copy) == s
  {
  }

  /**
   * Whitespace-only input sends nothing and changes nothing. Any other input
   * clears the field, leaves copy mode, and sends the trimmed text and one
   * carriage return, after a `q` when copy mode was on.
   */
  lemma SendInputTextSpec(s: Screen)
    requires Inv(s)
    ensures Blank(s.inputText, WhitespacesAndNewlines) ==> AfterSendInputText(s) == s
    ensures !Blank(s.inputText, WhitespacesAndNewlines) ==>
      var r := AfterSendInputText(s);
      var text := Trim(s.inputText, WhitespacesAndNewlines);
      && text != [] && r.inputText == [] && !r.isInputFocused && !r.copy.isInCopyMode
      && r.sent == s.sent + (if s.copy.isInCopyMode then [Data(QuitKey)] else []) + [Text(text), Data(CarriageReturn)]
      && r.copy.scrollLinesFromBottom == (if s.copy.isInCopyMode then 0 else s.copy.scrollLinesFromBottom)
  {
    var _ := TrimSpec(s.inputText, WhitespacesAndNewlines);
  }

  /** Read mode on zeroes the offset and keeps copy mode; read mode off returns to the live view. */
  lemma ToggleReadModeSpec(s: Screen)
    ensures !s.isReadMode ==>
      AfterToggleReadMode(s) == s.(isReadMode := true, copy := s.copy.(scrollLinesFromBottom := 0))
    ensures s.isReadMode ==>
      AfterToggleReadMode(s) == AfterReturnToLiveView(s.(isReadMode := false))
  {
  }

  /** The Ctrl combinations of the bar's keys: ASCII labels give C0 controls, the arrows fall back. */
  lemma CtrlBytes()
    ensures CtrlByte(Esc) == Some(0x05) && CtrlByte(Tab) == Some(0x14)
    ensures CtrlByte(Tilde) == Some(0x1E) && CtrlByte(Pipe) == Some(0x1C)
    ensures CtrlByte(ArrowUp).None? && CtrlByte(ArrowDown).None? && CtrlByte(ArrowLeft).None? && CtrlByte(ArrowRight).None?
  {
    assert Label(Esc)[0] == 'E' && Label(Tab)[0] == 'T';
    assert Label(Tilde)[0] == '~' && Label(Pipe)[0] == '|';
  }

  /** A control byte is always one of the C0 codes. */
  lemma CtrlByteIsC0(k: ExtraKey)
    ensures CtrlByte(k).Some? ==> CtrlByte(k).value < 32
  {
  }

  /**
   * A key of the bar other than the modifiers sends exactly one chunk and
   * releases Ctrl; with Ctrl latched it is the control byte when there is one.
   */
  lemma ExtraKeySends(s: Screen, x: ExtraKey)
    requires !IsModifier(x)
    ensures var r := AfterExtraKey(s, Key(x));
      && !r.isCtrlActive
      && r.sent == s.sent + [Data(if s.isCtrlActive && CtrlByte(x).Some? then [CtrlByte(x).value] else Sequence(x))]
      && r.(sent := s.sent, isCtrlActive := s.isCtrlActive) == s
  {
  }

  /** The modifiers only flip their latch and send nothing. */
  lemma ModifiersLatch(s: Screen)
    ensures AfterExtraKey(s, Key(Ctrl)) == s.(isCtrlActive := !s.isCtrlActive)
    ensures AfterExtraKey(s, Key(Alt)) == s.(isAltActive := !s.isAltActive)
  {
  }

  /** Alt never changes what a key sends. */
  lemma AltIgnored(s: Screen, k: BarKey, alt: bool)
    ensures AfterExtraKey(s.(isAltActive := alt), k).sent == AfterExtraKey(s, k).sent
  {
    var a := s.(isAltActive := alt);
    match k {
      case Key(x) =>
        assert AfterKey(a, x).sent == AfterKey(s, x).sent;
      case Read =>
        assert AfterToggleReadMode(a).sent == AfterToggleReadMode(s).sent;
      case _ =>
    }
  }

  /**
   * Showing the overlay starts a fetch unless one is running; hiding it starts
   * none. Once a result arrives exactly one of usage and error is shown.
   */
  lemma UsageFetchSpec(u: UsageOverlay, hasClient: bool, exec: ClaudeUsageService.ExecOutcome,
                       parseJson: string -> ClaudeUsageService.JsonOutcome,
                       parseDouble: string -> Option<real>, now: string)
    ensures var t := Toggled(u);
      && t.isClaudeUsageVisible == !u.isClaudeUsageVisible
      && t.usageFetches == (if t.isClaudeUsageVisible && !u.isLoadingUsage then u.usageFetches + 1 else u.usageFetches)
      && (t.usageFetches != u.usageFetches ==> t.isLoadingUsage && t.claudeUsageError.None?)
      && (t.usageFetches == u.usageFetches ==> t.(isClaudeUsageVisible := u.isClaudeUsageVisible) == u)
    ensures var r := FetchFinished(u, ClaudeUsageService.FetchUsage(hasClient, exec, parseJson, parseDouble, now));
      !r.isLoadingUsage && (r.claudeUsage.Some? <==> r.claudeUsageError.None?)
  {
    ClaudeUsageService.FetchUsageExclusive(hasClient, exec, parseJson, parseDouble, now);
  }

  /** The copy-mode operations keep `Inv`. */
  lemma CopyOpsKeepInv(s: Screen, lines: int)
    requires Inv(s)
    ensures Inv(AfterEnterCopyMode(s)) && Inv(AfterExitCopyMode(s)) && Inv(AfterReturnToLiveView(s))
    ensures Inv(AfterScrollGesture(s, lines)) && Inv(AfterScrollEnded(s))
  {
  }

  /** So does the input bar. */
  lemma SendInputKeepsInv(s: Screen)
    requires Inv(s)
    ensures Inv(AfterSendInputText(s))
  {
  }

  /** On appearing the screen sets the locale, runs the initial command if any, and focuses the input; nothing else changes. */
  lemma LaunchSpec(s: Screen, cmd: Option<string>)
    ensures var r := AfterLaunch(s, cmd);
      && r.sent == s.sent + [Text(LocaleExport)] + (if cmd.Some? then [Text(cmd.value)] else [])
      && r.isInputFocused
      && r.(sent := s.sent, isInputFocused := s.isInputFocused) == s
  {
  }

  /** And every key of the bar. */
  lemma ExtraKeyKeepsInv(s: Screen, k: BarKey)
    requires Inv(s)
    ensures Inv(AfterExtraKey(s, k))
  {
  }

  // ------------------------------------------------------------ gestures to keys

  /** The overlay's callbacks as the screen wires them: scrolls and their end; zoom is not modelled. */
  function Deliver(s: Screen, calls: seq<ScrollOverlay.Callback>): Screen {
    if calls == [] then s
    else
      var t := Deliver(s, calls[..|calls| - 1]);
      match calls[|calls| - 1]
      case Scroll(n) => AfterScrollGesture(t, n)
      case ScrollEnded => AfterScrollEnded(t)
      case _ => t
  }

  /** Delivering one more scroll is one more scroll gesture. */
  lemma DeliverScroll(s: Screen, calls: seq<ScrollOverlay.Callback>, n: int)
    ensures Deliver(s, calls + [ScrollOverlay.Scroll(n)]) == AfterScrollGesture(Deliver(s, calls), n)
  {
    assert (calls + [ScrollOverlay.Scroll(n)])[..|calls|] == calls;
  }

  /** From the live view a scroll of one line down enters copy mode and sends one cursor-down key. */
  lemma FirstScrollDown(s: Screen)
    requires s.tmuxSession.Some? && s.copy == CopyMode(false, 0)
    ensures var r := AfterScrollGesture(s, -1);
      r.copy == CopyMode(true, 0) && r.sent == s.sent + [Data(TmuxPrefix), Data(CopyModeKey), Data(ArrowDownKeys)] && r.tmuxSession == s.tmuxSession
  {
    assert Repeat(Data(ArrowDownKeys), 1) == [Data(ArrowDownKeys)];
  }

  /** In copy mode at the live view a scroll of one line down only sends one cursor-down key. */
  lemma NextScrollDown(s: Screen)
    requires s.tmuxSession.Some? && s.copy == CopyMode(true, 0)
    ensures var r := AfterScrollGesture(s, -1);
      r.copy == s.copy && r.sent == s.sent + [Data(ArrowDownKeys)] && r.tmuxSession == s.tmuxSession
  {
    assert Repeat(Data(ArrowDownKeys), 1) == [Data(ArrowDownKeys)];
  }

  /** Three scrolls of one line down from the live view: copy mode is entered once, then three cursor-down keys. */
  lemma ThreeScrollsDown(tmux: string)
    ensures var one := ScrollOverlay.Scroll(-1);
      var r := Deliver(Initial(Some(tmux)), [one, one, one]);
      var down := Data(ArrowDownKeys);
      r.sent == [Data(TmuxPrefix), Data(CopyModeKey), down, down, down] && r.copy == CopyMode(true, 0) && r.tmuxSession.Some?
  {
    var s := Initial(Some(tmux));
    var one := ScrollOverlay.Scroll(-1);
    assert [one] == [] + [one] && [one, one] == [one] + [one] && [one, one, one] == [one, one] + [one];
    DeliverScroll(s, [], -1);
    DeliverScroll(s, [one], -1);
    DeliverScroll(s, [one, one], -1);
    var p, c, d := Data(TmuxPrefix), Data(CopyModeKey), Data(ArrowDownKeys);
    FirstScrollDown(s);
    var s1 := Deliver(s, [one]);
    assert s1.sent == [p, c, d] && s1.copy == CopyMode(true, 0);
    NextScrollDown(s1);
    var s2 := Deliver(s, [one, one]);
    assert s2.sent == [p, c, d, d] && s2.copy == CopyMode(true, 0);
    NextScrollDown(s2);
  }

  /**
   * Dragging the finger down three times by 20 points from the live view, then
   * lifting it: the overlay reports three scrolls of -1, so the screen enters
   * copy mode, sends three cursor-down keys with the offset held at 0, and
   * leaves copy mode when the drag ends.
   */
  lemma DragDownFromLiveView(tmux: string)
    ensures var s := Initial(Some(tmux));
      var calls := ScrollOverlay.Drag(ScrollOverlay.Coord(false, 0.0, []), [20.0, 20.0, 20.0]).calls;
      var r := Deliver(s, calls);
      var down := Data(ArrowDownKeys);
      && r.sent == [Data(TmuxPrefix), Data(CopyModeKey), down, down, down]
      && r.copy == CopyMode(true, 0)
      && AfterScrollEnded(r).sent == r.sent + [Data(QuitKey)] && !AfterScrollEnded(r).copy.isInCopyMode
  {
    ScrollOverlay.DragExample();
    ThreeScrollsDown(tmux);
  }

  /** Scrolling up by three lines from the live view sends three cursor-up keys and leaves the offset at 3. */
  lemma ScrollUpFromLiveView(tmux: string)
    ensures var r := AfterScrollGesture(AfterScrollGesture(AfterScrollGesture(Initial(Some(tmux)), 1), 1), 1);
      var up := Data(ArrowUpKeys);
      && r.sent == [Data(TmuxPrefix), Data(CopyModeKey), up, up, up]
      && r.copy == CopyMode(true, 3)
      && AfterScrollEnded(r) == r
  {
    var s := Initial(Some(tmux));
    var up := Data(ArrowUpKeys);
    var s1 := AfterScrollGesture(s, 1);
    assert s1 == s.(copy := CopyMode(true, 1), sent := [Data(TmuxPrefix), Data(CopyModeKey), up]);
    var s2 := AfterScrollGesture(s1, 1);
    assert s2 == s1.(copy := CopyMode(true, 2), sent := s1.sent + [up]);
  }
}
