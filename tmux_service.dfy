/**
 * Parsing the default output of `tmux ls`, one session per line in the form
 * `name: N windows (created DATE) (attached)`
 * (ShinobiTerm/ShinobiTerm/Services/TmuxService.swift).
 *
 * The two regular expressions are modelled by their leftmost-match semantics:
 * `(\d+) windows?` and `\(created (.+?)\)`, where `.` is any character that is
 * not a line terminator.
 */
module TmuxService {
  import opened Wrappers
  import opened SwiftText

  datatype TmuxSession = TmuxSession(
    id: string, name: string, windowCount: int, isAttached: bool, createdAt: string)

  /** The command run on the host; a missing tmux yields empty output, not an error. */
  const ListCommand: string := "bash -lc 'tmux ls' 2>/dev/null || true"

  // ---------------------------------------------------- `(\d+) windows?`

  /** Length of the run of ASCII digits that starts `s`. */
  function DigitRun(s: string): (n: nat)
    ensures n <= |s| && AllDigits(s[..n]) && (n < |s| ==> !IsDigit(s[n]))
  {
    if s != [] && IsDigit(s[0]) then
      var n := 1 + DigitRun(s[1..]);
      assert s[..n] == [s[0]] + s[1..][..n - 1];
      n
    else 0
  }

  /**
   * The leftmost match of `(\d+) windows?`: at the first position where a digit
   * run is followed by ` window`; the greedy `s?` takes a following `s`.
   */
  function WindowMatch(s: string): (m: Option<string>)
    ensures m.Some? ==> |m.value| > 0 && IsDigit(m.value[0])
    decreases |s|
  {
    if s == [] then None
    else
      var n := DigitRun(s);
      if n > 0 && " window" <= s[n..] then
        var end := n + 7;
        var len := if end < |s| && s[end] == 's' then end + 1 else end;
        Some(s[..len])
      else WindowMatch(s[1..])
  }

  /** The digits at the start of the leftmost match. */
  function WindowDigits(s: string): Option<string>
    decreases |s|
  {
    if s == [] then None
    else
      var n := DigitRun(s);
      if n > 0 && " window" <= s[n..] then Some(s[..n]) else WindowDigits(s[1..])
  }

  /** `windowCount`: the first space-separated word of the match as an `Int`, else 1. */
  function WindowCount(rest: string): int {
    match WindowMatch(rest)
    case None => 1
    case Some(m) =>
      var words := SplitAll(m, ' ');
      var countStr := if words == [] then "1" else words[0];
      ParseInt(countStr).GetOr(1)
  }

  // ------------------------------------------------ `\(created (.+?)\)`

  const CreatedOpen: string := "(created "

  /**
   * The lazy `(.+?)\)` on `t`: the least `k >= 1` with `t[k] == ')'` and no line
   * terminator in `t[..k]`.
   */
  function LazyClose(t: string, k: nat): (r: Option<nat>)
    requires k >= 1
    ensures r.Some? ==> k <= r.value < |t| && t[r.value] == ')'
    decreases |t| - k
  {
    if k >= |t| || IsNewline(t[k - 1]) then None
    else if t[k] == ')' then Some(k)
    else LazyClose(t, k + 1)
  }

  /** The leftmost match of `\(created (.+?)\)`. */
  function CreatedMatch(s: string): (m: Option<string>)
    ensures m.Some? ==> CreatedOpen <= m.value
    decreases |s|
  {
    if s == [] then None
    else if CreatedOpen <= s && LazyClose(s[9..], 1).Some? then
      Some(s[..9 + LazyClose(s[9..], 1).value + 1])
    else CreatedMatch(s[1..])
  }

  /** `createdAt`: the match with every `(created ` and every `)` removed, else `""`. */
  function CreatedAt(rest: string): string {
    match CreatedMatch(rest)
    case None => ""
    case Some(m) => ReplaceAll(ReplaceAll(m, CreatedOpen, ""), ")", "")
  }

  // ------------------------------------------------------------ lines

  /** `TmuxSession.parseLine`. */
  function ParseLine(line: string): (r: Option<TmuxSession>)
    ensures r.Some? ==> r.value.id == r.value.name && ':' !in r.value.name
  {
    var parts := SplitOnce(line, ':');
    if |parts| != 2 then None
    else
      var name := Trim(parts[0], Whitespaces);
      var rest := Trim(parts[1], Whitespaces);
      SplitOnceSpec(line, ':');
      TrimKeepsAbsence(parts[0], Whitespaces, ':');
      if !Contains(rest, "window") then None
      else Some(TmuxSession(name, name, WindowCount(rest), Contains(rest, "(attached)"), CreatedAt(rest)))
  }

  /** The `compactMap` of `listSessions`: trim each line, skip blank ones, keep what parses. */
  function ParseLines(lines: seq<string>): seq<TmuxSession> {
    if lines == [] then [] else LineEntry(lines[0]) + ParseLines(lines[1..])
  }

  /** What one output line contributes: nothing, or the session it describes. */
  function LineEntry(line: string): (r: seq<TmuxSession>)
    ensures |r| <= 1
    ensures forall t | t in r :: ParseLine(Trim(line, WhitespacesAndNewlines)) == Some(t)
  {
    var l := Trim(line, WhitespacesAndNewlines);
    if l == [] then [] else match ParseLine(l) case Some(t) => [t] case None => []
  }

  /** What running the listing command gave: the output (if it decoded as text), or an error. */
  datatype CommandOutcome = Output(text: Option<string>) | Threw

  /** `TmuxService.listSessions`. */
  function ListSessions(hasClient: bool, outcome: CommandOutcome): (r: seq<TmuxSession>)
    ensures !hasClient || outcome.Threw? ==> r == []
  {
    if !hasClient then []
    else
      match outcome
      case Threw => []
      case Output(text) => ParseLines(SplitAll(text.GetOr(""), '\n'))
  }

  // ------------------------------------------------------------ properties

  lemma {:induction false} TrimKeepsAbsence(s: string, k: CharClass, c: char)
    requires c !in s
    ensures c !in Trim(s, k)
  {
    var i := TrimSpec(s, k);
    var r := Trim(s, k);
    forall j | 0 <= j < |r| ensures r[j] != c {
      assert r[j] == s[i + j];
    }
  }

  /** A line parses only when it splits on `:` into two pieces and the trimmed rest mentions `window`. */
  lemma ParseLineSpec(line: string)
    ensures var parts := SplitOnce(line, ':');
      ParseLine(line).Some? <==>
        |parts| == 2 && Contains(Trim(parts[1], Whitespaces), "window")
    ensures var parts := SplitOnce(line, ':');
      ParseLine(line).Some? ==>
        var t := ParseLine(line).value;
        var rest := Trim(parts[1], Whitespaces);
        && t.name == Trim(parts[0], Whitespaces)
        && t.isAttached == Contains(rest, "(attached)")
        && t.windowCount == WindowCount(rest)
        && t.createdAt == CreatedAt(rest)
  {
  }

  /** The match starts with the digit run of the leftmost match, followed by ` window`. */
  lemma {:induction false} WindowMatchShape(s: string)
    ensures WindowMatch(s).Some? <==> WindowDigits(s).Some?
    ensures WindowMatch(s).Some? ==>
      var d := WindowDigits(s).value;
      d != [] && AllDigits(d) && d + " window" <= WindowMatch(s).value
    decreases |s|
  {
    if s != [] {
      var n := DigitRun(s);
      if n > 0 && " window" <= s[n..] {
        var m := WindowMatch(s).value;
        assert m[..n] == s[..n];
        assert m[n..n + 7] == s[n..n + 7] == " window";
        assert s[..n] + " window" == m[..n + 7];
      } else {
        WindowMatchShape(s[1..]);
      }
    }
  }

  /** The first space-separated word of a match is its leading digit run. */
  lemma FirstWordOfMatch(d: string, tail: string)
    requires d != [] && AllDigits(d)
    ensures SplitAll(d + " " + tail, ' ')[0] == d
  {
    assert ' ' !in d by {
      forall i | 0 <= i < |d| ensures d[i] != ' ' { assert IsDigit(d[i]); }
    }
    SplitAllCons(d, ' ', tail);
  }

  /**
   * `windowCount` is the number in the leftmost `<digits> window` match, or 1
   * when there is no match or the number does not fit in an `Int`.
   */
  lemma WindowCountSpec(rest: string)
    ensures WindowDigits(rest).None? ==> WindowCount(rest) == 1
    ensures WindowDigits(rest).Some? ==>
      var d := WindowDigits(rest).value;
      AllDigits(d) && WindowCount(rest) == (if DigitsValue(d) <= IntMax then DigitsValue(d) else 1)
  {
    WindowMatchShape(rest);
    if WindowDigits(rest).Some? {
      var d := WindowDigits(rest).value;
      var m := WindowMatch(rest).value;
      assert m == d + " " + m[|d| + 1..] by {
        assert m[..|d| + 7] == d + " window";
        assert m[|d|] == ' ';
        assert m[..|d|] == d;
      }
      FirstWordOfMatch(d, m[|d| + 1..]);
      if DigitsValue(d) <= IntMax {
        ParseDigits(d);
      } else {
        assert ParseInt(d).None? by {
          assert d[0] != '+' && d[0] != '-' by { assert IsDigit(d[0]); }
        }
      }
    }
  }

  /** What `LazyClose` finds: a `)` after at least one character, with no line terminator before it. */
  lemma {:induction false} LazyCloseSpec(t: string, k: nat)
    requires k >= 1 && LazyClose(t, k).Some?
    ensures var j := LazyClose(t, k).value;
      (forall i | k - 1 <= i < j :: !IsNewline(t[i])) && (forall i | k <= i < j :: t[i] != ')')
    decreases |t| - k
  {
    if t[k] != ')' {
      LazyCloseSpec(t, k + 1);
    }
  }

  /**
   * A `(created …)` match is `(created `, a nonempty inner text with no line
   * terminator and no `)` after its first character, and the closing `)`.
   */
  lemma {:induction false} CreatedMatchShape(s: string) returns (inner: string)
    requires CreatedMatch(s).Some?
    ensures CreatedMatch(s).value == CreatedOpen + inner + ")"
    ensures |inner| >= 1 && (forall i | 0 <= i < |inner| :: !IsNewline(inner[i]))
    ensures forall i | 1 <= i < |inner| :: inner[i] != ')'
    decreases |s|
  {
    if CreatedOpen <= s && LazyClose(s[9..], 1).Some? {
      var t := s[9..];
      var j := LazyClose(t, 1).value;
      LazyCloseSpec(t, 1);
      inner := t[..j];
      assert s[..9 + j + 1] == CreatedOpen + inner + ")" by {
        assert s[..9] == CreatedOpen;
        assert s[9..9 + j] == inner;
        assert s[9 + j] == ')';
      }
    } else {
      inner := CreatedMatchShape(s[1..]);
    }
  }

  /**
   * `createdAt` is the text between `(created ` and the next `)`, whenever that
   * text does not itself start with `)` or hold another `(created `.
   */
  lemma CreatedAtInner(rest: string) returns (inner: string)
    requires CreatedMatch(rest).Some?
    ensures CreatedMatch(rest).value == CreatedOpen + inner + ")" && |inner| >= 1
    ensures inner[0] != ')' && !Contains(inner + ")", CreatedOpen) ==> CreatedAt(rest) == inner
  {
    inner := CreatedMatchShape(rest);
    var x := inner + ")";
    if inner[0] != ')' && !Contains(x, CreatedOpen) {
      assert CreatedOpen + inner + ")" == CreatedOpen + x;
      ReplaceAllPrefix(x, CreatedOpen, "");
      ReplaceAllAbsent(x, CreatedOpen, "");
      ReplaceCharByNothing(x, ')');
      RemoveCharConcat(inner, ")", ')');
      assert ')' !in inner;
      RemoveCharNoSep(inner, ')');
      assert RemoveChar(")", ')') == [];
      assert ReplaceAll(CreatedMatch(rest).value, CreatedOpen, "") == x;
      assert RemoveChar(x, ')') == inner;
    }
  }

  /** Without a `(created …)` group the creation text is empty. */
  lemma CreatedAtAbsent(rest: string)
    requires CreatedMatch(rest).None?
    ensures CreatedAt(rest) == ""
  {
  }

  /** Listing is a `compactMap`: it distributes over concatenation, so no sorting or reordering. */
  lemma {:induction false} ParseLinesConcat(a: seq<string>, b: seq<string>)
    ensures ParseLines(a + b) == ParseLines(a) + ParseLines(b)
  {
    if a == [] {
      assert a + b == b;
    } else {
      assert (a + b)[0] == a[0];
      assert (a + b)[1..] == a[1..] + b;
      ParseLinesConcat(a[1..], b);
    }
  }

  /** Every listed session comes from one line, and blank lines give nothing. */
  lemma {:induction false} ParseLinesSources(lines: seq<string>)
    ensures |ParseLines(lines)| <= |lines|
    ensures forall t | t in ParseLines(lines) ::
      exists l | l in lines :: ParseLine(Trim(l, WhitespacesAndNewlines)) == Some(t)
  {
    if lines != [] {
      ParseLinesSources(lines[1..]);
      var head := LineEntry(lines[0]);
      forall t | t in ParseLines(lines)
        ensures exists l' | l' in lines :: ParseLine(Trim(l', WhitespacesAndNewlines)) == Some(t)
      {
        if t in head {
          assert lines[0] in lines;
        } else {
          assert t in ParseLines(lines[1..]);
          var l' :| l' in lines[1..] && ParseLine(Trim(l', WhitespacesAndNewlines)) == Some(t);
          assert l' in lines;
        }
      }
    }
  }

  /** A line of blanks lists nothing. */
  lemma BlankLineSkipped(l: string)
    requires Blank(l, WhitespacesAndNewlines)
    ensures ParseLines([l]) == []
  {
    var _ := TrimSpec(l, WhitespacesAndNewlines);
  }

  /** A line without `:` is skipped: `parseLine` needs two pieces. */
  lemma NoColonNoSession(line: string)
    requires ':' !in line
    ensures ParseLine(line).None?
  {
    SplitOnceSpec(line, ':');
  }
}
