/**
 * The Swift and Foundation string operations the app's parsers are built from,
 * with the semantics of the library calls they stand for:
 *  - `String.utf8` (UTF-8, RFC 3629) for `Data(string.utf8)`;
 *  - `trimmingCharacters(in:)` with `.whitespaces` / `.whitespacesAndNewlines`;
 *  - `split(separator:maxSplits:)` with its default `omittingEmptySubsequences: true`;
 *  - `contains(_:)`, `replacingOccurrences(of:with:)`;
 *  - `Int(_: String)` (optional sign, ASCII digits, 64-bit range) and `String(_: Int)`.
 * A Swift `String` is a sequence of grapheme clusters; here it is a sequence of
 * Unicode scalars (`seq<char>`).
 */
module SwiftText {
  import opened Wrappers

  type Byte = b: int | 0 <= b < 256

  // ---------------------------------------------------------------- UTF-8

  /** The UTF-8 encoding of one Unicode scalar value. */
  function EncodeScalar(c: char): (r: seq<Byte>)
    ensures 1 <= |r| <= 4
    ensures |r| == 1 <==> (c as int) < 0x80
    ensures (c as int) < 0x80 ==> r == [c as int]
  {
    var n := c as int;
    if n < 0x80 then [n]
    else if n < 0x800 then [0xC0 + n / 0x40, 0x80 + n % 0x40]
    else if n < 0x1_0000 then [0xE0 + n / 0x1000, 0x80 + (n / 0x40) % 0x40, 0x80 + n % 0x40]
    else [0xF0 + n / 0x4_0000, 0x80 + (n / 0x1000) % 0x40, 0x80 + (n / 0x40) % 0x40, 0x80 + n % 0x40]
  }

  /** `Data(s.utf8)`. */
  function Utf8(s: string): (r: seq<Byte>)
    ensures |r| >= |s|
  {
    if s == [] then [] else EncodeScalar(s[0]) + Utf8(s[1..])
  }

  predicate IsAscii(s: string) {
    forall i | 0 <= i < |s| :: (s[i] as int) < 0x80
  }

  /** Encoding a concatenation encodes the parts one after the other. */
  lemma {:induction false} Utf8Concat(a: string, b: string)
    ensures Utf8(a + b) == Utf8(a) + Utf8(b)
  {
    if a == [] {
      assert a + b == b;
    } else {
      var e := EncodeScalar(a[0]);
      calc {
        Utf8(a + b);
        { assert (a + b)[0] == a[0] && (a + b)[1..] == a[1..] + b; }
        e + Utf8(a[1..] + b);
        { Utf8Concat(a[1..], b); }
        e + (Utf8(a[1..]) + Utf8(b));
        (e + Utf8(a[1..])) + Utf8(b);
        Utf8(a) + Utf8(b);
      }
    }
  }

  /** An ASCII string encodes to its code points, one byte per character. */
  lemma {:induction false} Utf8Ascii(s: string)
    requires IsAscii(s)
    ensures |Utf8(s)| == |s|
    ensures forall i | 0 <= i < |s| :: Utf8(s)[i] == s[i] as int
  {
    if s != [] {
      Utf8Ascii(s[1..]);
    }
  }

  // ------------------------------------------------------------- trimming

  /** Foundation's `CharacterSet.whitespaces`: general category Zs and U+0009. */
  predicate IsWhitespace(c: char) {
    c == '\t' || c == ' ' || c == '\U{00A0}' || c == '\U{1680}'
    || ('\U{2000}' <= c <= '\U{200A}') || c == '\U{202F}' || c == '\U{205F}' || c == '\U{3000}'
  }

  /** Foundation's `CharacterSet.newlines`: U+000A to U+000D, U+0085, U+2028, U+2029. */
  predicate IsNewline(c: char) {
    ('\n' <= c <= '\r') || c == '\U{0085}' || c == '\U{2028}' || c == '\U{2029}'
  }

  datatype CharClass = Whitespaces | WhitespacesAndNewlines

  predicate InClass(c: char, k: CharClass) {
    match k
    case Whitespaces => IsWhitespace(c)
    case WhitespacesAndNewlines => IsWhitespace(c) || IsNewline(c)
  }

  /** Drops the longest prefix of characters in `k`. */
  function TrimLeading(s: string, k: CharClass): (r: string)
    ensures |r| <= |s| && r == s[|s| - |r|..]
    ensures forall i | 0 <= i < |s| - |r| :: InClass(s[i], k)
    ensures r == [] || !InClass(r[0], k)
  {
    if s != [] && InClass(s[0], k) then TrimLeading(s[1..], k) else s
  }

  /** Drops the longest suffix of characters in `k`. */
  function TrimTrailing(s: string, k: CharClass): (r: string)
    ensures |r| <= |s| && r == s[..|r|]
    ensures forall i | |r| <= i < |s| :: InClass(s[i], k)
    ensures r == [] || !InClass(r[|r| - 1], k)
  {
    if s != [] && InClass(s[|s| - 1], k) then TrimTrailing(s[..|s| - 1], k) else s
  }

  /** `s.trimmingCharacters(in: k)`. */
  function Trim(s: string, k: CharClass): string {
    TrimTrailing(TrimLeading(s, k), k)
  }

  predicate Blank(s: string, k: CharClass) {
    forall i | 0 <= i < |s| :: InClass(s[i], k)
  }

  /**
   * Trimming leaves a slice of the input with no class character at either
   * end, and removes only class characters; it is empty exactly for blank input.
   */
  lemma TrimSpec(s: string, k: CharClass) returns (i: nat)
    ensures var r := Trim(s, k);
      && (r == [] <==> Blank(s, k))
      && (r == [] || (!InClass(r[0], k) && !InClass(r[|r| - 1], k)))
      && i + |r| <= |s| && r == s[i..i + |r|]
  {
    TrimBlank(s, k);
    TrimEnds(s, k);
    i := TrimSlice(s, k);
  }

  lemma TrimEnds(s: string, k: CharClass)
    ensures var r := Trim(s, k);
      r == [] || (!InClass(r[0], k) && !InClass(r[|r| - 1], k))
  {
    var l := TrimLeading(s, k);
    var r := TrimTrailing(l, k);
    if r != [] {
      assert r[0] == l[0];
    }
  }

  lemma TrimSlice(s: string, k: CharClass) returns (i: nat)
    ensures var r := Trim(s, k);
      i + |r| <= |s| && r == s[i..i + |r|]
  {
    var l := TrimLeading(s, k);
    var r := TrimTrailing(l, k);
    i := |s| - |l|;
    assert l == s[i..] && r == l[..|r|];
  }

  /** Only blank input trims to nothing: a nonempty trim would leave no character left of the class. */
  lemma TrimBlank(s: string, k: CharClass)
    ensures Trim(s, k) == [] <==> Blank(s, k)
  {
  }

  /** Trimming a string whose ends are not in the class changes nothing. */
  lemma TrimNoop(s: string, k: CharClass)
    requires s == [] || (!InClass(s[0], k) && !InClass(s[|s| - 1], k))
    ensures Trim(s, k) == s
  {
  }

  // ------------------------------------------------------------ splitting

  /** Drops the leading run of `sep`. */
  function SkipSeparators(s: string, sep: char): (r: string)
    ensures |r| <= |s| && r == s[|s| - |r|..]
    ensures forall i | 0 <= i < |s| - |r| :: s[i] == sep
    ensures r == [] || r[0] != sep
  {
    if s != [] && s[0] == sep then SkipSeparators(s[1..], sep) else s
  }

  /** Index of the first `c` in `s`, or `|s|` when there is none. */
  function IndexOf(s: string, c: char): (i: nat)
    ensures i <= |s|
    ensures i < |s| ==> s[i] == c
    ensures forall j | 0 <= j < i :: s[j] != c
  {
    if s == [] then 0 else if s[0] == c then 0 else 1 + IndexOf(s[1..], c)
  }

  /**
   * `s.split(separator: sep, maxSplits: 1)`: empty pieces are skipped and do
   * not count as a split, so leading separators vanish and the second piece is
   * everything after the first separator that follows a nonempty piece.
   */
  function SplitOnce(s: string, sep: char): (parts: seq<string>)
    ensures |parts| <= 2
    ensures forall p | p in parts :: p != []
  {
    var t := SkipSeparators(s, sep);
    if t == [] then []
    else
      var i := IndexOf(t, sep);
      if i + 1 >= |t| then [t[..i]] else [t[..i], t[i + 1..]]
  }

  /**
   * What `SplitOnce` returns: nothing for a string of separators only; else a
   * first piece free of `sep` and, when anything follows its separator, that rest.
   */
  lemma SplitOnceSpec(s: string, sep: char)
    ensures var parts := SplitOnce(s, sep);
      var t := SkipSeparators(s, sep);
      && (parts == [] <==> forall i | 0 <= i < |s| :: s[i] == sep)
      && (|parts| >= 1 ==> sep !in parts[0])
      && (|parts| == 1 ==> t == parts[0] || t == parts[0] + [sep])
      && (|parts| == 2 ==> t == parts[0] + [sep] + parts[1])
  {
    var t := SkipSeparators(s, sep);
    if t != [] {
      var i := IndexOf(t, sep);
      assert sep !in t[..i] by {
        forall j | 0 <= j < i ensures t[..i][j] != sep { assert t[..i][j] == t[j]; }
      }
      if i == |t| {
        assert t[..i] == t;
      } else {
        SplitAt(t, i);
        if i + 1 == |t| {
          assert t[i + 1..] == [];
        }
      }
    } else {
      assert forall i | 0 <= i < |s| :: s[i] == sep;
    }
  }

  /** `s.split(separator: sep)`: the maximal nonempty runs without `sep`, in order. */
  function SplitAll(s: string, sep: char): (parts: seq<string>)
    ensures forall p | p in parts :: p != [] && sep !in p
    decreases |s|
  {
    var t := SkipSeparators(s, sep);
    if t == [] then []
    else
      var i := IndexOf(t, sep);
      assert sep !in t[..i] by {
        forall j | 0 <= j < i ensures t[..i][j] != sep { assert t[..i][j] == t[j]; }
      }
      [t[..i]] + (if i == |t| then [] else SplitAll(t[i + 1..], sep))
  }

  /** Every character of `s` except `c`, in order. */
  function RemoveChar(s: string, c: char): (r: string)
    ensures c !in r
    ensures |r| <= |s|
  {
    if s == [] then [] else (if s[0] == c then [] else [s[0]]) + RemoveChar(s[1..], c)
  }

  function Concat(parts: seq<string>): string {
    if parts == [] then [] else parts[0] + Concat(parts[1..])
  }

  /** Splitting loses exactly the separators: the pieces put back together are `s` without `sep`. */
  lemma {:induction false} SplitAllContents(s: string, sep: char)
    ensures Concat(SplitAll(s, sep)) == RemoveChar(s, sep)
    decreases |s|
  {
    var t := SkipSeparators(s, sep);
    RemoveSeparatorPrefix(s, sep, |s| - |t|);
    if t != [] {
      var i := IndexOf(t, sep);
      var p := t[..i];
      assert sep !in p by {
        forall j | 0 <= j < i ensures p[j] != sep { assert p[j] == t[j]; }
      }
      RemoveCharNoSep(p, sep);
      if i == |t| {
        assert p == t;
        assert SplitAll(s, sep) == [p];
        ConcatCons(p, []);
      } else {
        var rest := t[i + 1..];
        SplitAt(t, i);
        SplitAllContents(rest, sep);
        SplitStep(t, p, rest, sep);
        var tail := SplitAll(rest, sep);
        assert SplitAll(s, sep) == [p] + tail;
        ConcatCons(p, tail);
        assert Concat(SplitAll(s, sep)) == p + Concat(tail);
        assert RemoveChar(s, sep) == RemoveChar(t, sep);
        assert RemoveChar(t, sep) == p + RemoveChar(rest, sep);
      }
    }
  }

  /** A string is the part before position `i`, the character there, and the part after. */
  lemma SplitAt(t: string, i: nat)
    requires i < |t|
    ensures t == t[..i] + [t[i]] + t[i + 1..]
  {
  }

  lemma ConcatCons(p: string, tail: seq<string>)
    ensures Concat([p] + tail) == p + Concat(tail)
  {
    assert ([p] + tail)[1..] == tail;
  }

  lemma {:induction false} SplitStep(t: string, p: string, rest: string, sep: char)
    requires t == p + [sep] + rest
    ensures RemoveChar(t, sep) == RemoveChar(p, sep) + RemoveChar(rest, sep)
  {
    var u := [sep] + rest;
    assert t == p + u;
    RemoveCharConcat(p, u, sep);
    assert u[0] == sep && u[1..] == rest;
  }

  lemma {:induction false} RemoveCharConcat(a: string, b: string, c: char)
    ensures RemoveChar(a + b, c) == RemoveChar(a, c) + RemoveChar(b, c)
  {
    if a != [] {
      assert (a + b)[1..] == a[1..] + b;
      RemoveCharConcat(a[1..], b, c);
    } else {
      assert a + b == b;
    }
  }

  /** One occurrence of `c` more or less makes no difference once every `c` is removed. */
  lemma RemoveCharDropsOne(a: string, b: string, c: char)
    ensures RemoveChar(a + [c] + b, c) == RemoveChar(a + b, c)
  {
    var ra, rb := RemoveChar(a, c), RemoveChar(b, c);
    assert RemoveChar([c], c) == [] by {
      assert [c][1..] == [];
    }
    calc {
      RemoveChar(a + [c] + b, c);
      { RemoveCharConcat(a + [c], b, c); }
      RemoveChar(a + [c], c) + rb;
      { RemoveCharConcat(a, [c], c); }
      ra + [] + rb;
      { assert ra + [] == ra; }
      ra + rb;
      { RemoveCharConcat(a, b, c); }
      RemoveChar(a + b, c);
    }
  }

  lemma {:induction false} RemoveCharNoSep(a: string, c: char)
    requires c !in a
    ensures RemoveChar(a, c) == a
  {
    if a != [] {
      RemoveCharNoSep(a[1..], c);
    }
  }

  lemma {:induction false} RemoveSeparatorPrefix(s: string, c: char, n: nat)
    requires n <= |s|
    requires forall i | 0 <= i < n :: s[i] == c
    ensures RemoveChar(s, c) == RemoveChar(s[n..], c)
  {
    if n > 0 {
      RemoveSeparatorPrefix(s[1..], c, n - 1);
      assert s[1..][n - 1..] == s[n..];
    }
  }

  /** A nonempty separator-free piece followed by the separator splits off as the first piece. */
  lemma SplitAllCons(p: string, sep: char, rest: string)
    requires p != [] && sep !in p
    ensures SplitAll(p + [sep] + rest, sep) == [p] + SplitAll(rest, sep)
  {
    var s := p + [sep] + rest;
    assert s[0] == p[0];
    assert SkipSeparators(s, sep) == s;
    var i := IndexOf(s, sep);
    assert forall j | 0 <= j < |p| :: s[j] == p[j];
    assert s[|p|] == sep;
    assert i == |p|;
    assert s[..i] == p;
    assert s[i + 1..] == rest;
  }

  // -------------------------------------------------------- searching

  /** `s.contains(sub)`. */
  predicate Contains(s: string, sub: string)
    decreases |s|
  {
    sub <= s || (s != [] && Contains(s[1..], sub))
  }

  /** `sub` occurring at position `i` makes `Contains` true. */
  lemma {:induction false} ContainsAt(s: string, sub: string, i: nat)
    requires i + |sub| <= |s| && s[i..i + |sub|] == sub
    ensures Contains(s, sub)
  {
    if i > 0 {
      assert s[1..][i - 1..i - 1 + |sub|] == s[i..i + |sub|];
      ContainsAt(s[1..], sub, i - 1);
    } else {
      assert sub <= s;
    }
  }

  /** `Contains` holds only when `sub` occurs at some position. */
  lemma {:induction false} ContainsWitness(s: string, sub: string) returns (i: nat)
    requires Contains(s, sub)
    ensures i + |sub| <= |s| && s[i..i + |sub|] == sub
    decreases |s|
  {
    if sub <= s {
      i := 0;
    } else {
      var j := ContainsWitness(s[1..], sub);
      i := j + 1;
      assert s[i..i + |sub|] == s[1..][j..j + |sub|];
    }
  }

  /** Nothing longer than `s` occurs in it. */
  lemma ContainsShorter(s: string, sub: string)
    requires |s| < |sub|
    ensures !Contains(s, sub)
  {
    if Contains(s, sub) {
      var _ := ContainsWitness(s, sub);
    }
  }

  /** `s.replacingOccurrences(of: pat, with: rep)`: left to right, without overlap. */
  function ReplaceAll(s: string, pat: string, rep: string): string
    requires pat != []
    decreases |s|
  {
    if s == [] then []
    else if pat <= s then rep + ReplaceAll(s[|pat|..], pat, rep)
    else [s[0]] + ReplaceAll(s[1..], pat, rep)
  }

  /** Without an occurrence of the pattern, replacing changes nothing. */
  lemma {:induction false} ReplaceAllAbsent(s: string, pat: string, rep: string)
    requires pat != [] && !Contains(s, pat)
    ensures ReplaceAll(s, pat, rep) == s
    decreases |s|
  {
    if s != [] {
      ReplaceAllAbsent(s[1..], pat, rep);
      assert s == [s[0]] + s[1..];
    }
  }

  /** A leading occurrence is replaced and the scan goes on after it. */
  lemma ReplaceAllPrefix(s: string, pat: string, rep: string)
    requires pat != []
    ensures ReplaceAll(pat + s, pat, rep) == rep + ReplaceAll(s, pat, rep)
  {
    assert pat <= pat + s;
    assert (pat + s)[|pat|..] == s;
  }

  /** Every `c` replaced by `rep`, every other character kept. */
  function MapChar(s: string, c: char, rep: string): string {
    if s == [] then [] else (if s[0] == c then rep else [s[0]]) + MapChar(s[1..], c, rep)
  }

  /** Replacing a one-character pattern maps each character independently. */
  lemma {:induction false} ReplaceCharIsMap(s: string, c: char, rep: string)
    ensures ReplaceAll(s, [c], rep) == MapChar(s, c, rep)
  {
    if s != [] {
      ReplaceCharIsMap(s[1..], c, rep);
      if s[0] == c {
        assert [c] <= s;
      } else {
        assert !([c] <= s);
      }
    }
  }

  /** Replacing a character by nothing removes it. */
  lemma {:induction false} ReplaceCharByNothing(s: string, c: char)
    ensures ReplaceAll(s, [c], "") == RemoveChar(s, c)
  {
    ReplaceCharIsMap(s, c, "");
    MapCharEmpty(s, c);
  }

  lemma {:induction false} MapCharEmpty(s: string, c: char)
    ensures MapChar(s, c, "") == RemoveChar(s, c)
  {
    if s != [] {
      MapCharEmpty(s[1..], c);
    }
  }

  function CountChar(s: string, c: char): nat {
    if s == [] then 0 else (if s[0] == c then 1 else 0) + CountChar(s[1..], c)
  }

  // ------------------------------------------------------------ integers

  const IntMin: int := -0x8000_0000_0000_0000
  const IntMax: int := 0x7FFF_FFFF_FFFF_FFFF

  predicate IsDigit(c: char) {
    '0' <= c <= '9'
  }

  predicate AllDigits(s: string) {
    forall i | 0 <= i < |s| :: IsDigit(s[i])
  }

  function DigitValue(c: char): nat
    requires IsDigit(c)
  {
    c as int - '0' as int
  }

  /** The decimal value of a string of ASCII digits. */
  function DigitsValue(s: string): nat
    requires AllDigits(s)
    decreases |s|
  {
    if s == [] then 0 else 10 * DigitsValue(s[..|s| - 1]) + DigitValue(s[|s| - 1])
  }

  /** `Int(s)`: an optional `+`/`-`, then one or more ASCII digits, within 64 bits. */
  function ParseInt(s: string): (r: Option<int>)
    ensures r.Some? ==> IntMin <= r.value <= IntMax
    ensures s == [] ==> r.None?
  {
    var signed := s != [] && (s[0] == '+' || s[0] == '-');
    var digits := if signed then s[1..] else s;
    if digits == [] || !AllDigits(digits) then None
    else
      var d: int := DigitsValue(digits);
      var v := if signed && s[0] == '-' then -d else d;
      if IntMin <= v <= IntMax then Some(v) else None
  }

  function DigitChar(d: nat): (c: char)
    requires d < 10
    ensures IsDigit(c) && DigitValue(c) == d
  {
    ('0' as int + d) as char
  }

  /** The decimal digits of `n`, without leading zeros. */
  function NatToString(n: nat): (r: string)
    ensures r != [] && AllDigits(r)
  {
    if n < 10 then [DigitChar(n)] else NatToString(n / 10) + [DigitChar(n % 10)]
  }

  /** `String(n)` and `"\(n)"`. */
  function IntToString(n: int): string {
    if n < 0 then "-" + NatToString(-n) else NatToString(n)
  }

  lemma {:induction false} NatToStringValue(n: nat)
    ensures DigitsValue(NatToString(n)) == n
  {
    if n >= 10 {
      var s := NatToString(n);
      assert s[..|s| - 1] == NatToString(n / 10);
      NatToStringValue(n / 10);
    }
  }

  /** `Int(String(n)) == n` for every 64-bit `n`. */
  lemma ParseIntToString(n: int)
    requires IntMin <= n <= IntMax
    ensures ParseInt(IntToString(n)) == Some(n)
  {
    if n < 0 {
      var d := NatToString(-n);
      NatToStringValue(-n);
      var s := IntToString(n);
      assert s == "-" + d;
      assert s[0] == '-' && s[1..] == d by {
        assert ("-" + d)[1..] == d;
      }
    } else {
      var d := NatToString(n);
      NatToStringValue(n);
      assert d[0] != '-' && d[0] != '+' by {
        assert IsDigit(d[0]);
      }
    }
  }

  /** A plain digit string within range parses to its decimal value. */
  lemma ParseDigits(s: string)
    requires s != [] && AllDigits(s) && DigitsValue(s) <= IntMax
    ensures ParseInt(s) == Some(DigitsValue(s))
  {
    assert IsDigit(s[0]);
  }
}
