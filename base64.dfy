/**
 * Base 64 encoding with the standard alphabet and `=` padding (section 4 of
 * RFC 4648), as Foundation's `Data.base64EncodedString()` produces it, and
 * the matching decoder.
 */
module Base64 {
  import opened Wrappers
  import opened SwiftText

  /** The symbol for a 6-bit value: A-Z, a-z, 0-9, `+`, `/`. */
  function Sym(i: int): (c: char)
    requires 0 <= i < 64
    ensures IsSym(c) && SymIndex(c) == i
  {
    if i < 26 then ('A' as int + i) as char
    else if i < 52 then ('a' as int + (i - 26)) as char
    else if i < 62 then ('0' as int + (i - 52)) as char
    else if i == 62 then '+'
    else '/'
  }

  predicate IsSym(c: char) {
    ('A' <= c <= 'Z') || ('a' <= c <= 'z') || ('0' <= c <= '9') || c == '+' || c == '/'
  }

  /** The 6-bit value of a symbol. */
  function SymIndex(c: char): (i: int)
    requires IsSym(c)
    ensures 0 <= i < 64
  {
    if 'A' <= c <= 'Z' then c as int - 'A' as int
    else if 'a' <= c <= 'z' then c as int - 'a' as int + 26
    else if '0' <= c <= '9' then c as int - '0' as int + 52
    else if c == '+' then 62
    else 63
  }

  /** Characters an encoding may contain: the 64 symbols and the pad `=`. */
  predicate IsEncodingChar(c: char) {
    IsSym(c) || c == '='
  }

  /** A full group: three bytes as four symbols. */
  function EncodeThree(x: Byte, y: Byte, z: Byte): (r: string)
    ensures |r| == 4 && IsSym(r[0]) && IsSym(r[1]) && IsSym(r[2]) && IsSym(r[3])
  {
    GroupOfThree(x, y, z);
    [Sym(x / 4), Sym((x % 4) * 16 + y / 16), Sym((y % 16) * 4 + z / 64), Sym(z % 64)]
  }

  /** A last group of two bytes: three symbols and one pad. */
  function EncodeTwo(x: Byte, y: Byte): (r: string)
    ensures |r| == 4 && IsSym(r[0]) && IsSym(r[1]) && IsSym(r[2]) && r[3] == '='
  {
    GroupOfTwo(x, y);
    [Sym(x / 4), Sym((x % 4) * 16 + y / 16), Sym((y % 16) * 4), '=']
  }

  /** A last group of one byte: two symbols and two pads. */
  function EncodeOne(x: Byte): (r: string)
    ensures |r| == 4 && IsSym(r[0]) && IsSym(r[1]) && r[2] == '=' && r[3] == '='
  {
    GroupOfOne(x);
    [Sym(x / 4), Sym((x % 4) * 16), '=', '=']
  }

  /** Encodes three bytes at a time; a final one or two bytes get two or one `=`. */
  function Encode(b: seq<Byte>): (r: string)
    ensures |r| == 4 * ((|b| + 2) / 3)
    ensures forall i | 0 <= i < |r| :: IsEncodingChar(r[i])
    decreases |b|
  {
    if |b| == 0 then []
    else if |b| == 1 then EncodeOne(b[0])
    else if |b| == 2 then EncodeTwo(b[0], b[1])
    else
      LengthStep(|b|);
      EncodeThree(b[0], b[1], b[2]) + Encode(b[3..])
  }

  lemma LengthStep(n: nat)
    requires n >= 3
    ensures 4 + 4 * ((n - 3 + 2) / 3) == 4 * ((n + 2) / 3)
  {
  }

  /** Decodes one group of four characters; padding is accepted only in the last group. */
  function DecodeGroup(q: string, last: bool): Option<seq<Byte>>
    requires |q| == 4
  {
    if IsSym(q[0]) && IsSym(q[1]) && IsSym(q[2]) && IsSym(q[3]) then
      var a, b, c, d := SymIndex(q[0]), SymIndex(q[1]), SymIndex(q[2]), SymIndex(q[3]);
      Some([a * 4 + b / 16, (b % 16) * 16 + c / 4, (c % 4) * 64 + d])
    else if last && IsSym(q[0]) && IsSym(q[1]) && IsSym(q[2]) && q[3] == '=' then
      var a, b, c := SymIndex(q[0]), SymIndex(q[1]), SymIndex(q[2]);
      Some([a * 4 + b / 16, (b % 16) * 16 + c / 4])
    else if last && IsSym(q[0]) && IsSym(q[1]) && q[2] == '=' && q[3] == '=' then
      var a, b := SymIndex(q[0]), SymIndex(q[1]);
      Some([a * 4 + b / 16])
    else None
  }

  /** Decodes a padded encoding; `None` for a malformed one. */
  function Decode(s: string): Option<seq<Byte>>
    decreases |s|
  {
    if s == [] then Some([])
    else if |s| < 4 then None
    else
      match DecodeGroup(s[..4], |s| == 4)
      case None => None
      case Some(g) =>
        match Decode(s[4..])
        case None => None
        case Some(rest) => Some(g + rest)
  }

  lemma GroupOfThree(x: Byte, y: Byte, z: Byte)
    ensures var a, b, c, d := x / 4, (x % 4) * 16 + y / 16, (y % 16) * 4 + z / 64, z % 64;
      && 0 <= a < 64 && 0 <= b < 64 && 0 <= c < 64 && 0 <= d < 64
      && a * 4 + b / 16 == x && (b % 16) * 16 + c / 4 == y && (c % 4) * 64 + d == z
  {
  }

  lemma GroupOfTwo(x: Byte, y: Byte)
    ensures var a, b, c := x / 4, (x % 4) * 16 + y / 16, (y % 16) * 4;
      && 0 <= a < 64 && 0 <= b < 64 && 0 <= c < 64
      && a * 4 + b / 16 == x && (b % 16) * 16 + c / 4 == y
  {
  }

  lemma GroupOfOne(x: Byte)
    ensures var a, b := x / 4, (x % 4) * 16;
      && 0 <= a < 64 && 0 <= b < 64 && a * 4 + b / 16 == x
  {
  }

  lemma DecodeThree(x: Byte, y: Byte, z: Byte, last: bool)
    ensures DecodeGroup(EncodeThree(x, y, z), last) == Some([x, y, z])
  {
    GroupOfThree(x, y, z);
  }

  lemma DecodeTwo(x: Byte, y: Byte)
    ensures DecodeGroup(EncodeTwo(x, y), true) == Some([x, y])
  {
    GroupOfTwo(x, y);
  }

  lemma DecodeOne(x: Byte)
    ensures DecodeGroup(EncodeOne(x), true) == Some([x])
  {
    GroupOfOne(x);
  }

  /** Decoding peels off one group of four characters at a time. */
  lemma DecodeCons(head: string, rest: string, g: seq<Byte>)
    requires |head| == 4 && DecodeGroup(head, rest == []) == Some(g)
    ensures Decode(head + rest) == match Decode(rest) case None => None case Some(t) => Some(g + t)
  {
    var s := head + rest;
    assert s[..4] == head && s[4..] == rest;
  }

  /** Decoding an encoding gives back the bytes. */
  lemma {:induction false} DecodeEncode(b: seq<Byte>)
    ensures Decode(Encode(b)) == Some(b)
    decreases |b|
  {
    if |b| == 1 {
      DecodeOne(b[0]);
      LastGroup(EncodeOne(b[0]), [b[0]]);
      assert b == [b[0]];
    } else if |b| == 2 {
      DecodeTwo(b[0], b[1]);
      LastGroup(EncodeTwo(b[0], b[1]), [b[0], b[1]]);
      assert b == [b[0], b[1]];
    } else if |b| >= 3 {
      var rest := Encode(b[3..]);
      var head := EncodeThree(b[0], b[1], b[2]);
      assert Decode(rest) == Some(b[3..]) by { DecodeEncode(b[3..]); }
      assert Decode(head + rest) == Some([b[0], b[1], b[2]] + b[3..]) by {
        DecodeThree(b[0], b[1], b[2], rest == []);
        DecodeCons(head, rest, [b[0], b[1], b[2]]);
      }
      assert Encode(b) == head + rest;
      assert b == [b[0], b[1], b[2]] + b[3..];
    }
  }

  lemma LastGroup(q: string, g: seq<Byte>)
    requires |q| == 4 && DecodeGroup(q, true) == Some(g)
    ensures Decode(q) == Some(g)
  {
    DecodeCons(q, [], g);
    assert q + [] == q;
    assert g + [] == g;
  }

  /** The number of pad characters: none, or one or two for a short last group. */
  function PadCount(n: nat): nat {
    if n % 3 == 0 then 0 else 3 - n % 3
  }

  /** The encoding holds exactly `PadCount` `=` characters. */
  lemma {:induction false} EncodePadding(b: seq<Byte>)
    ensures CountChar(Encode(b), '=') == PadCount(|b|)
    decreases |b|
  {
    var e := Encode(b);
    if |b| == 1 || |b| == 2 {
      ShortGroupPadding(b);
    } else if |b| >= 3 {
      EncodePadding(b[3..]);
      var head := EncodeThree(b[0], b[1], b[2]);
      assert Encode(b) == head + Encode(b[3..]);
      CountCharConcat(head, Encode(b[3..]), '=');
      CountOfFour(head, '=');
      PadStep(|b|);
    }
  }

  lemma PadStep(n: nat)
    requires n >= 3
    ensures PadCount(n) == PadCount(n - 3)
  {
    assert (n - 3) % 3 == n % 3;
  }

  lemma ShortGroupPadding(b: seq<Byte>)
    requires 1 <= |b| <= 2
    ensures CountChar(Encode(b), '=') == 3 - |b|
  {
    CountOfFour(Encode(b), '=');
  }

  lemma CountOfFour(s: string, c: char)
    requires |s| == 4
    ensures CountChar(s, c) == (if s[0] == c then 1 else 0) + (if s[1] == c then 1 else 0)
      + (if s[2] == c then 1 else 0) + (if s[3] == c then 1 else 0)
  {
    var s1, s2, s3 := s[1..], s[2..], s[3..];
    assert s1[1..] == s2 && s2[1..] == s3 && s3[1..] == [];
    assert CountChar(s3, c) == (if s[3] == c then 1 else 0);
    assert CountChar(s2, c) == (if s[2] == c then 1 else 0) + CountChar(s3, c);
    assert CountChar(s1, c) == (if s[1] == c then 1 else 0) + CountChar(s2, c);
  }

  lemma {:induction false} CountCharConcat(a: string, b: string, c: char)
    ensures CountChar(a + b, c) == CountChar(a, c) + CountChar(b, c)
  {
    if a == [] {
      assert a + b == b;
    } else {
      assert (a + b)[1..] == a[1..] + b;
      CountCharConcat(a[1..], b, c);
    }
  }

  /** Removing a character shortens a string by the number of its occurrences. */
  lemma {:induction false} RemoveCharLength(s: string, c: char)
    ensures |RemoveChar(s, c)| == |s| - CountChar(s, c)
  {
    if s != [] {
      RemoveCharLength(s[1..], c);
    }
  }
}
