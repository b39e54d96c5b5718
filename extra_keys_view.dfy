/**
 * The extra-keys bar above the keyboard
 * (ShinobiTerm/ShinobiTerm/Views/ExtraKeysView.swift): its ten keys, their
 * labels and font sizes, and the bytes each key sends.
 */
module ExtraKeys {
  import opened Wrappers
  import opened SwiftText

  datatype ExtraKey = Esc | Ctrl | Alt | Tab | Tilde | Pipe | ArrowUp | ArrowDown | ArrowLeft | ArrowRight

  const EscByte: Byte := 0x1B

  /** A control sequence `ESC [ final` (CSI, section 5.4 of ECMA-48). */
  function Csi(final: char): (r: seq<Byte>)
    requires final as int < 128
    ensures |r| == 3 && r[0] == EscByte && r[1] == '[' as int && r[2] == final as int
  {
    [EscByte, '[' as int, final as int]
  }

  predicate IsArrow(k: ExtraKey) {
    k.ArrowUp? || k.ArrowDown? || k.ArrowLeft? || k.ArrowRight?
  }

  predicate IsModifier(k: ExtraKey) {
    k.Ctrl? || k.Alt?
  }

  function Label(k: ExtraKey): string {
    match k
    case Esc => "Esc"
    case Ctrl => "Ctrl"
    case Alt => "Alt"
    case Tab => "Tab"
    case Tilde => "~"
    case Pipe => "|"
    case ArrowUp => "\U{2191}"
    case ArrowDown => "\U{2193}"
    case ArrowLeft => "\U{2190}"
    case ArrowRight => "\U{2192}"
  }

  /** The key a label belongs to, if any. */
  function KeyOfLabel(s: string): Option<ExtraKey> {
    if s == "Esc" then Some(Esc)
    else if s == "Ctrl" then Some(Ctrl)
    else if s == "Alt" then Some(Alt)
    else if s == "Tab" then Some(Tab)
    else if s == "~" then Some(Tilde)
    else if s == "|" then Some(Pipe)
    else if s == "\U{2191}" then Some(ArrowUp)
    else if s == "\U{2193}" then Some(ArrowDown)
    else if s == "\U{2190}" then Some(ArrowLeft)
    else if s == "\U{2192}" then Some(ArrowRight)
    else None
  }

  function FontSize(k: ExtraKey): int {
    match k
    case Tilde | Pipe => 15
    case ArrowUp | ArrowDown | ArrowLeft | ArrowRight => 14
    case _ => 13
  }

  /** The bytes the key sends; the modifiers send nothing themselves. */
  function Sequence(k: ExtraKey): seq<Byte> {
    match k
    case Esc => [0x1B]
    case Tab => [0x09]
    case Tilde => Utf8("~")
    case Pipe => Utf8("|")
    case ArrowUp => [0x1B, 0x5B, 0x41]
    case ArrowDown => [0x1B, 0x5B, 0x42]
    case ArrowRight => [0x1B, 0x5B, 0x43]
    case ArrowLeft => [0x1B, 0x5B, 0x44]
    case Ctrl | Alt => []
  }

  /** The keys in the order the bar shows them. */
  const AllKeys: seq<ExtraKey> :=
    [Esc, Ctrl, Alt, Tab, Tilde, Pipe, ArrowUp, ArrowDown, ArrowLeft, ArrowRight]

  // ------------------------------------------------------------ properties

  /**
   * The arrows send the cursor controls CUU, CUD, CUF and CUB of ECMA-48
   * (sections 8.3.22, 8.3.19, 8.3.20 and 8.3.18) without a parameter.
   */
  lemma ArrowsAreCursorControls()
    ensures Sequence(ArrowUp) == Csi('A') && Sequence(ArrowDown) == Csi('B')
    ensures Sequence(ArrowRight) == Csi('C') && Sequence(ArrowLeft) == Csi('D')
  {
  }

  /** Esc and Tab are their control codes; `~` and `|` are their ASCII bytes. */
  lemma SingleByteKeys()
    ensures Sequence(Esc) == [EscByte] && Sequence(Tab) == ['\t' as int]
    ensures Sequence(Tilde) == ['~' as int] && Sequence(Pipe) == ['|' as int]
  {
    Utf8Ascii("~");
    Utf8Ascii("|");
  }

  /** Exactly the modifiers send nothing. */
  lemma EmptyIffModifier(k: ExtraKey)
    ensures Sequence(k) == [] <==> IsModifier(k)
  {
    if k.Tilde? || k.Pipe? {
      SingleByteKeys();
    }
  }

  /** The label determines the key, so the labels are pairwise distinct. */
  lemma LabelRoundTrip(k: ExtraKey)
    ensures KeyOfLabel(Label(k)) == Some(k)
  {
  }

  lemma LabelsDistinct(a: ExtraKey, b: ExtraKey)
    ensures Label(a) == Label(b) ==> a == b
  {
    LabelRoundTrip(a);
    LabelRoundTrip(b);
  }

  /** The bar lists every key exactly once. */
  lemma AllKeysOnce()
    ensures |AllKeys| == 10
    ensures forall k: ExtraKey :: k in AllKeys
    ensures forall i, j | 0 <= i < j < |AllKeys| :: AllKeys[i] != AllKeys[j]
  {
    forall k: ExtraKey ensures k in AllKeys {
      var i := match k
        case Esc => 0 case Ctrl => 1 case Alt => 2 case Tab => 3 case Tilde => 4
        case Pipe => 5 case ArrowUp => 6 case ArrowDown => 7 case ArrowLeft => 8 case ArrowRight => 9;
      assert AllKeys[i] == k;
    }
  }

  /** So the bar's labels, its identities for display, are pairwise distinct too. */
  lemma BarLabelsDistinct(i: nat, j: nat)
    requires i < j < |AllKeys|
    ensures Label(AllKeys[i]) != Label(AllKeys[j])
  {
    AllKeysOnce();
    LabelsDistinct(AllKeys[i], AllKeys[j]);
  }

  lemma FontSizeSpec(k: ExtraKey)
    ensures FontSize(k) == 15 <==> k.Tilde? || k.Pipe?
    ensures FontSize(k) == 14 <==> IsArrow(k)
    ensures FontSize(k) == 13 <==> !(k.Tilde? || k.Pipe? || IsArrow(k))
  {
  }
}
