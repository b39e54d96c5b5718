/**
 * The arithmetic of the usage overlay
 * (ShinobiTerm/ShinobiTerm/Views/ClaudeUsageOverlayView.swift): the reset
 * countdown text, the remaining balance with its colour, and the clamped
 * usage ratio with its bar colour. `Double` is `real`.
 */
module ClaudeUsageOverlay {
  import opened Wrappers
  import opened SwiftText

  datatype Tint = Blue | Orange | Red

  /** How alarming a tint is: blue, then orange, then red. */
  function Severity(t: Tint): nat {
    match t
    case Blue => 0
    case Orange => 1
    case Red => 2
  }

  // ------------------------------------------------------------ reset time

  /** Whole hours and the minutes left over in `r` seconds. */
  function HoursMinutes(r: nat): (hm: (nat, nat))
    ensures hm.1 < 60
    ensures hm.0 * 3600 + hm.1 * 60 <= r < hm.0 * 3600 + hm.1 * 60 + 60
  {
    (r / 3600, (r % 3600) / 60)
  }

  /**
   * `remainingTimeText`. `remaining` is the number of seconds until the reset,
   * or `None` when the timestamp is absent or does not parse.
   */
  function RemainingTimeText(remaining: Option<real>): string {
    match remaining
    case None => ""
    case Some(t) =>
      if t <= 0.0 then "Reset complete"
      else if t <= 60.0 then "Resets soon"
      else
        var hm := HoursMinutes(t.Floor);
        if hm.0 > 0 then "Resets in " + NatToString(hm.0) + "h " + NatToString(hm.1) + "m"
        else "Resets in " + NatToString(hm.1) + "m"
  }

  /** The text is empty exactly when there is no usable timestamp. */
  lemma RemainingTimeEmpty(remaining: Option<real>)
    ensures RemainingTimeText(remaining) == [] <==> remaining.None?
  {
  }

  lemma RemainingTimeShort(t: real)
    ensures t <= 0.0 ==> RemainingTimeText(Some(t)) == "Reset complete"
    ensures 0.0 < t <= 60.0 ==> RemainingTimeText(Some(t)) == "Resets soon"
  {
  }

  /**
   * Past a minute the countdown names the whole hours, when there are any, and
   * the leftover minutes of the truncated remaining time; with no hours at
   * least one minute is shown.
   */
  lemma RemainingTimeLong(t: real) returns (h: nat, m: nat)
    requires t > 60.0
    ensures m < 60 && h * 3600 + m * 60 <= t.Floor < h * 3600 + m * 60 + 60
    ensures h > 0 ==> RemainingTimeText(Some(t)) == "Resets in " + NatToString(h) + "h " + NatToString(m) + "m"
    ensures h == 0 ==> m >= 1 && RemainingTimeText(Some(t)) == "Resets in " + NatToString(m) + "m"
  {
    var r: nat := t.Floor;
    h, m := HoursMinutes(r).0, HoursMinutes(r).1;
  }

  // ------------------------------------------------------------ balance

  function Max(a: real, b: real): real {
    if a >= b then a else b
  }

  function Min(a: real, b: real): real {
    if a <= b then a else b
  }

  /** What is left of the allowance: 100 less the larger utilization, but never negative. */
  function Balance(fiveHour: real, sevenDay: real): (r: real)
    ensures r >= 0.0
    ensures r == 0.0 <==> fiveHour >= 100.0 || sevenDay >= 100.0
    ensures r > 0.0 ==> r <= 100.0 - fiveHour && r <= 100.0 - sevenDay
    ensures r == 0.0 || r == 100.0 - fiveHour || r == 100.0 - sevenDay
  {
    Max(100.0 - Max(fiveHour, sevenDay), 0.0)
  }

  function BalanceTint(balance: real): Tint {
    if balance >= 50.0 then Blue else if balance >= 20.0 then Orange else Red
  }

  /** The balance tint thresholds. */
  lemma BalanceTintSpec(b: real)
    ensures BalanceTint(b) == Blue <==> b >= 50.0
    ensures BalanceTint(b) == Orange <==> 20.0 <= b < 50.0
    ensures BalanceTint(b) == Red <==> b < 20.0
  {
  }

  /** More usage never makes the balance look less alarming. */
  lemma BalanceTintMonotone(f1: real, s1: real, f2: real, s2: real)
    requires f1 <= f2 && s1 <= s2
    ensures Severity(BalanceTint(Balance(f1, s1))) <= Severity(BalanceTint(Balance(f2, s2)))
  {
    var b1, b2 := Balance(f1, s1), Balance(f2, s2);
    assert b2 <= b1;
  }

  // ------------------------------------------------------------ usage bars

  /** The ratio a bar shows, forced into [0, 1]. */
  function ClampRatio(x: real): (r: real)
    ensures 0.0 <= r <= 1.0
    ensures 0.0 <= x <= 1.0 ==> r == x
    ensures x < 0.0 ==> r == 0.0
    ensures x > 1.0 ==> r == 1.0
  {
    Min(Max(x, 0.0), 1.0)
  }

  /** The percentage printed beside a bar, truncated. */
  function UsedPercent(ratio: real): (p: int)
    ensures 0 <= p <= 100
    ensures p as real <= ClampRatio(ratio) * 100.0 < p as real + 1.0
  {
    (ClampRatio(ratio) * 100.0).Floor
  }

  function BarTint(ratio: real): Tint {
    if ratio >= 0.8 then Red else if ratio >= 0.5 then Orange else Blue
  }

  lemma BarTintSpec(ratio: real)
    ensures BarTint(ratio) == Red <==> ratio >= 0.8
    ensures BarTint(ratio) == Orange <==> 0.5 <= ratio < 0.8
    ensures BarTint(ratio) == Blue <==> ratio < 0.5
  {
  }

  /** A fuller bar never has a less alarming colour. */
  lemma BarTintMonotone(x: real, y: real)
    requires x <= y
    ensures Severity(BarTint(ClampRatio(x))) <= Severity(BarTint(ClampRatio(y)))
  {
    assert ClampRatio(x) <= ClampRatio(y);
  }
}
