/**
 * The gesture coordinator of the read-mode overlay
 * (ShinobiTerm/ShinobiTerm/Views/ScrollOverlayView.swift): a one-finger pan
 * scrolls by whole text lines of 16 points and keeps what is left over, or
 * moves the zoomed view; two-finger pans, pinches and double taps are passed
 * on. `CGFloat` is `real`; what a handler passes to its callback is logged.
 * Each event carries the translation or scale since the previous one, since
 * the handlers reset the recognizer after reading it.
 */
module ScrollOverlay {
  const LineHeight: real := 16.0

  datatype GestureState = Began | Changed | Ended | Cancelled | Failed | Possible

  datatype Callback =
    | Scroll(lines: int)
    | ScrollEnded
    | Pinch(scale: real)
    | ZoomPan(x: real, y: real)
    | DoubleTap

  datatype Coord = Coord(isZoomed: bool, accumulatedDelta: real, calls: seq<Callback>)

  /** `Int(x)` for a `CGFloat`: truncation toward zero. */
  function Trunc(x: real): (n: int)
    ensures x >= 0.0 ==> 0 <= n && n as real <= x < n as real + 1.0
    ensures x < 0.0 ==> n as real - 1.0 < x <= n as real <= 0.0
  {
    if x >= 0.0 then x.Floor else -((-x).Floor)
  }

  /** The lines a pan of `a` accumulated points is worth, and what remains. */
  function Lines(a: real): int {
    Trunc(a / LineHeight)
  }

  // ------------------------------------------------------------ handlers

  function AfterSinglePan(c: Coord, st: GestureState, tx: real, ty: real): Coord {
    if c.isZoomed then
      if st == Changed then c.(calls := c.calls + [ZoomPan(tx, ty)]) else c
    else if st == Changed then
      var a := c.accumulatedDelta + ty;
      var lines := Lines(a);
      if lines != 0 then c.(calls := c.calls + [Scroll(-lines)], accumulatedDelta := a - lines as real * LineHeight)
      else c.(accumulatedDelta := a)
    else if st == Ended || st == Cancelled then
      c.(accumulatedDelta := 0.0, calls := c.calls + [ScrollEnded])
    else c
  }

  function AfterTwoPan(c: Coord, st: GestureState, tx: real, ty: real): Coord {
    if st == Changed then c.(calls := c.calls + [ZoomPan(tx, ty)]) else c
  }

  function AfterPinch(c: Coord, st: GestureState, scale: real): Coord {
    if st == Changed then c.(calls := c.calls + [Pinch(scale)]) else c
  }

  class Coordinator {
    var isZoomed: bool
    var accumulatedDelta: real
    var calls: seq<Callback>
    /** The pinch recognizer's scale, reset to 1 after each change is passed on. */
    var pinchScale: real

    function Snap(): Coord
      reads this
    {
      Coord(isZoomed, accumulatedDelta, calls)
    }

    constructor (zoomed: bool)
      ensures Snap() == Coord(zoomed, 0.0, []) && pinchScale == 1.0
    {
      isZoomed, accumulatedDelta, calls, pinchScale := zoomed, 0.0, [], 1.0;
    }

    /** `updateUIView`: the coordinator learns whether the terminal is zoomed. */
    method SetZoomed(zoomed: bool)
      modifies this
      ensures Snap() == old(Snap()).(isZoomed := zoomed) && pinchScale == old(pinchScale)
    {
      isZoomed := zoomed;
    }

    method HandleSinglePan(st: GestureState, tx: real, ty: real)
      modifies this
      ensures Snap() == AfterSinglePan(old(Snap()), st, tx, ty) && pinchScale == old(pinchScale)
    {
      if isZoomed {
        if st == Changed {
          calls := calls + [ZoomPan(tx, ty)];
        }
        return;
      }
      match st {
        case Changed =>
          accumulatedDelta := accumulatedDelta + ty;
          var lines := Trunc(accumulatedDelta / LineHeight);
          if lines != 0 {
            calls := calls + [Scroll(-lines)];
            accumulatedDelta := accumulatedDelta - lines as real * LineHeight;
          }
        case Ended =>
          accumulatedDelta := 0.0;
          calls := calls + [ScrollEnded];
        case Cancelled =>
          accumulatedDelta := 0.0;
          calls := calls + [ScrollEnded];
        case _ =>
      }
    }

    method HandleTwoPan(st: GestureState, tx: real, ty: real)
      modifies this
      ensures Snap() == AfterTwoPan(old(Snap()), st, tx, ty) && pinchScale == old(pinchScale)
    {
      if st == Changed {
        calls := calls + [ZoomPan(tx, ty)];
      }
    }

    /** The recognizer's current scale is passed on once, then reset to 1. */
    method HandlePinch(st: GestureState)
      modifies this
      ensures Snap() == AfterPinch(old(Snap()), st, old(pinchScale))
      ensures pinchScale == if st == Changed then 1.0 else old(pinchScale)
    {
      if st == Changed {
        calls := calls + [Pinch(pinchScale)];
        pinchScale := 1.0;
      }
    }

    /** The fingers spread or close by a factor of `f` since the last event. */
    method PinchMoved(f: real)
      modifies this
      ensures Snap() == old(Snap()) && pinchScale == old(pinchScale) * f
    {
      pinchScale := pinchScale * f;
    }

    method HandleDoubleTap()
      modifies this
      ensures Snap() == old(Snap()).(calls := old(calls) + [DoubleTap]) && pinchScale == old(pinchScale)
    {
      calls := calls + [DoubleTap];
    }
  }

  // ------------------------------------------------------------ properties

  /** Less than a line is ever left over after a change, whatever came before. */
  lemma RemainderBelowLine(c: Coord, tx: real, ty: real)
    requires !c.isZoomed
    ensures var r := AfterSinglePan(c, Changed, tx, ty);
      -LineHeight < r.accumulatedDelta < LineHeight
  {
    var a := c.accumulatedDelta + ty;
    var n := Lines(a);
    assert n as real * LineHeight <= a < (n as real + 1.0) * LineHeight || (n as real - 1.0) * LineHeight < a <= n as real * LineHeight;
  }

  /**
   * A change scrolls by at most one call, with a nonzero count of the opposite
   * sign to the accumulated movement: dragging down by a line or more calls
   * `onScroll` with a negative count, which the terminal screen sends as
   * cursor-down keys.
   */
  lemma ScrollDirection(c: Coord, tx: real, ty: real)
    requires !c.isZoomed
    ensures var r := AfterSinglePan(c, Changed, tx, ty);
      var a := c.accumulatedDelta + ty;
      && (|r.calls| == |c.calls| + 1 <==> a >= LineHeight || a <= -LineHeight)
      && (|r.calls| == |c.calls| ==> r.calls == c.calls && r.accumulatedDelta == a)
      && (|r.calls| == |c.calls| + 1 ==>
            r.calls == c.calls + [Scroll(-Lines(a))] && Lines(a) != 0 && (Lines(a) > 0 <==> a > 0.0))
  {
    var a := c.accumulatedDelta + ty;
    assert a >= LineHeight ==> Lines(a) >= 1;
    assert a <= -LineHeight ==> Lines(a) <= -1;
  }

  /** The sum of the scroll counts in a callback log. */
  function ScrolledLines(calls: seq<Callback>): int {
    if calls == [] then 0
    else ScrolledLines(calls[..|calls| - 1]) + (match calls[|calls| - 1] case Scroll(n) => n case _ => 0)
  }

  function Sum(ds: seq<real>): real {
    if ds == [] then 0.0 else Sum(ds[..|ds| - 1]) + ds[|ds| - 1]
  }

  /** A drag: a run of `.changed` events with these vertical translations. */
  function Drag(c: Coord, ds: seq<real>): Coord {
    if ds == [] then c else AfterSinglePan(Drag(c, ds[..|ds| - 1]), Changed, 0.0, ds[|ds| - 1])
  }

  lemma {:induction false} DragKeepsLog(c: Coord, ds: seq<real>)
    ensures Drag(c, ds).isZoomed == c.isZoomed
    ensures c.calls <= Drag(c, ds).calls
  {
    if ds != [] {
      DragKeepsLog(c, ds[..|ds| - 1]);
    }
  }

  /**
   * Nothing is lost while unzoomed: the remaining delta, less a line height
   * for every line scrolled since the drag began, is the total translation.
   */
  lemma {:induction false} DragConservation(c: Coord, ds: seq<real>)
    requires !c.isZoomed
    ensures var r := Drag(c, ds);
      c.calls <= r.calls &&
      r.accumulatedDelta - LineHeight * ScrolledLines(r.calls[|c.calls|..]) as real == c.accumulatedDelta + Sum(ds)
  {
    DragKeepsLog(c, ds);
    if ds != [] {
      var p := Drag(c, ds[..|ds| - 1]);
      DragConservation(c, ds[..|ds| - 1]);
      DragKeepsLog(c, ds[..|ds| - 1]);
      var r := Drag(c, ds);
      var a := p.accumulatedDelta + ds[|ds| - 1];
      var old_ := p.calls[|c.calls|..];
      if Lines(a) != 0 {
        assert r.calls[|c.calls|..] == old_ + [Scroll(-Lines(a))];
        assert (old_ + [Scroll(-Lines(a))])[..|old_|] == old_;
      } else {
        assert r.calls[|c.calls|..] == old_;
      }
    }
  }

  /** Three drags of 20 points scroll by -1 each, one cursor-down key each, and leave 12 points. */
  lemma DragExample()
    ensures Drag(Coord(false, 0.0, []), [20.0, 20.0, 20.0]) == Coord(false, 12.0, [Scroll(-1), Scroll(-1), Scroll(-1)])
  {
    var ds := [20.0, 20.0, 20.0];
    assert ds[..2] == [20.0, 20.0] && ds[..2][..1] == [20.0] && ds[..2][..1][..0] == [];
    var c0 := Coord(false, 0.0, []);
    assert Lines(20.0) == 1 && Lines(24.0) == 1 && Lines(28.0) == 1;
    var c1 := Drag(c0, [20.0]);
    assert c1 == Coord(false, 4.0, [Scroll(-1)]);
    var c2 := Drag(c0, [20.0, 20.0]);
    assert c2 == Coord(false, 8.0, [Scroll(-1), Scroll(-1)]);
  }

  /** The end of a pan clears the accumulator and reports the end exactly once. */
  lemma EndResets(c: Coord, st: GestureState, tx: real, ty: real)
    requires !c.isZoomed && (st == Ended || st == Cancelled)
    ensures AfterSinglePan(c, st, tx, ty) == c.(accumulatedDelta := 0.0, calls := c.calls + [ScrollEnded])
  {
  }

  /** While zoomed a one-finger pan only moves the view: no scrolling, no end, the accumulator untouched. */
  lemma ZoomedPanOnlyMoves(c: Coord, st: GestureState, tx: real, ty: real)
    requires c.isZoomed
    ensures var r := AfterSinglePan(c, st, tx, ty);
      r.accumulatedDelta == c.accumulatedDelta &&
      r.calls == c.calls + (if st == Changed then [ZoomPan(tx, ty)] else [])
  {
  }

  /** Two-finger pans and pinches pass on what changed and nothing else. */
  lemma ForwardedGestures(c: Coord, st: GestureState, tx: real, ty: real, scale: real)
    ensures AfterTwoPan(c, st, tx, ty).calls == c.calls + (if st == Changed then [ZoomPan(tx, ty)] else [])
    ensures AfterPinch(c, st, scale).calls == c.calls + (if st == Changed then [Pinch(scale)] else [])
    ensures AfterTwoPan(c, st, tx, ty).accumulatedDelta == c.accumulatedDelta
    ensures AfterPinch(c, st, scale).accumulatedDelta == c.accumulatedDelta
  {
  }
}
