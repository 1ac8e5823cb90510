/**
  The two-handle range slider: which handle is being dragged, and how a
  pointer position is clamped into a new `[low, high]` pair that keeps the
  handles at least one step apart.
 */
module RangeSlider {
  import opened Wrappers
  import opened JsMath

  /** The two draggable handles. */
  datatype Handle = MinHandle | MaxHandle

  /** The distance between two integers. */
  function Distance(a: int, b: int): nat {
    if a <= b then b - a else a - b
  }

  /**
    `Math.min(Math.max(x, lo), hi)`: for a non-empty interval, the point of
    `[lo, hi]` nearest to `x`; for an empty one, `hi`.
   */
  function Clamp(x: int, lo: int, hi: int): (r: int)
    ensures lo <= hi ==> lo <= r <= hi
    ensures lo <= hi ==> forall y :: lo <= y <= hi ==> Distance(r, x) <= Distance(y, x)
    ensures hi < lo ==> r == hi
  {
    Least(Greatest(x, lo), hi)
  }

  /**
    The change a mouse move makes to `value` (the pair `[value[0], value[1]]`
    of the original), or `None` when nothing is dragged or the track is not
    mounted. `newValue` is the pointer position already converted to the
    slider's scale and rounded.
   */
  function MoveHandle(min: int, max: int, step: int, value: (int, int),
                      dragging: Option<Handle>, trackMounted: bool, newValue: int): (r: Option<(int, int)>)
    ensures r.None? <==> dragging.None? || !trackMounted
    ensures r.Some? && dragging == Some(MinHandle) ==>
      r.value.1 == value.1 && r.value.0 <= value.1 - step
      && (min <= value.1 - step ==> min <= r.value.0)
    ensures r.Some? && dragging == Some(MaxHandle) ==>
      r.value.0 == value.0 && r.value.1 <= max
      && (value.0 + step <= max ==> value.0 + step <= r.value.1)
  {
    if dragging.None? || !trackMounted then None
    else if dragging.value == MinHandle then Some((Clamp(newValue, min, value.1 - step), value.1))
    else Some((value.0, Clamp(newValue, value.0 + step, max)))
  }

  /**
    A well-placed pair: both handles inside `[min, max]`, at least `step`
    apart, low before high.
   */
  predicate WellPlaced(min: int, max: int, step: int, value: (int, int)) {
    min <= value.0 && value.0 + step <= value.1 && value.1 <= max
  }

  /** Whatever the pointer does, a move keeps a well-placed pair well placed. */
  lemma MoveKeepsWellPlaced(min: int, max: int, step: int, value: (int, int),
                            dragging: Option<Handle>, trackMounted: bool, newValue: int)
    requires WellPlaced(min, max, step, value)
    ensures match MoveHandle(min, max, step, value, dragging, trackMounted, newValue)
      case None => true
      case Some(v) => WellPlaced(min, max, step, v)
  {
  }

  /**
    A move lands on the pointer exactly when the pointer is at a position
    the dragged handle may take; otherwise it lands on the nearest such
    position.
   */
  lemma MoveFollowsPointer(min: int, max: int, step: int, value: (int, int), handle: Handle, newValue: int)
    requires WellPlaced(min, max, step, value)
    ensures var v := MoveHandle(min, max, step, value, Some(handle), true, newValue).value;
      match handle
      case MinHandle =>
        (v.0 == newValue <==> min <= newValue <= value.1 - step)
        && forall y :: min <= y <= value.1 - step ==> Distance(v.0, newValue) <= Distance(y, newValue)
      case MaxHandle =>
        (v.1 == newValue <==> value.0 + step <= newValue <= max)
        && forall y :: value.0 + step <= y <= max ==> Distance(v.1, newValue) <= Distance(y, newValue)
  {
  }

  /** The state of one slider: its fixed scale and the handle being dragged, if any. */
  class Slider {
    const min: int
    const max: int
    const step: int
    var dragging: Option<Handle>

    /** A slider on `[min, max]`; the step is 1 unless given. Nothing is dragged. */
    constructor (min: int, max: int, step: int := 1)
      ensures this.min == min && this.max == max && this.step == step
      ensures dragging == None
    {
      this.min := min;
      this.max := max;
      this.step := step;
      dragging := None;
    }

    /** Pressing a handle starts dragging it. */
    method HandleMouseDown(handle: Handle)
      modifies this
      ensures dragging == Some(handle)
    {
      dragging := Some(handle);
    }

    /** Releasing the mouse ends any drag. */
    method HandleMouseUp()
      modifies this
      ensures dragging == None
    {
      dragging := None;
    }

    /**
      A mouse move over the window: the pair to hand to `onChange`, or `None`
      when the handler returns early. This is the imperative form of
      `MoveHandle`, to which its `ensures` ties it, so the lemmas about
      `MoveHandle` hold for every change this handler reports.
     */
    method HandleMouseMove(value: (int, int), trackMounted: bool, newValue: int) returns (change: Option<(int, int)>)
      ensures change == MoveHandle(min, max, step, value, dragging, trackMounted, newValue)
    {
      if dragging.None? || !trackMounted {
        return None;
      }
      if dragging == Some(MinHandle) {
        var clampedValue := Least(Greatest(newValue, min), value.1 - step);
        change := Some((clampedValue, value.1));
      } else {
        var clampedValue := Least(Greatest(newValue, value.0 + step), max);
        change := Some((value.0, clampedValue));
      }
    }
  }

  /** A slider made without a step moves in steps of 1. */
  method DefaultStep() returns (step: int)
    ensures step == 1
  {
    var slider := new Slider(0, 100);
    step := slider.step;
  }
}
