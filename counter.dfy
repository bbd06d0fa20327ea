/**
 * The animated statistics counters (class CounterAnimator, app.js). Each
 * counter runs its own frame callback; a frame computes the fraction of the
 * duration that has elapsed, clamps it to 1, writes the floored linear
 * interpolation between the start and end values, and asks for another frame
 * while the fraction is below 1.
 */
module Counter {
  import opened Wrappers

  /** Duration, in milliseconds, of every counter animation started by the page. */
  const CounterDuration: real := 1500.0

  /** `Math.min(elapsed / duration, 1)`. */
  function Progress(elapsed: real, duration: real): (p: real)
    requires 0.0 < duration
    ensures p <= 1.0
    ensures p == 1.0 <==> duration <= elapsed
    ensures 0.0 <= elapsed ==> 0.0 <= p
  {
    var q := elapsed / duration;
    if q < 1.0 then q else 1.0
  }

  /** Dividing by a positive duration keeps the order of elapsed times. */
  lemma DivideKeepsOrder(e1: real, e2: real, duration: real)
    requires 0.0 < duration && e1 <= e2
    ensures e1 / duration <= e2 / duration
  {
  }

  /** Scaling by a non-negative span keeps the order of progress values. */
  lemma ScaleKeepsOrder(p1: real, p2: real, span: real)
    requires p1 <= p2 && 0.0 <= span
    ensures p1 * span <= p2 * span
  {
  }

  /** A fraction between 0 and 1 of a non-negative span lies within the span. */
  lemma FractionOfSpan(p: real, span: real)
    ensures 0.0 <= p <= 1.0 && 0.0 <= span ==> 0.0 <= p * span <= span
  {
    if 0.0 <= p <= 1.0 && 0.0 <= span {
      ScaleKeepsOrder(0.0, p, span);
      ScaleKeepsOrder(p, 1.0, span);
    }
  }

  /** Rounding down keeps the order of reals. */
  lemma FloorKeepsOrder(x: real, y: real)
    requires x <= y
    ensures x.Floor <= y.Floor
  {
  }

  /** The value a frame writes: `Math.floor(progress * (end - start) + start)`. */
  function Shown(start: int, end: int, elapsed: real, duration: real): (v: int)
    requires 0.0 < duration
    ensures duration <= elapsed ==> v == end
    ensures start <= end && 0.0 <= elapsed ==> start <= v <= end
  {
    var p := Progress(elapsed, duration);
    FractionOfSpan(p, (end - start) as real);
    (p * (end - start) as real + start as real).Floor
  }

  /** A later frame never shows a smaller number when counting up. */
  lemma ShownMonotone(start: int, end: int, duration: real, e1: real, e2: real)
    requires 0.0 < duration && start <= end && e1 <= e2
    ensures Shown(start, end, e1, duration) <= Shown(start, end, e2, duration)
  {
    var p1, p2 := Progress(e1, duration), Progress(e2, duration);
    var span := (end - start) as real;
    DivideKeepsOrder(e1, e2, duration);
    assert p1 <= p2;
    ScaleKeepsOrder(p1, p2, span);
    FloorKeepsOrder(p1 * span + start as real, p2 * span + start as real);
  }

  /**
   * The counters the page starts count from 0 to their target over
   * `CounterDuration`: the first frame shows 0, and every frame from 1500 ms
   * on shows the target.
   */
  lemma PageCounter(target: int, elapsed: real)
    ensures Shown(0, target, 0.0, CounterDuration) == 0
    ensures CounterDuration <= elapsed ==> Shown(0, target, elapsed, CounterDuration) == target
  {
    assert Progress(0.0, CounterDuration) == 0.0;
  }

  /** JavaScript truthiness of the latched start time: unset and 0 are both false. */
  predicate Latched(startTimestamp: Option<real>)
  {
    startTimestamp.Some? && startTimestamp.value != 0.0
  }

  /** One running `animateValue`: its parameters, its latched start time, the text it wrote. */
  class CounterAnimation {
    const start: int
    const end: int
    const duration: real
    var startTimestamp: Option<real>
    var text: Option<int>
    var frameRequested: bool

    /** `animateValue(element, start, end, duration)`: nothing latched, one frame requested. */
    constructor (start: int, end: int, duration: real)
      requires 0.0 < duration
      ensures this.start == start && this.end == end && this.duration == duration
      ensures startTimestamp == None && text == None && frameRequested
    {
      this.start, this.end, this.duration := start, end, duration;
      startTimestamp := None;
      text := None;
      frameRequested := true;
    }

    /** The frame callback, run with the frame's timestamp. */
    method Frame(timestamp: real)
      requires 0.0 < duration && frameRequested
      modifies this
      ensures startTimestamp == if Latched(old(startTimestamp)) then old(startTimestamp) else Some(timestamp)
      ensures text == Some(Shown(start, end, timestamp - startTimestamp.value, duration))
      ensures frameRequested <==> timestamp - startTimestamp.value < duration
      ensures !frameRequested ==> text == Some(end)
    {
      if !Latched(startTimestamp) {
        startTimestamp := Some(timestamp);
      }
      var elapsed := timestamp - startTimestamp.value;
      var progress := Progress(elapsed, duration);
      var shown := (progress * (end - start) as real + start as real).Floor;
      assert shown == Shown(start, end, elapsed, duration);
      text := Some(shown);
      frameRequested := progress < 1.0;
    }
  }
}
