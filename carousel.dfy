/**
 * The testimonials carousel: the index of the card on show, moved by the
 * previous/next arrows, by the dots under the cards and by a horizontal
 * swipe. A swipe is two events: touch-start records where the finger came
 * down, touch-end compares where it lifted and forgets the start.
 */
module Carousel {
  import opened Wrappers

  /** The number of testimonials on the page. */
  const TestimonialCount: int := 8
  /** The horizontal travel, in CSS pixels, beyond which a touch counts as a swipe. */
  const SwipeThreshold: real := 40.0

  /** The previous arrow's update, `Math.max(0, i - 1)`: one card back, never before the first. */
  function StepBack(i: int): (j: int)
    ensures j >= 0
    ensures i > 0 ==> j == i - 1
    ensures j == i <==> i == 0
  {
    if 0 >= i - 1 then 0 else i - 1
  }

  /** The next arrow's update, `Math.min(n - 1, i + 1)`: one card on, never past the last. */
  function StepForward(i: int, n: int): (j: int)
    ensures j <= n - 1
    ensures i < n - 1 ==> j == i + 1
    ensures j == i <==> i == n - 1
  {
    if n - 1 <= i + 1 then n - 1 else i + 1
  }

  /** The index after pressing the next arrow `k` times. */
  function ForwardTimes(i: int, n: int, k: nat): int {
    if k == 0 then i else StepForward(ForwardTimes(i, n, k - 1), n)
  }

  /** The index after pressing the previous arrow `k` times. */
  function BackTimes(i: int, k: nat): int {
    if k == 0 then i else StepBack(BackTimes(i, k - 1))
  }

  /** Pressing next `k` times from a valid index moves `k` cards on, stopping at the last one. */
  lemma {:induction false} ForwardTimesClamps(i: int, n: int, k: nat)
    requires 0 <= i < n
    ensures ForwardTimes(i, n, k) == if i + k < n then i + k else n - 1
  {
    if k > 0 {
      ForwardTimesClamps(i, n, k - 1);
    }
  }

  /** Pressing previous `k` times from a valid index moves `k` cards back, stopping at the first one. */
  lemma {:induction false} BackTimesClamps(i: int, k: nat)
    requires 0 <= i
    ensures BackTimes(i, k) == if i - k > 0 then i - k else 0
  {
    if k > 0 {
      BackTimesClamps(i, k - 1);
    }
  }

  class Testimonials {
    /** The index of the card on show. */
    var active: int
    /** Where the current touch came down, if one is in progress. */
    var startX: Option<real>

    ghost predicate Valid()
      reads this
    {
      0 <= active < TestimonialCount
    }

    /** The carousel opens on the first testimonial with no touch in progress. */
    constructor ()
      ensures Valid()
      ensures active == 0 && startX == None
    {
      active := 0;
      startX := None;
    }

    /** The previous arrow is shown disabled on the first card. */
    predicate PrevDisabled()
      reads this
    {
      active == 0
    }

    /** The next arrow is shown disabled on the last card. */
    predicate NextDisabled()
      reads this
    {
      active == TestimonialCount - 1
    }

    /** The previous arrow: a no-op exactly when it is shown disabled. */
    method Prev()
      requires Valid()
      modifies this`active
      ensures Valid()
      ensures active == StepBack(old(active))
      ensures old(PrevDisabled()) <==> active == old(active)
      ensures !old(PrevDisabled()) ==> active == old(active) - 1
    {
      active := StepBack(active);
    }

    /** The next arrow: a no-op exactly when it is shown disabled. */
    method Next()
      requires Valid()
      modifies this`active
      ensures Valid()
      ensures active == StepForward(old(active), TestimonialCount)
      ensures old(NextDisabled()) <==> active == old(active)
      ensures !old(NextDisabled()) ==> active == old(active) + 1
    {
      active := StepForward(active, TestimonialCount);
    }

    /** A dot: there is one per testimonial, and it shows that testimonial. */
    method SelectDot(i: int)
      requires Valid()
      requires 0 <= i < TestimonialCount
      modifies this`active
      ensures Valid()
      ensures active == i
    {
      active := i;
    }

    /** A finger comes down at horizontal position `x`. */
    method TouchStart(x: real)
      modifies this`startX
      ensures startX == Some(x)
    {
      startX := Some(x);
    }

    /**
     * The finger lifts at `x`. Without a recorded start nothing happens.
     * Otherwise `dx = start - x`: more than 40 pixels to the left acts as
     * the next arrow, more than 40 to the right as the previous arrow,
     * anything shorter leaves the card; the start is then forgotten.
     */
    method TouchEnd(x: real)
      requires Valid()
      modifies this
      ensures Valid()
      ensures startX == None
      ensures old(startX) == None ==> active == old(active)
      ensures old(startX).Some? ==>
        var dx := old(startX).value - x;
        && (dx > SwipeThreshold ==> active == StepForward(old(active), TestimonialCount))
        && (dx < -SwipeThreshold ==> active == StepBack(old(active)))
        && (-SwipeThreshold <= dx <= SwipeThreshold ==> active == old(active))
    {
      if startX == None {
        return;
      }
      var dx := startX.value - x;
      if dx > SwipeThreshold {
        Next();
      } else if dx < -SwipeThreshold {
        Prev();
      }
      startX := None;
    }
  }
}
