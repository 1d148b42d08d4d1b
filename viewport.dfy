/**
 * The display predicates the page recomputes from the viewport: the
 * narrow-layout flag of useIsMobile, the "scrolled" flag of useScrolled
 * that changes the navigation bar, and the hero headline's rotating word.
 * The resize, scroll and timer events that trigger them are not modelled;
 * each function is the value those handlers store.
 */
module Viewport {
  /** useIsMobile's default breakpoint, in CSS pixels. */
  const DefaultBreakpoint: int := 768
  /** The breakpoint the testimonials carousel passes to useIsMobile. */
  const TestimonialsBreakpoint: int := 600
  /** The scroll offset, in CSS pixels, past which the navigation bar counts as scrolled. */
  const ScrollThreshold: real := 50.0

  /** The narrow layout is chosen when the window is at most `breakpoint` pixels wide. */
  function IsMobile(width: int, breakpoint: int): bool {
    width <= breakpoint
  }

  /** A width equal to the breakpoint is narrow; one pixel more is wide. */
  lemma IsMobileBoundary(breakpoint: int)
    ensures IsMobile(breakpoint, breakpoint)
    ensures !IsMobile(breakpoint + 1, breakpoint)
    ensures IsMobile(768, DefaultBreakpoint) && !IsMobile(769, DefaultBreakpoint)
    ensures IsMobile(600, TestimonialsBreakpoint) && !IsMobile(601, TestimonialsBreakpoint)
  {
  }

  /** Narrowing a narrow window keeps it narrow; widening a wide one keeps it wide. */
  lemma IsMobileMonotone(w1: int, w2: int, breakpoint: int)
    requires w1 <= w2
    ensures IsMobile(w2, breakpoint) ==> IsMobile(w1, breakpoint)
    ensures !IsMobile(w1, breakpoint) ==> !IsMobile(w2, breakpoint)
  {
  }

  /** The navigation bar counts as scrolled strictly past the threshold. */
  function Scrolled(scrollY: real, threshold: real): bool {
    scrollY > threshold
  }

  /** Exactly 50 pixels is not scrolled; anything beyond is. */
  lemma ScrolledBoundary(scrollY: real)
    ensures !Scrolled(ScrollThreshold, ScrollThreshold)
    ensures Scrolled(scrollY, ScrollThreshold) <==> scrollY > 50.0
  {
  }

  lemma ScrolledMonotone(y1: real, y2: real, threshold: real)
    requires y1 <= y2
    ensures Scrolled(y1, threshold) ==> Scrolled(y2, threshold)
  {
  }

  /**
   * The interval handler's update of the hero word index; `n` is the number
   * of headline words (three: "Automate.", "Accelerate.", "Dominate."). The index is
   * never negative, so JavaScript's truncating `%` agrees with Dafny's.
   */
  function NextWord(i: nat, n: nat): (j: nat)
    requires n > 0
    ensures j < n
    ensures i < n - 1 ==> j == i + 1
    ensures i == n - 1 ==> j == 0
  {
    (i + 1) % n
  }

  /** The word index after `ticks` firings of the interval, starting from `i`. */
  function WordAfter(i: nat, n: nat, ticks: nat): (j: nat)
    requires n > 0
    ensures ticks > 0 ==> j < n
  {
    if ticks == 0 then i else NextWord(WordAfter(i, n, ticks - 1), n)
  }

  /** After any number of ticks from a valid index, the index is `(i + ticks) % n`, so it stays in range. */
  lemma {:induction false} WordAfterClosedForm(i: nat, n: nat, ticks: nat)
    requires n > 0 && i < n
    ensures WordAfter(i, n, ticks) == (i + ticks) % n
    ensures WordAfter(i, n, ticks) < n
  {
    if ticks > 0 {
      WordAfterClosedForm(i, n, ticks - 1);
      ModSuccessor(i + ticks - 1, n);
    }
  }

  lemma ModSuccessor(a: nat, n: nat)
    requires n > 0
    ensures (a % n + 1) % n == (a + 1) % n
  {
    var q, r := a / n, a % n;
    assert a + 1 == q * n + (r + 1);
    if r + 1 < n {
      ModUnique(a + 1, n, q, r + 1);
      ModUnique(r + 1, n, 0, r + 1);
    } else {
      assert a + 1 == (q + 1) * n + 0;
      ModUnique(a + 1, n, q + 1, 0);
      ModUnique(r + 1, n, 1, 0);
    }
  }

  /** The remainder is the only `r` in `[0, n)` with `a == q * n + r`. */
  lemma ModUnique(a: int, n: int, q: int, r: int)
    requires n > 0 && 0 <= r < n && a == q * n + r
    ensures a % n == r
  {
    var d := q - a / n;
    assert d * n == a % n - r;
  }

  /** Adding a whole period does not change a remainder. */
  lemma ModAddPeriod(a: nat, n: nat)
    requires n > 0
    ensures (a + n) % n == a % n
  {
    var q := a / n;
    assert a + n == (q + 1) * n + a % n;
    ModUnique(a + n, n, q + 1, a % n);
  }

  /** The headline comes back to the same word every `n` ticks. */
  lemma WordRotationPeriod(i: nat, n: nat, ticks: nat)
    requires n > 0 && i < n
    ensures WordAfter(i, n, ticks + n) == WordAfter(i, n, ticks)
  {
    WordAfterClosedForm(i, n, ticks + n);
    WordAfterClosedForm(i, n, ticks);
    ModAddPeriod(i + ticks, n);
  }
}
