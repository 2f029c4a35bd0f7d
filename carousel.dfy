/**
 * Index arithmetic shared by the storefront's carousels and pagers: the
 * wrap-around step (`i === n - 1 ? 0 : i + 1` and its mirror), the slide
 * count `Math.ceil(n / k)`, `Array.prototype.slice` with its clamping of
 * out-of-range bounds, the slides that page a list, and the swipe decision
 * from the start and end x-coordinates of a touch.
 */
module Carousel {

  function Min(a: int, b: int): int { if a <= b then a else b }

  function Max(a: int, b: int): int { if a >= b then a else b }

  /** The "next" step: the last index goes back to 0, any other index moves up one. */
  function WrapNext(i: int, n: int): (r: int)
    ensures 0 <= i < n ==> 0 <= r < n && r == (i + 1) % n
  {
    if i == n - 1 then 0 else i + 1
  }

  /** The "previous" step: 0 goes to the last index, any other index moves down one. */
  function WrapPrev(i: int, n: int): (r: int)
    ensures 0 <= i < n ==> 0 <= r < n && r == (i - 1) % n
  {
    if i == 0 then n - 1 else i - 1
  }

  /** Inside the range the two steps undo each other. */
  lemma PrevUndoesNext(i: int, n: int)
    requires 0 <= i < n
    ensures WrapPrev(WrapNext(i, n), n) == i
    ensures WrapNext(WrapPrev(i, n), n) == i
  {
  }

  /** `Math.ceil(n / k)`: the number of pages of k items needed for n items. */
  function CeilDiv(n: int, k: int): (r: int)
    requires 0 <= n && 0 < k
    ensures 0 <= r
    ensures n <= r * k
    ensures r == 0 || (r - 1) * k < n
    ensures r == 0 <==> n == 0
  {
    var r := (n + k - 1) / k;
    CeilDivFacts(n, k, r, (n + k - 1) % k);
    r
  }

  /** The arithmetic behind `CeilDiv`, from the quotient and remainder of n + k - 1 by k. */
  lemma CeilDivFacts(n: int, k: int, r: int, m: int)
    requires 0 <= n && 0 < k && n + k - 1 == r * k + m && 0 <= m < k
    ensures 0 <= r && n <= r * k
    ensures r == 0 || (r - 1) * k < n
    ensures r == 0 <==> n == 0
  {
    assert (r - 1) * k == r * k - k;
    if r < 0 {
      MulMonotone(r, -1, k);
    }
    if r >= 1 {
      MulMonotone(1, r, k);
    }
  }

  /** How `slice` reads a bound: negative counts from the end, anything out of range is clamped. */
  function RelativeIndex(i: int, len: int): (r: int)
    requires 0 <= len
    ensures 0 <= r <= len
    ensures 0 <= i ==> r == Min(i, len)
  {
    if i < 0 then Max(len + i, 0) else Min(i, len)
  }

  /** `s.slice(start, end)`. */
  function JsSlice<T>(s: seq<T>, start: int, end: int): (r: seq<T>)
    ensures 0 <= start <= end ==> r == s[Min(start, |s|)..Min(end, |s|)]
    ensures |r| <= |s|
  {
    var a := RelativeIndex(start, |s|);
    var b := RelativeIndex(end, |s|);
    if a < b then s[a..b] else []
  }

  /** Slide i of a carousel showing k items per slide: `s.slice(i * k, i * k + k)`. */
  function Slide<T>(s: seq<T>, i: int, k: int): (r: seq<T>)
    ensures 0 <= i && 0 < k ==> |r| <= k
    ensures 0 <= i && 0 < k && i < CeilDiv(|s|, k) ==> r != []
    ensures 0 <= i && 0 < k && i >= CeilDiv(|s|, k) ==> r == []
  {
    if 0 <= i && 0 < k then
      SlideStart(|s|, k, i);
      JsSlice(s, i * k, i * k + k)
    else
      JsSlice(s, i * k, i * k + k)
  }

  /** The first m slides, laid side by side. */
  function Shown<T>(s: seq<T>, k: int, m: nat): seq<T> {
    if m == 0 then [] else Shown(s, k, m - 1) + Slide(s, m - 1, k)
  }

  lemma {:induction false} ShownPrefix<T>(s: seq<T>, k: int, m: nat)
    requires 0 < k
    ensures Shown(s, k, m) == s[..Min(m * k, |s|)]
  {
    if m > 0 {
      ShownPrefix(s, k, m - 1);
      var a := (m - 1) * k;
      MulSucc(m, k);
      SlideFrom(s, k, m - 1, a);
      PrefixJoin(s, Min(a, |s|), Min(a + k, |s|));
    }
  }

  lemma PrefixJoin<T>(s: seq<T>, x: int, y: int)
    requires 0 <= x <= y <= |s|
    ensures s[..x] + s[x..y] == s[..y]
  {
  }

  /** The slides cover the list exactly once, in order. */
  lemma SlidesPartition<T>(s: seq<T>, k: int)
    requires 0 < k
    ensures Shown(s, k, CeilDiv(|s|, k)) == s
  {
    ShownPrefix(s, k, CeilDiv(|s|, k));
  }

  /** Every slide below the slide count shows between one and k items. */
  lemma SlidesInRangeAreFilled<T>(s: seq<T>, k: int)
    requires 0 < k
    ensures forall i | 0 <= i < CeilDiv(|s|, k) :: 0 < |Slide(s, i, k)| <= k
  {
  }

  /** Item p is on slide p / k, at position p % k. */
  lemma SlideOfPosition<T>(s: seq<T>, k: int, p: int)
    requires 0 < k && 0 <= p < |s|
    ensures p / k < CeilDiv(|s|, k)
    ensures p % k < |Slide(s, p / k, k)| && Slide(s, p / k, k)[p % k] == s[p]
  {
    var i, j := p / k, p % k;
    var a := i * k;
    DivMod(p, k);
    PositionOnEarlierSlide(|s|, k, i, a);
    SlideFrom(s, k, i, a);
    WindowIndex(s, a, Min(a + k, |s|), j);
  }

  lemma DivMod(p: int, k: int)
    requires 0 <= p && 0 < k
    ensures p == (p / k) * k + p % k && 0 <= p % k < k && 0 <= p / k
  {
  }

  lemma WindowIndex<T>(s: seq<T>, a: int, b: int, j: int)
    requires 0 <= a && 0 <= j && a + j < b <= |s|
    ensures j < |s[a..b]| && s[a..b][j] == s[a + j]
  {
  }

  lemma PositionOnEarlierSlide(n: int, k: int, i: int, a: int)
    requires 0 < k && 0 <= i && a == i * k && a < n
    ensures i < CeilDiv(n, k)
  {
    var c := CeilDiv(n, k);
    if i >= c {
      MulMonotone(c, i, k);
    }
  }

  lemma SlideFrom<T>(s: seq<T>, k: int, i: int, a: int)
    requires 0 < k && 0 <= i && a == i * k
    ensures 0 <= a && Slide(s, i, k) == s[Min(a, |s|)..Min(a + k, |s|)]
  {
  }

  /** Slide i starts inside the list exactly when i is below the slide count. */
  lemma SlideStart(n: int, k: int, i: int)
    requires 0 <= n && 0 < k && 0 <= i
    ensures 0 <= i * k
    ensures i < CeilDiv(n, k) <==> i * k < n
  {
    var c := CeilDiv(n, k);
    MulMonotone(0, i, k);
    if i < c {
      MulMonotone(i, c - 1, k);
    } else {
      MulMonotone(c, i, k);
    }
  }

  lemma MulSucc(m: int, k: int)
    ensures m * k == (m - 1) * k + k
  {
  }

  lemma MulMonotone(x: int, y: int, k: int)
    requires x <= y && 0 <= k
    ensures x * k <= y * k
  {
    assert y * k - x * k == (y - x) * k;
  }

  datatype Swipe = SwipeNext | SwipePrev | NoSwipe

  /**
   * The decision a touch-end handler takes: a leftward drag longer than the
   * threshold goes to the next slide, a rightward one to the previous slide.
   */
  function SwipeOf(start: int, end: int, threshold: int): (r: Swipe)
    ensures threshold >= 0 ==> (r == NoSwipe <==> -threshold <= start - end <= threshold)
    ensures threshold >= 0 && r == SwipeNext ==> start > end
    ensures threshold >= 0 && r == SwipePrev ==> end > start
  {
    if start - end > threshold then SwipeNext
    else if start - end < -threshold then SwipePrev
    else NoSwipe
  }

  /** The index after a swipe on a carousel of n slides that wraps at both ends. */
  function AfterSwipe(i: int, n: int, s: Swipe): (r: int)
    ensures 0 <= i < n ==> 0 <= r < n
    ensures s == NoSwipe ==> r == i
    ensures 0 <= i < n && s == SwipeNext ==> r == (i + 1) % n
    ensures 0 <= i < n && s == SwipePrev ==> r == (i - 1) % n
  {
    match s
    case SwipeNext => WrapNext(i, n)
    case SwipePrev => WrapPrev(i, n)
    case NoSwipe => i
  }
}
