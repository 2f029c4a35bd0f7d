/**
 * The "You May Also Like" strip on the product page: a row of recommendations
 * showing one, two or four cards, moved one card at a time by arrows that
 * stop at both ends, plus mobile dots that jump to an index.
 */
module Recommendations {
  import opened Carousel

  datatype Recommendation = Recommendation(id: string, path: string)

  /** The six placeholder recommendations the section starts with. */
  const RecommendedProducts: seq<Recommendation> := [
    Recommendation("rec1", "/product/recommended-1"),
    Recommendation("rec2", "/product/recommended-2"),
    Recommendation("rec3", "/product/recommended-3"),
    Recommendation("rec4", "/product/recommended-4"),
    Recommendation("rec5", "/product/recommended-5"),
    Recommendation("rec6", "/product/recommended-6")
  ]

  /** Cards in view: one below 640 pixels, two below 1024, four from there on. */
  function ItemsPerView(width: int): (r: int)
    ensures r == 1 || r == 2 || r == 4
    ensures r == 1 <==> width < 640
    ensures r == 4 <==> width >= 1024
  {
    if width < 640 then 1
    else if width < 1024 then 2
    else 4
  }

  /** The last index "next" can reach: `Math.max(0, n - k)`. */
  function MaxIndex(n: int, k: int): (r: int)
    ensures 0 <= r
    ensures n - k <= r
    ensures r == 0 || r == n - k
  {
    Max(0, n - k)
  }

  /** The arrow back: one step down unless already at 0. */
  function ScrollPrev(i: int): (r: int)
    ensures i > 0 ==> r == i - 1
    ensures i <= 0 ==> r == i
  {
    if i > 0 then i - 1 else i
  }

  /** The arrow forward: one step up unless already at the last index. */
  function ScrollNext(i: int, n: int, k: int): (r: int)
    ensures i < MaxIndex(n, k) ==> r == i + 1
    ensures i >= MaxIndex(n, k) ==> r == i
  {
    if i < MaxIndex(n, k) then i + 1 else i
  }

  /** Both arrows keep an index inside `[0, max(0, n - k)]` there. */
  lemma ScrollKeepsRange(i: int, n: int, k: int)
    requires 0 <= i <= MaxIndex(n, k)
    ensures 0 <= ScrollPrev(i) <= MaxIndex(n, k)
    ensures 0 <= ScrollNext(i, n, k) <= MaxIndex(n, k)
  {
  }

  /** Neither arrow wraps around: at an end the arrow toward it does nothing. */
  lemma ArrowsDoNotWrap(n: int, k: int)
    ensures ScrollPrev(0) == 0
    ensures ScrollNext(MaxIndex(n, k), n, k) == MaxIndex(n, k)
  {
  }

  /** The back arrow is disabled at the start. */
  predicate IsAtStart(i: int) { i == 0 }

  /** The forward arrow is disabled once the last cards are in view. */
  predicate IsAtEnd(i: int, n: int, k: int) { i >= n - k }

  /**
   * Inside the range the disabled states match the arrows exactly: an arrow
   * is disabled precisely when clicking it would not move the index.
   */
  lemma DisabledExactlyWhenStuck(i: int, n: int, k: int)
    requires 0 <= i <= MaxIndex(n, k)
    ensures IsAtStart(i) <==> ScrollPrev(i) == i
    ensures IsAtEnd(i, n, k) <==> ScrollNext(i, n, k) == i
  {
  }

  /** The number of mobile dots: `Math.ceil(n / k)`. */
  function DotCount(n: int, k: int): (r: int)
    requires 0 <= n && 0 < k
    ensures n > 0 ==> 1 <= r
  {
    CeilDiv(n, k)
  }

  /** Every dot jumps to an index the arrows could also reach. */
  lemma DotsStayInScrollRange(n: int, k: int, d: int)
    requires 0 <= n && 0 < k && 0 <= d < DotCount(n, k)
    ensures d <= MaxIndex(n, k)
  {
    var c := CeilDiv(n, k);
    if n > k {
      var q := c - 1;
      assert 1 <= q by {
        if q < 1 { MulMonotone(c, 1, k); }
      }
      MulMonotone(0, q - 1, k - 1);
      assert (q - 1) * (k - 1) == q * k - q - k + 1;
      assert q * k < n;
    } else {
      assert c <= 1 by {
        if c > 1 { MulMonotone(1, c - 1, k); }
      }
    }
  }

  /** The strip's state: the first card in view and the window width it reads. */
  class YouMayAlsoLike {
    const products: seq<Recommendation>
    var activeIndex: int
    var windowWidth: int

    constructor(width: int)
      ensures products == RecommendedProducts
      ensures activeIndex == 0 && windowWidth == width
    {
      products := RecommendedProducts;
      activeIndex := 0;
      windowWidth := width;
    }

    function ItemsInView(): int
      reads this
    {
      ItemsPerView(windowWidth)
    }

    /** The index lies between the first card and the last reachable one. */
    predicate InRange()
      reads this
    {
      0 <= activeIndex <= MaxIndex(|products|, ItemsInView())
    }

    method DoScrollPrev()
      modifies this`activeIndex
      ensures activeIndex == ScrollPrev(old(activeIndex))
      ensures old(InRange()) ==> InRange()
    {
      if activeIndex > 0 {
        activeIndex := activeIndex - 1;
      }
    }

    method DoScrollNext()
      modifies this`activeIndex
      ensures activeIndex == ScrollNext(old(activeIndex), |products|, ItemsInView())
      ensures old(InRange()) ==> InRange()
    {
      var maxIndex := Max(0, |products| - ItemsInView());
      if activeIndex < maxIndex {
        activeIndex := activeIndex + 1;
      }
    }

    /** Dot d of `ceil(n / k)` sets the index directly, and stays in range. */
    method GoToDot(d: int)
      requires 0 <= d < DotCount(|products|, ItemsInView())
      modifies this`activeIndex
      ensures activeIndex == d
      ensures InRange()
    {
      activeIndex := d;
      DotsStayInScrollRange(|products|, ItemsInView(), d);
    }

    method HandleResize(width: int)
      modifies this`windowWidth
      ensures windowWidth == width
    {
      windowWidth := width;
    }

    predicate AtStart()
      reads this
    {
      IsAtStart(activeIndex)
    }

    predicate AtEnd()
      reads this
    {
      IsAtEnd(activeIndex, |products|, ItemsInView())
    }
  }
}
