/**
 * The product carousel section: the products it is given, paged into slides
 * of one to four cards by window width, with wrap-around arrows and a swipe
 * of more than 50 pixels.
 */
module ProductCarousel {
  import opened Wrappers
  import opened Carousel

  const SwipeThreshold: int := 50

  /**
   * Cards per slide: four from 1280 pixels, three from 1024, two from 768,
   * one below; four when there is no window (`None`).
   */
  function ItemsPerSlide(width: Option<int>): (r: int)
    ensures 1 <= r <= 4
    ensures width == None ==> r == 4
    ensures width.Some? ==> (r == 1 <==> width.value < 768) && (r == 4 <==> width.value >= 1280)
    ensures width.Some? ==> (r == 3 <==> 1024 <= width.value < 1280)
    ensures width.Some? ==> (r == 2 <==> 768 <= width.value < 1024)
  {
    match width
    case None => 4
    case Some(w) =>
      if w >= 1280 then 4
      else if w >= 1024 then 3
      else if w >= 768 then 2
      else 1
  }

  /** A wider window never shows fewer cards. */
  lemma ItemsPerSlideMonotone(w1: int, w2: int)
    requires w1 <= w2
    ensures ItemsPerSlide(Some(w1)) <= ItemsPerSlide(Some(w2))
  {
  }

  /** Slide i as the section renders it: `products.slice(i * k, (i + 1) * k)`. */
  function SlideItems<T>(products: seq<T>, i: int, k: int): seq<T> {
    JsSlice(products, i * k, (i + 1) * k)
  }

  /** The section's slice is the shared slide of k items starting at i * k. */
  lemma SlideItemsIsSlide<T>(products: seq<T>, i: int, k: int)
    ensures SlideItems(products, i, k) == Slide(products, i, k)
  {
    MulSucc(i + 1, k);
  }

  /**
   * The slides partition the list: each of the `ceil(n / k)` slides holds
   * one to k cards and, side by side, they give the products in order.
   */
  lemma SlidesPartitionProducts<T>(products: seq<T>, k: int)
    requires 0 < k
    ensures forall i | 0 <= i < CeilDiv(|products|, k) ::
              0 < |SlideItems(products, i, k)| <= k
    ensures Shown(products, k, CeilDiv(|products|, k)) == products
  {
    forall i | 0 <= i < CeilDiv(|products|, k)
      ensures 0 < |SlideItems(products, i, k)| <= k
    {
      SlideItemsIsSlide(products, i, k);
    }
    SlidesPartition(products, k);
  }

  /**
   * With no products there are no slides, and the arrows leave the range:
   * "next" from 0 gives 1 and "previous" gives -1.
   */
  lemma NoProductsNoRange(k: int)
    requires 0 < k
    ensures CeilDiv(0, k) == 0
    ensures WrapNext(0, CeilDiv(0, k)) == 1 && WrapPrev(0, CeilDiv(0, k)) == -1
  {
  }

  /** The section's state; the products come from its caller. */
  class ProductCarouselSection<T> {
    const products: seq<T>
    var activeIndex: int
    var itemsPerSlide: int
    var touchStartX: int
    var touchEndX: int

    ghost predicate Valid()
      reads this
    {
      1 <= itemsPerSlide <= 4
    }

    constructor(products: seq<T>, width: Option<int>)
      ensures Valid()
      ensures this.products == products
      ensures activeIndex == 0 && itemsPerSlide == ItemsPerSlide(width)
      ensures touchStartX == 0 && touchEndX == 0
    {
      this.products := products;
      activeIndex := 0;
      itemsPerSlide := ItemsPerSlide(width);
      touchStartX := 0;
      touchEndX := 0;
    }

    /** `Math.ceil(products.length / itemsPerSlide)`. */
    function TotalSlides(): int
      requires Valid()
      reads this
    {
      CeilDiv(|products|, itemsPerSlide)
    }

    predicate InRange()
      requires Valid()
      reads this
    {
      0 <= activeIndex < TotalSlides()
    }

    method HandlePrev()
      requires Valid()
      modifies this`activeIndex
      ensures activeIndex == WrapPrev(old(activeIndex), TotalSlides())
      ensures old(InRange()) ==> InRange()
    {
      activeIndex := if activeIndex == 0 then TotalSlides() - 1 else activeIndex - 1;
    }

    method HandleNext()
      requires Valid()
      modifies this`activeIndex
      ensures activeIndex == WrapNext(old(activeIndex), TotalSlides())
      ensures old(InRange()) ==> InRange()
    {
      activeIndex := if activeIndex == TotalSlides() - 1 then 0 else activeIndex + 1;
    }

    /** An indicator dot shows its slide. */
    method GoToSlide(index: int)
      requires Valid() && 0 <= index < TotalSlides()
      modifies this`activeIndex
      ensures activeIndex == index && InRange()
    {
      activeIndex := index;
    }

    method HandleTouchStart(x: int)
      modifies this`touchStartX
      ensures touchStartX == x
    {
      touchStartX := x;
    }

    /**
     * The lift-off point is recorded, then a leftward drag of more than 50
     * pixels goes to the next slide and a rightward one to the previous.
     */
    method HandleTouchEnd(x: int)
      requires Valid()
      modifies this`touchEndX, this`activeIndex
      ensures touchEndX == x
      ensures activeIndex == AfterSwipe(old(activeIndex), TotalSlides(), SwipeOf(touchStartX, x, SwipeThreshold))
      ensures old(InRange()) ==> InRange()
    {
      touchEndX := x;
      var diff := touchStartX - touchEndX;
      if diff > SwipeThreshold {
        HandleNext();
      } else if diff < -SwipeThreshold {
        HandlePrev();
      }
    }

    /** A resize recomputes the cards per slide; the index is kept as it is. */
    method HandleResize(width: Option<int>)
      modifies this`itemsPerSlide
      ensures Valid() && itemsPerSlide == ItemsPerSlide(width)
    {
      itemsPerSlide := ItemsPerSlide(width);
    }
  }
}
