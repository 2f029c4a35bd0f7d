/**
 * The customer-review carousel on the home page: the fixed review list sorted
 * by stars (highest first) and then by id, a responsive number of cards per
 * slide, wrap-around navigation over `ceil(reviews / cards)` slides, and the
 * swipe gesture.
 */
module Reviews {
  import opened Sorting
  import opened Carousel

  datatype Review = Review(id: int, stars: int, reviewer: string)

  /** The ten reviews the component ships with. */
  const ReviewsData: seq<Review> := [
    Review(1, 5, "Sarah Johnson"), Review(2, 5, "Michael Chen"),
    Review(3, 4, "Priya Patel"), Review(4, 5, "David Wilson"),
    Review(5, 3, "Emma Thompson"), Review(6, 4, "James Rodriguez"),
    Review(7, 5, "Sophia Lee"), Review(8, 3, "Raj Malhotra"),
    Review(9, 4, "Olivia Garcia"), Review(10, 5, "Ahmed Hassan")
  ]

  /** The swipe distance, in pixels, that moves the carousel. */
  const SwipeThreshold: int := 100

  /** The comparator: more stars first, then the lower id. */
  function Compare(a: Review, b: Review): int {
    if b.stars != a.stars then b.stars - a.stars else a.id - b.id
  }

  /** `a` may stay ahead of `b`: the comparator does not return a positive number. */
  function Precedes(a: Review, b: Review): (r: bool)
    ensures r <==> a.stars > b.stars || (a.stars == b.stars && a.id <= b.id)
  {
    Compare(a, b) <= 0
  }

  lemma PrecedesIsTotalPreorder()
    ensures TotalPreorder(Precedes)
  {
  }

  /** `[...reviewsData].sort(comparator)`. */
  function SortReviews(s: seq<Review>): seq<Review> {
    Sort(s, Precedes)
  }

  /**
   * The sorted list holds the same reviews, with stars never increasing and,
   * among equal stars, ids never decreasing.
   */
  lemma SortReviewsOrdered(s: seq<Review>)
    ensures multiset(SortReviews(s)) == multiset(s)
    ensures var r := SortReviews(s);
            forall i, j | 0 <= i < j < |r| ::
              r[i].stars >= r[j].stars && (r[i].stars == r[j].stars ==> r[i].id <= r[j].id)
  {
    PrecedesIsTotalPreorder();
    SortSorted(s, Precedes);
  }

  /** Sorting a list that is already in review order changes nothing. */
  lemma SortReviewsIdempotent(s: seq<Review>)
    ensures SortReviews(SortReviews(s)) == SortReviews(s)
  {
    PrecedesIsTotalPreorder();
    SortSorted(s, Precedes);
    SortOfSorted(SortReviews(s), Precedes);
  }

  /** Cards per slide: one on phones, two on tablets, three from 1024 pixels up. */
  function ItemsToShow(width: int): (r: int)
    ensures 1 <= r <= 3
    ensures r == 1 <==> width < 640
    ensures r == 3 <==> width >= 1024
  {
    if width < 640 then 1
    else if width < 1024 then 2
    else 3
  }

  /** A wider window never shows fewer cards. */
  lemma ItemsToShowMonotone(w1: int, w2: int)
    requires w1 <= w2
    ensures ItemsToShow(w1) <= ItemsToShow(w2)
  {
  }

  function TotalSlides(width: int): (r: int)
    ensures 1 <= r
    ensures r * ItemsToShow(width) >= |ReviewsData|
    ensures (r - 1) * ItemsToShow(width) < |ReviewsData|
  {
    CeilDiv(|ReviewsData|, ItemsToShow(width))
  }

  /** Ten reviews make ten, five or four slides. */
  lemma TotalSlidesByWidth(width: int)
    ensures width < 640 ==> TotalSlides(width) == 10
    ensures 640 <= width < 1024 ==> TotalSlides(width) == 5
    ensures 1024 <= width ==> TotalSlides(width) == 4
  {
  }

  /** The cards of slide i: `sorted.slice(i * k, i * k + k)`. */
  function VisibleReviews(index: int, width: int): seq<Review> {
    Slide(SortReviews(ReviewsData), index, ItemsToShow(width))
  }

  /**
   * Every slide in range shows between one and k cards, and the slides laid
   * side by side give the sorted list, each review once and in order.
   */
  lemma SlidesCoverSortedReviews(reviews: seq<Review>, width: int)
    ensures var sorted, k := SortReviews(reviews), ItemsToShow(width);
            && (forall i | 0 <= i < CeilDiv(|reviews|, k) :: 0 < |Slide(sorted, i, k)| <= k)
            && Shown(sorted, k, CeilDiv(|reviews|, k)) == sorted
  {
    var sorted, k := SortReviews(reviews), ItemsToShow(width);
    SlidesInRangeAreFilled(sorted, k);
    SlidesPartition(sorted, k);
  }

  /**
   * The index is not reset when the window grows: on a phone the tenth
   * review is slide 9 of 10; widened to a desktop there are four slides,
   * slide 9 is empty, and "next" moves on to 10 instead of wrapping.
   */
  lemma StaleIndexAfterResize()
    ensures 9 < TotalSlides(500)
    ensures TotalSlides(1200) == 4
    ensures VisibleReviews(9, 1200) == []
    ensures WrapNext(9, TotalSlides(1200)) == 10
  {
  }

  /** The keys the carousel's keydown listener tells apart. */
  datatype Key = ArrowLeft | ArrowRight | OtherKey

  /**
   * The carousel's state: the slide index, the touch coordinates, the window
   * width, and the slide count the keyboard listener and the auto-advance
   * interval captured when they were last registered.
   */
  class ReviewCarousel {
    /** The sorted list the component computes once, when the module loads. */
    const reviews: seq<Review>
    var currentIndex: int
    var touchStartX: int
    var touchEndX: int
    var windowWidth: int
    /**
     * The listener and the interval are registered again only after a render
     * in which the index changed, so they step with the slide count of that
     * render; a resize alone leaves them with the old count.
     */
    var armedSlides: int

    /**
     * The first render shows slide 0; the width is 0 when there is no window.
     * The component sorts `ReviewsData`; the model sorts whatever list it is given.
     */
    constructor(width: int, data: seq<Review>)
      ensures currentIndex == 0 && touchStartX == 0 && touchEndX == 0
      ensures windowWidth == width
      ensures reviews == SortReviews(data)
      ensures Armed()
    {
      reviews := SortReviews(data);
      currentIndex := 0;
      touchStartX := 0;
      touchEndX := 0;
      windowWidth := width;
      armedSlides := CeilDiv(|SortReviews(data)|, ItemsToShow(width));
    }

    /** `Math.ceil(sortedReviewsData.length / itemsToShow)`. */
    function Slides(): int
      reads this
    {
      CeilDiv(|reviews|, ItemsToShow(windowWidth))
    }

    /** The index names one of the current slides. */
    predicate InRange()
      reads this
    {
      0 <= currentIndex < Slides()
    }

    /** The keyboard and interval paths see the slide count of the current render. */
    predicate Armed()
      reads this
    {
      armedSlides == Slides()
    }

    /**
     * The captured slide count after the index went from `prevIndex` to its
     * current value: renewed when it changed, kept otherwise.
     */
    function Rearmed(prevIndex: int, prevArmed: int): int
      reads this
    {
      if currentIndex == prevIndex then prevArmed else Slides()
    }

    /** Registers the listener and the interval again when the index changed. */
    method Rearm(prevIndex: int)
      modifies this`armedSlides
      ensures armedSlides == Rearmed(prevIndex, old(armedSlides))
    {
      if currentIndex != prevIndex {
        armedSlides := Slides();
      }
    }

    /** The "next" button and a left swipe. */
    method GoToNextSlide()
      modifies this`currentIndex, this`armedSlides
      ensures currentIndex == WrapNext(old(currentIndex), Slides())
      ensures armedSlides == Rearmed(old(currentIndex), old(armedSlides))
      ensures old(InRange()) ==> InRange()
      ensures old(Armed()) ==> Armed()
    {
      var prev := currentIndex;
      currentIndex := if currentIndex == Slides() - 1 then 0 else currentIndex + 1;
      Rearm(prev);
    }

    /** The "previous" button and a right swipe. */
    method GoToPrevSlide()
      modifies this`currentIndex, this`armedSlides
      ensures currentIndex == WrapPrev(old(currentIndex), Slides())
      ensures armedSlides == Rearmed(old(currentIndex), old(armedSlides))
      ensures old(InRange()) ==> InRange()
      ensures old(Armed()) ==> Armed()
    {
      var prev := currentIndex;
      currentIndex := if currentIndex == 0 then Slides() - 1 else currentIndex - 1;
      Rearm(prev);
    }

    /** A dot click jumps straight to its slide. */
    method GoToSlide(index: int)
      modifies this`currentIndex, this`armedSlides
      ensures currentIndex == index
      ensures armedSlides == Rearmed(old(currentIndex), old(armedSlides))
      ensures old(Armed()) ==> Armed()
    {
      var prev := currentIndex;
      currentIndex := index;
      Rearm(prev);
    }

    /**
     * The keydown listener: the arrows step like the buttons, but with the
     * captured slide count rather than the current one.
     */
    method HandleKeyDown(key: Key)
      modifies this`currentIndex, this`armedSlides
      ensures currentIndex == match key
                              case ArrowLeft => WrapPrev(old(currentIndex), old(armedSlides))
                              case ArrowRight => WrapNext(old(currentIndex), old(armedSlides))
                              case OtherKey => old(currentIndex)
      ensures armedSlides == Rearmed(old(currentIndex), old(armedSlides))
      ensures old(InRange() && Armed()) ==> InRange() && Armed()
    {
      var prev := currentIndex;
      match key {
        case ArrowLeft =>
          currentIndex := if currentIndex == 0 then armedSlides - 1 else currentIndex - 1;
        case ArrowRight =>
          currentIndex := if currentIndex == armedSlides - 1 then 0 else currentIndex + 1;
        case OtherKey =>
      }
      Rearm(prev);
    }

    /** A tick of the ten-second auto-advance interval: "next" with the captured slide count. */
    method IntervalTick()
      modifies this`currentIndex, this`armedSlides
      ensures currentIndex == WrapNext(old(currentIndex), old(armedSlides))
      ensures armedSlides == Rearmed(old(currentIndex), old(armedSlides))
      ensures old(InRange() && Armed()) ==> InRange() && Armed()
    {
      var prev := currentIndex;
      currentIndex := if currentIndex == armedSlides - 1 then 0 else currentIndex + 1;
      Rearm(prev);
    }

    method HandleTouchStart(x: int)
      modifies this`touchStartX
      ensures touchStartX == x
    {
      touchStartX := x;
    }

    method HandleTouchMove(x: int)
      modifies this`touchEndX
      ensures touchEndX == x
    {
      touchEndX := x;
    }

    /**
     * A drag of more than 100 pixels to the left goes to the next slide, one
     * to the right goes to the previous slide; anything shorter stays put.
     * The end coordinate is the last one a move reported, so a tap without a
     * move reuses the previous gesture's.
     */
    method HandleTouchEnd()
      modifies this`currentIndex, this`armedSlides
      ensures currentIndex == AfterSwipe(old(currentIndex), Slides(), SwipeOf(touchStartX, touchEndX, SwipeThreshold))
      ensures armedSlides == Rearmed(old(currentIndex), old(armedSlides))
      ensures old(InRange()) ==> InRange()
      ensures -SwipeThreshold <= touchStartX - touchEndX <= SwipeThreshold ==> currentIndex == old(currentIndex)
    {
      if touchStartX - touchEndX > SwipeThreshold {
        GoToNextSlide();
      } else if touchEndX - touchStartX > SwipeThreshold {
        GoToPrevSlide();
      }
    }

    /**
     * A resize changes the cards per slide but leaves the index alone, and
     * the listener and the interval keep the slide count they captured.
     */
    method HandleResize(width: int)
      modifies this`windowWidth
      ensures windowWidth == width
    {
      windowWidth := width;
    }

    /** The cards on screen. */
    function Visible(): (r: seq<Review>)
      reads this
      ensures InRange() ==> 0 < |r| <= ItemsToShow(windowWidth)
    {
      SlidesInRangeAreFilled(reviews, ItemsToShow(windowWidth));
      Slide(reviews, currentIndex, ItemsToShow(windowWidth))
    }
  }

  /**
   * The stale count at work, with ten reviews such as the shipped ones: on
   * a phone, go to slide 3 of 10, widen the window to four slides, and let
   * the interval tick twice. The first tick steps with the ten slides it
   * captured and lands on 4, past the last slide; the second, re-armed with
   * four slides, goes on to 5.
   */
  method StaleTickAfterWidening(data: seq<Review>) returns (first: int, second: int, slides: int)
    requires |data| == 10
    ensures first == 4 && second == 5 && slides == 4
  {
    SortReviewsOrdered(data);
    assert |multiset(SortReviews(data))| == |multiset(data)|;
    var c := new ReviewCarousel(500, data);
    assert c.Slides() == 10;
    c.GoToSlide(3);
    c.HandleResize(1200);
    assert c.Slides() == 4;
    c.IntervalTick();
    first := c.currentIndex;
    c.IntervalTick();
    second := c.currentIndex;
    slides := c.Slides();
  }
}
