/**
 * The "New Trending Collection!" section of the home page: a carousel over
 * the collections it is given (five by default), with wrap-around arrows,
 * dots and a swipe of more than 50 pixels.
 */
module Trending {
  import opened Wrappers
  import opened Carousel

  datatype Collection = Collection(id: int, name: string, path: string)

  /** The collections shown when the caller passes none. */
  const DefaultCollections: seq<Collection> := [
    Collection(1, "UNSTITCHED SUIT", "/collection/unsticked-suit"),
    Collection(2, "NAZAAKAT", "/collection/nazakat"),
    Collection(3, "SHOR-SHARABA", "/collection/shor-sharaba"),
    Collection(4, "SPRING-FLING", "/collection/spring-fling"),
    Collection(5, "RUT-BAHAR", "/collection/rut-bahar")
  ]

  const SwipeThreshold: int := 50

  class TrendingSection {
    const collections: seq<Collection>
    var activeIndex: int
    var touchStartX: int
    var touchEndX: int

    /** The `collections` prop, or the five defaults when the caller passes none. */
    constructor(given: Option<seq<Collection>>)
      ensures collections == if given.Some? then given.value else DefaultCollections
      ensures given.None? ==> |collections| == 5
      ensures activeIndex == 0 && touchStartX == 0 && touchEndX == 0
    {
      collections := if given.Some? then given.value else DefaultCollections;
      activeIndex := 0;
      touchStartX := 0;
      touchEndX := 0;
    }

    /** The index names one of the collections. */
    predicate InRange()
      reads this
    {
      0 <= activeIndex < |collections|
    }

    method HandlePrev()
      modifies this`activeIndex
      ensures activeIndex == WrapPrev(old(activeIndex), |collections|)
      ensures old(InRange()) ==> InRange()
    {
      activeIndex := if activeIndex == 0 then |collections| - 1 else activeIndex - 1;
    }

    method HandleNext()
      modifies this`activeIndex
      ensures activeIndex == WrapNext(old(activeIndex), |collections|)
      ensures old(InRange()) ==> InRange()
    {
      activeIndex := if activeIndex == |collections| - 1 then 0 else activeIndex + 1;
    }

    /** A dot sets the index directly. */
    method GoTo(index: int)
      modifies this`activeIndex
      ensures activeIndex == index
      ensures 0 <= index < |collections| ==> InRange()
    {
      activeIndex := index;
    }

    method HandleTouchStart(x: int)
      modifies this`touchStartX
      ensures touchStartX == x
    {
      touchStartX := x;
    }

    /**
     * The lift-off point is recorded; a drag of more than 50 pixels to the
     * left goes to the next collection, one to the right to the previous
     * one, and a shorter one changes nothing.
     */
    method HandleTouchEnd(x: int)
      modifies this`touchEndX, this`activeIndex
      ensures touchEndX == x
      ensures activeIndex == AfterSwipe(old(activeIndex), |collections|, SwipeOf(touchStartX, x, SwipeThreshold))
      ensures -SwipeThreshold <= touchStartX - x <= SwipeThreshold ==> activeIndex == old(activeIndex)
      ensures old(InRange()) ==> InRange()
    {
      touchEndX := x;
      var diff := touchStartX - touchEndX;
      if diff > SwipeThreshold {
        HandleNext();
      } else if diff < -SwipeThreshold {
        HandlePrev();
      }
    }
  }
}
