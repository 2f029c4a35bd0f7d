/**
 * The banner carousel at the top of the home page: four banners, wrap-around
 * arrows, keyboard arrows and an eight-second auto-advance that share the
 * same steps, dots, a "current/total" indicator, and a swipe of more than
 * 100 pixels.
 */
module Banner {
  import opened Carousel

  /** Each banner has a desktop and a mobile picture. */
  datatype BannerImage = BannerImage(desktop: string, mobile: string)

  const BannerImages: seq<BannerImage> := [
    BannerImage("topbanner1.jpg", "topbanner1mobile.jpg"),
    BannerImage("topbanner2.jpg", "topbanner2mobile.jpg"),
    BannerImage("topbanner3.jpg", "topbanner3mobile.jpg"),
    BannerImage("topbanner4.jpg", "topbanner4mobile.jpg")
  ]

  const SwipeThreshold: int := 100

  /** Below 768 pixels the mobile pictures are shown. */
  predicate IsMobile(width: int) { width < 768 }

  /** The indicator text's two numbers: the banner shown, counted from one, and the count. */
  function Indicator(currentSlide: int): (r: (int, int))
    ensures r.1 == |BannerImages|
    ensures 0 <= currentSlide < |BannerImages| ==> 1 <= r.0 <= r.1
  {
    (currentSlide + 1, |BannerImages|)
  }

  /**
   * The two tests of the touch-end handler cannot both pass: a gesture moves
   * the carousel at most once.
   */
  lemma SwipeTestsExclusive(touchStart: int, touchEnd: int)
    ensures !(touchStart - touchEnd > SwipeThreshold && touchStart - touchEnd < -SwipeThreshold)
  {
  }

  class BannerCarousel {
    var currentSlide: int
    var touchStart: int
    var touchEnd: int
    var isMobile: bool

    constructor()
      ensures currentSlide == 0 && touchStart == 0 && touchEnd == 0 && !isMobile
    {
      currentSlide := 0;
      touchStart := 0;
      touchEnd := 0;
      isMobile := false;
    }

    /** The slide names one of the four banners. */
    predicate InRange()
      reads this
    {
      0 <= currentSlide < |BannerImages|
    }

    method PrevSlide()
      modifies this`currentSlide
      ensures currentSlide == WrapPrev(old(currentSlide), |BannerImages|)
      ensures old(InRange()) ==> InRange()
    {
      currentSlide := if currentSlide == 0 then |BannerImages| - 1 else currentSlide - 1;
    }

    method NextSlide()
      modifies this`currentSlide
      ensures currentSlide == WrapNext(old(currentSlide), |BannerImages|)
      ensures old(InRange()) ==> InRange()
    {
      currentSlide := if currentSlide == |BannerImages| - 1 then 0 else currentSlide + 1;
    }

    /** The auto-advance timer takes the same step as the "next" arrow. */
    method AutoAdvance()
      modifies this`currentSlide
      ensures currentSlide == WrapNext(old(currentSlide), |BannerImages|)
      ensures old(InRange()) ==> InRange()
    {
      currentSlide := if currentSlide == |BannerImages| - 1 then 0 else currentSlide + 1;
    }

    /** A dot click; every dot belongs to a banner, so the slide stays in range. */
    method GoToSlide(index: int)
      requires 0 <= index < |BannerImages|
      modifies this`currentSlide
      ensures currentSlide == index && InRange()
    {
      currentSlide := index;
    }

    /** The window-width check that picks the mobile pictures. */
    method CheckScreenSize(width: int)
      modifies this`isMobile
      ensures isMobile == IsMobile(width)
    {
      isMobile := width < 768;
    }

    method HandleTouchStart(x: int)
      modifies this`touchStart
      ensures touchStart == x
    {
      touchStart := x;
    }

    method HandleTouchMove(x: int)
      modifies this`touchEnd
      ensures touchEnd == x
    {
      touchEnd := x;
    }

    /**
     * Two independent tests: a drag of more than 100 pixels to the left goes
     * to the next banner, one to the right to the previous one.
     */
    method HandleTouchEnd()
      modifies this`currentSlide
      ensures currentSlide == AfterSwipe(old(currentSlide), |BannerImages|, SwipeOf(touchStart, touchEnd, SwipeThreshold))
      ensures old(InRange()) ==> InRange()
    {
      if touchStart - touchEnd > SwipeThreshold {
        NextSlide();
      }
      if touchStart - touchEnd < -SwipeThreshold {
        PrevSlide();
      }
    }
  }
}
