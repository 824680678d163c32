/**
 * The testimonials carousel of app/static/js/main.js (`testimonialsCarousel`).
 * Unlike the hero, its `goToSlide` clears the marks first and only then stores
 * the index, and `init` does nothing on a page without testimonials. The
 * auto-play timer is reduced to whether it was started and how often it was
 * restarted.
 */
module Testimonials {
  import opened Indicators

  /** `(currentSlide + 1) % slides.length` with JavaScript's `%`. */
  function NextSlideIndex(i: int, n: int): (r: int)
    requires n > 0
    ensures 0 <= i < n ==> r == if i == n - 1 then 0 else i + 1
    ensures i >= -1 ==> 0 <= r < n
  {
    TruncRem(i + 1, n)
  }

  class TestimonialsCarousel {
    var currentSlide: int
    const slides: array<bool>
    const dots: array<bool>
    var autoPlaying: bool
    var autoPlayRestarts: nat

    ghost predicate Valid()
      reads this
    {
      slides != dots
    }

    function Current(): Marks
      reads this, slides, dots
    {
      Marks(slides[..], dots[..])
    }

    constructor (slideMarks: seq<bool>, dotMarks: seq<bool>)
      ensures Valid() && fresh(slides) && fresh(dots)
      ensures Current() == Marks(slideMarks, dotMarks)
      ensures currentSlide == 0 && !autoPlaying && autoPlayRestarts == 0
    {
      currentSlide := 0;
      slides := new bool[|slideMarks|](j requires 0 <= j < |slideMarks| => slideMarks[j]);
      dots := new bool[|dotMarks|](j requires 0 <= j < |dotMarks| => dotMarks[j]);
      autoPlaying := false;
      autoPlayRestarts := 0;
    }

    /** `init`: with no slides, nothing happens; otherwise auto-play starts. */
    method Init()
      modifies this
      ensures autoPlaying == (old(autoPlaying) || slides.Length > 0)
      ensures currentSlide == old(currentSlide) && autoPlayRestarts == old(autoPlayRestarts)
    {
      if slides.Length == 0 {
        return;
      }
      autoPlaying := true;
    }

    /**
     * `goToSlide(index)`: clear every mark; only if that loop finished, store
     * the unchecked index and mark it; restart auto-play unless something threw.
     */
    method GoToSlide(index: int) returns (ok: bool)
      requires Valid()
      modifies this, slides, dots
      ensures currentSlide == if Cleared(old(Current())).1 then index else old(currentSlide)
      ensures (Current(), ok) == Shown(old(Current()), index)
      ensures autoPlayRestarts == old(autoPlayRestarts) + (if ok then 1 else 0)
      ensures autoPlaying == (old(autoPlaying) || ok)
    {
      ok := ClearActive(slides, dots);
      if !ok {
        return;
      }
      currentSlide := index;
      ok := ActivateAt(slides, dots, currentSlide);
      if ok {
        autoPlaying := true;
        autoPlayRestarts := autoPlayRestarts + 1;
      }
    }

    /**
     * `nextSlide`, run only by the auto-play timer, which `init` starts only
     * when there is at least one slide.
     */
    method NextSlide() returns (ok: bool)
      requires Valid() && slides.Length > 0
      modifies this, slides, dots
      ensures currentSlide == if Cleared(old(Current())).1 then NextSlideIndex(old(currentSlide), slides.Length) else old(currentSlide)
      ensures (Current(), ok) == Shown(old(Current()), NextSlideIndex(old(currentSlide), slides.Length))
      ensures autoPlayRestarts == old(autoPlayRestarts) + (if ok then 1 else 0)
      ensures autoPlaying == (old(autoPlaying) || ok)
    {
      ok := GoToSlide(NextSlideIndex(currentSlide, slides.Length));
    }
  }

  /**
   * On well-formed markup (a dot per slide), from any index in range, the next
   * auto-play step moves to the following slide with wrap-around and leaves it
   * the only active one.
   */
  method AutoPlayStep(marks: Marks, start: int) returns (next: int, activeSlides: nat, activeDots: nat)
    requires 0 < |marks.slides| <= |marks.dots|
    requires 0 <= start < |marks.slides|
    ensures next == if start == |marks.slides| - 1 then 0 else start + 1
    ensures activeSlides == 1 && activeDots == 1
  {
    var carousel := new TestimonialsCarousel(marks.slides, marks.dots);
    carousel.Init();
    var ok := carousel.GoToSlide(start);
    ShownMarksExactlyOne(marks, start);
    ghost var before := carousel.Current();
    ok := carousel.NextSlide();
    next := carousel.currentSlide;
    ShownMarksExactlyOne(before, next);
    activeSlides := CountActive(carousel.slides[..]);
    activeDots := CountActive(carousel.dots[..carousel.slides.Length]);
  }
}
