/**
 * `addSwipeSupport` of app/static/js/main.js: a touch gesture recogniser whose
 * state (`startX`, `startY`, `isDragging`) lives across the `touchstart`,
 * `touchmove` and `touchend` listeners of one container. Its move callback is
 * always `carousel.move(dir)` of a services or doctors carousel.
 */
module Swipe {
  import opened Wrappers
  import opened Track

  function Abs(x: int): nat
  {
    if x < 0 then -x else x
  }

  /**
   * The argument `touchend` passes to the move callback for a horizontal
   * displacement `dx`, if it calls it: a swipe of more than 50px to the right
   * moves back (-1), one to the left moves forward (+1).
   */
  function SwipeDirection(dx: int): (r: Option<int>)
    ensures r.Some? <==> dx > 50 || dx < -50
    ensures r == Some(-1) <==> dx > 50
    ensures r == Some(1) <==> dx < -50
  {
    if Abs(dx) > 50 then (if dx > 0 then Some(-1) else Some(1)) else None
  }

  class SwipeRecognizer {
    var startX: int
    var startY: int
    var isDragging: bool

    constructor ()
      ensures startX == 0 && startY == 0 && !isDragging
    {
      startX, startY, isDragging := 0, 0, false;
    }

    /** `touchstart`: remember where the first touch began. */
    method TouchStart(x: int, y: int)
      modifies this
      ensures startX == x && startY == y && isDragging
    {
      startX, startY, isDragging := x, y, true;
    }

    /** `touchmove`: default scrolling is suppressed for a gesture more horizontal than vertical. */
    method TouchMove(x: int, y: int) returns (preventDefault: bool)
      ensures preventDefault <==> isDragging && Abs(x - startX) > Abs(y - startY)
      ensures !isDragging || x == startX ==> !preventDefault
    {
      if !isDragging {
        return false;
      }
      var diffX := x - startX;
      var diffY := y - startY;
      preventDefault := Abs(diffX) > Abs(diffY);
    }

    /**
     * `touchend`: after a `touchstart`, a horizontal travel of more than 50px
     * calls `carousel.move` once (`called` is its argument); the gesture then
     * ends, unless `move` threw, which skips the last statement.
     */
    method TouchEnd(endX: int, carousel: TrackCarousel) returns (called: Option<int>, ok: bool)
      requires carousel.Valid()
      modifies this, carousel`position
      ensures called == if old(isDragging) then SwipeDirection(endX - old(startX)) else None
      ensures called.None? ==> ok && carousel.position == old(carousel.position)
      ensures called.Some? ==> (ok <==> carousel.cards.Some?)
      ensures called.Some? && ok ==>
        carousel.position == Moved(old(carousel.position), called.value, carousel.cards.value,
                                   carousel.visibleCards, carousel.cardWidth)
      ensures called.Some? && !ok ==> carousel.position == old(carousel.position)
      ensures isDragging == (old(isDragging) && !ok)
      ensures startX == old(startX) && startY == old(startY)
    {
      called, ok := None, true;
      if !isDragging {
        return;
      }
      var diffX := endX - startX;
      called := SwipeDirection(diffX);
      if called.Some? {
        ok := carousel.Move(called.value);
        if !ok {
          return;
        }
      }
      isDragging := false;
    }
  }

  /**
   * A swipe 60px to the left on the doctors carousel (four cards, 1024px
   * window, scrolled one card in) calls `move(1)` exactly once and brings the
   * strip back to 0; a second `touchend` without a new `touchstart` calls nothing.
   */
  method SwipeLeftOnDoctors() returns (first: Option<int>, position: int, second: Option<int>)
    ensures first == Some(1) && position == 0 && second == None
  {
    var doctors := new TrackCarousel(DoctorsWidths);
    doctors.Init(true, 4, 1024);
    var ok := doctors.Move(-1);
    var swipe := new SwipeRecognizer();
    swipe.TouchStart(200, 300);
    var prevent := swipe.TouchMove(170, 305);
    first, ok := swipe.TouchEnd(140, doctors);
    position := doctors.position;
    second, ok := swipe.TouchEnd(100, doctors);
  }
}
