/**
 * The services and doctors carousels of app/static/js/main.js
 * (`servicesCarousel`, `doctorsCarousel`). Both keep a pixel offset of a strip
 * of cards and differ only in their card widths, so they are one class here,
 * built with either width table. `cards` is `null` until `init` finds the
 * container; `move` on a `null` list throws a TypeError (`ok == false`).
 */
module Track {
  import opened Wrappers

  /** Card widths below 768px, below 1024px, and from 1024px on. */
  datatype Widths = Widths(narrow: int, mid: int, wide: int)

  const ServicesWidths := Widths(330, 380, 380)
  const DoctorsWidths := Widths(330, 350, 350)

  /** `updateVisibleCards`: the (visibleCards, cardWidth) the window width selects. */
  function Breakpoint(w: Widths, windowWidth: int): (r: (int, int))
    ensures r.0 == 1 <==> windowWidth < 768
    ensures r.0 == 2 <==> 768 <= windowWidth < 1024
    ensures r.0 == 3 <==> 1024 <= windowWidth
    ensures r.1 == if r.0 == 1 then w.narrow else if r.0 == 2 then w.mid else w.wide
  {
    if windowWidth < 768 then (1, w.narrow)
    else if windowWidth < 1024 then (2, w.mid)
    else (3, w.wide)
  }

  /** A wider window never shows fewer cards. */
  lemma BreakpointMonotone(w: Widths, a: int, b: int)
    requires a <= b
    ensures Breakpoint(w, a).0 <= Breakpoint(w, b).0
  {
  }

  /** `maxPosition`: `-(cards.length - visibleCards) * cardWidth`, the lowest offset `move` allows. */
  function MaxPosition(cardCount: int, visible: int, width: int): (lo: int)
    ensures cardCount >= visible && width >= 0 ==> lo <= 0
    ensures cardCount < visible && width > 0 ==> lo >= width
  {
    var d := cardCount - visible;
    ProductSigns(d, width);
    -d * width
  }

  /** The signs of a product, for the two cases `maxPosition` meets. */
  lemma ProductSigns(d: int, width: int)
    ensures d >= 0 && width >= 0 ==> -d * width <= 0
    ensures d < 0 && width > 0 ==> -d * width >= width
  {
    if d < 0 && width > 0 {
      assert -d * width == width + (-d - 1) * width;
    }
  }

  /**
   * `move(direction)`: add `direction * cardWidth`, then
   * `Math.max(maxPosition, Math.min(0, position))`.
   */
  function Moved(position: int, direction: int, cardCount: int, visible: int, width: int): (r: int)
    ensures r >= MaxPosition(cardCount, visible, width)
    ensures r == MaxPosition(cardCount, visible, width) || r == 0 || r == position + direction * width
    ensures MaxPosition(cardCount, visible, width) <= position + direction * width <= 0
            ==> r == position + direction * width
    ensures MaxPosition(cardCount, visible, width) <= 0 ==> r <= 0
    ensures MaxPosition(cardCount, visible, width) > 0 ==> r == MaxPosition(cardCount, visible, width)
    ensures MaxPosition(cardCount, visible, width) <= 0 && position + direction * width > 0 ==> r == 0
    ensures position + direction * width < MaxPosition(cardCount, visible, width) ==> r == MaxPosition(cardCount, visible, width)
  {
    var p := position + direction * width;
    var upper := if p < 0 then p else 0;
    var lo := MaxPosition(cardCount, visible, width);
    if lo > upper then lo else upper
  }

  /** With at least as many cards as fit, every move ends inside [maxPosition, 0], from any start. */
  lemma MovedInRange(position: int, direction: int, cardCount: int, visible: int, width: int)
    requires cardCount >= visible && width >= 0
    ensures MaxPosition(cardCount, visible, width) <= Moved(position, direction, cardCount, visible, width) <= 0
  {
  }

  /**
   * With fewer cards than fit, `maxPosition` is positive and the clamp pins the
   * strip at `(visible - cardCount) * cardWidth`, whatever the start and the
   * direction: the strip is pushed right instead of resting at 0.
   */
  lemma MovedWithTooFewCards(position: int, direction: int, cardCount: int, visible: int, width: int)
    requires cardCount < visible && width > 0
    ensures Moved(position, direction, cardCount, visible, width) == (visible - cardCount) * width
    ensures Moved(position, direction, cardCount, visible, width) > 0
  {
    assert MaxPosition(cardCount, visible, width) == (visible - cardCount) * width;
  }

  /**
   * The sign of `move`: from an offset in range, `move(1)` goes one card toward
   * 0 (stopping at 0) and `move(-1)` one card toward the later cards (stopping
   * at `maxPosition`).
   */
  lemma MoveDirections(position: int, cardCount: int, visible: int, width: int)
    requires cardCount >= visible && width > 0
    requires MaxPosition(cardCount, visible, width) <= position <= 0
    ensures Moved(position, 1, cardCount, visible, width) == if position + width < 0 then position + width else 0
    ensures Moved(position, -1, cardCount, visible, width)
      == if position - width > MaxPosition(cardCount, visible, width) then position - width else MaxPosition(cardCount, visible, width)
    ensures Moved(position, 1, cardCount, visible, width) >= position
    ensures Moved(position, -1, cardCount, visible, width) <= position
  {
  }

  /** The offset after `k` calls of `move(direction)` from `position`. */
  function MovedTimes(position: int, direction: int, k: nat, cardCount: int, visible: int, width: int): int
  {
    if k == 0 then position
    else Moved(MovedTimes(position, direction, k - 1, cardCount, visible, width), direction, cardCount, visible, width)
  }

  /**
   * From the start, `k` calls of `move(-1)` reach `max(-k * cardWidth, maxPosition)`:
   * one card per call until the last card is in view, then no further.
   */
  lemma {:induction false} MovingBackReachesLastCard(k: nat, cardCount: int, visible: int, width: int)
    requires cardCount >= visible && width > 0
    ensures MovedTimes(0, -1, k, cardCount, visible, width)
      == if -(k * width) > MaxPosition(cardCount, visible, width) then -(k * width) else MaxPosition(cardCount, visible, width)
  {
    if k > 0 {
      MovingBackReachesLastCard(k - 1, cardCount, visible, width);
      assert k * width == (k - 1) * width + width;
    }
  }

  /** From the start, `move(1)` never leaves 0. */
  lemma {:induction false} MovingForwardStaysAtStart(k: nat, cardCount: int, visible: int, width: int)
    requires cardCount >= visible && width > 0
    ensures MovedTimes(0, 1, k, cardCount, visible, width) == 0
  {
    if k > 0 {
      MovingForwardStaysAtStart(k - 1, cardCount, visible, width);
    }
  }

  class TrackCarousel {
    const widths: Widths
    var position: int
    var cards: Option<nat>
    var cardWidth: int
    var visibleCards: int

    ghost predicate Valid()
      reads this
    {
      widths.narrow > 0 && widths.mid > 0 && widths.wide > 0 && cardWidth > 0 && visibleCards >= 1
    }

    /** The object literal: offset 0, no cards yet, three cards of the wide width. */
    constructor (widths: Widths)
      requires widths.narrow > 0 && widths.mid > 0 && widths.wide > 0
      ensures Valid() && this.widths == widths
      ensures position == 0 && cards == None && cardWidth == widths.wide && visibleCards == 3
    {
      this.widths := widths;
      position := 0;
      cards := None;
      cardWidth := widths.wide;
      visibleCards := 3;
    }

    /** `updateVisibleCards`, on load and on every `resize`: the offset is not re-clamped. */
    method UpdateVisibleCards(windowWidth: int)
      requires Valid()
      modifies this
      ensures Valid()
      ensures (visibleCards, cardWidth) == Breakpoint(widths, windowWidth)
      ensures position == old(position) && cards == old(cards)
    {
      var b := Breakpoint(widths, windowWidth);
      visibleCards, cardWidth := b.0, b.1;
    }

    /** `init`: without its container the carousel keeps `cards == null`; otherwise it counts the cards and sizes them. */
    method Init(containerFound: bool, cardCount: nat, windowWidth: int)
      requires Valid()
      modifies this
      ensures Valid()
      ensures !containerFound ==>
        cards == old(cards) && visibleCards == old(visibleCards) && cardWidth == old(cardWidth)
      ensures containerFound ==>
        cards == Some(cardCount) && (visibleCards, cardWidth) == Breakpoint(widths, windowWidth)
      ensures position == old(position)
    {
      if !containerFound {
        return;
      }
      cards := Some(cardCount);
      UpdateVisibleCards(windowWidth);
    }

    /** `move(direction)`: shift one card width and clamp; throws while `cards` is `null`. */
    method Move(direction: int) returns (ok: bool)
      requires Valid()
      modifies this`position
      ensures ok <==> cards.Some?
      ensures position == if ok then Moved(old(position), direction, cards.value, visibleCards, cardWidth) else old(position)
      ensures cards.Some? && cards.value >= visibleCards ==>
        MaxPosition(cards.value, visibleCards, cardWidth) <= position <= 0
      ensures cards.Some? && cards.value < visibleCards ==> position == (visibleCards - cards.value) * cardWidth
    {
      if cards.None? {
        return false;
      }
      var maxPosition := MaxPosition(cards.value, visibleCards, cardWidth);
      position := position + direction * cardWidth;
      position := if maxPosition > (if position < 0 then position else 0) then maxPosition
                  else if position < 0 then position else 0;
      ok := true;
      if cards.value >= visibleCards {
        MovedInRange(old(position), direction, cards.value, visibleCards, cardWidth);
      } else {
        MovedWithTooFewCards(old(position), direction, cards.value, visibleCards, cardWidth);
      }
    }
  }

  /**
   * Four doctor cards on a 1024px window (three visible, 350px each): two
   * `move(-1)` stop one card in, at -350, and two `move(1)` bring the strip back
   * to 0 and keep it there.
   */
  method FourDoctorsScenario() returns (positions: seq<int>)
    ensures positions == [-350, -350, 0, 0]
  {
    var doctors := new TrackCarousel(DoctorsWidths);
    doctors.Init(true, 4, 1024);
    var ok := doctors.Move(-1);
    positions := [doctors.position];
    ok := doctors.Move(-1);
    positions := positions + [doctors.position];
    ok := doctors.Move(1);
    positions := positions + [doctors.position];
    ok := doctors.Move(1);
    positions := positions + [doctors.position];
  }

  /** Two service cards on a desktop window: any move pushes the strip to +380. */
  method TwoServicesScenario() returns (forward: int, back: int)
    ensures forward == 380 && back == 380
  {
    var services := new TrackCarousel(ServicesWidths);
    services.Init(true, 2, 1280);
    var ok := services.Move(1);
    forward := services.position;
    ok := services.Move(-1);
    back := services.position;
  }
}
