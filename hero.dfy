/**
 * The hero carousel of app/static/js/main.js (`heroCarousel`) and the
 * keyboard binding that drives it. The slide and dot `active` classes are the
 * two flag arrays; `currentSlide` is the index. The auto-play timer is reduced
 * to whether it was started and how often it was restarted.
 */
module Hero {
  import opened Wrappers
  import opened Indicators

  /**
   * `(currentSlide + direction + slides.length) % slides.length` with
   * JavaScript's `%`. From an index in range, one step forward or back wraps
   * around the ends.
   */
  function NextIndex(i: int, direction: int, n: int): (r: int)
    requires n > 0
    ensures 0 <= i < n && (direction == 1 || direction == -1) ==> 0 <= r < n
    ensures 0 <= i < n && direction == 1 ==> r == if i == n - 1 then 0 else i + 1
    ensures 0 <= i < n && direction == -1 ==> r == if i == 0 then n - 1 else i - 1
  {
    TruncRem(i + direction + n, n)
  }

  /** The index after `k` auto-play steps (`changeSlide(1)`) from `i`. */
  function Advanced(i: int, n: int, k: nat): int
    requires n > 0
  {
    if k == 0 then i else NextIndex(Advanced(i, n, k - 1), 1, n)
  }

  /** Up to one full turn, `k` forward steps from an index in range add `k` and wrap once past the end. */
  lemma {:induction false} AdvancedWrapsOnce(i: int, n: int, k: nat)
    requires 0 <= i < n && k <= n
    ensures Advanced(i, n, k) == if i + k < n then i + k else i + k - n
  {
    if k > 0 {
      AdvancedWrapsOnce(i, n, k - 1);
    }
  }

  /**
   * `changeSlide(1)` applied once per slide returns to the starting slide, and
   * not earlier.
   */
  lemma ChangeSlideCycle(i: int, n: int)
    requires 0 <= i < n
    ensures Advanced(i, n, n) == i
    ensures forall k :: 0 < k < n ==> Advanced(i, n, k) != i
  {
    AdvancedWrapsOnce(i, n, n);
    forall k | 0 < k < n
      ensures Advanced(i, n, k) != i
    {
      AdvancedWrapsOnce(i, n, k);
    }
  }

  /**
   * The `keydown` rule: outside an INPUT or TEXTAREA, ArrowLeft asks for the
   * previous hero slide and ArrowRight for the next; every other key is ignored.
   */
  function KeyDirection(tagName: string, key: string): (r: Option<int>)
    ensures r.Some? <==> tagName != "INPUT" && tagName != "TEXTAREA" && (key == "ArrowLeft" || key == "ArrowRight")
    ensures r.Some? ==> (r.value == -1 <==> key == "ArrowLeft") && (r.value == 1 <==> key == "ArrowRight")
  {
    if tagName == "INPUT" || tagName == "TEXTAREA" then None
    else if key == "ArrowLeft" then Some(-1)
    else if key == "ArrowRight" then Some(1)
    else None
  }

  class HeroCarousel {
    var currentSlide: int
    const slides: array<bool>
    const dots: array<bool>
    var autoPlaying: bool
    var autoPlayRestarts: nat

    ghost predicate Valid()
      reads this
    {
      slides != dots
    }

    function Current(): Marks
      reads this, slides, dots
    {
      Marks(slides[..], dots[..])
    }

    /** The page as loaded: the markup's marks, index 0, no timer yet. */
    constructor (slideMarks: seq<bool>, dotMarks: seq<bool>)
      ensures Valid() && fresh(slides) && fresh(dots)
      ensures Current() == Marks(slideMarks, dotMarks)
      ensures currentSlide == 0 && !autoPlaying && autoPlayRestarts == 0
    {
      currentSlide := 0;
      slides := new bool[|slideMarks|](j requires 0 <= j < |slideMarks| => slideMarks[j]);
      dots := new bool[|dotMarks|](j requires 0 <= j < |dotMarks| => dotMarks[j]);
      autoPlaying := false;
      autoPlayRestarts := 0;
    }

    /** `init`: starts auto-play (the dot click bindings are `GoToSlide`). */
    method Init()
      modifies this
      ensures autoPlaying
      ensures currentSlide == old(currentSlide) && autoPlayRestarts == old(autoPlayRestarts)
    {
      autoPlaying := true;
    }

    /** `updateSlide`: clear every mark, then mark the slide and dot at `currentSlide`. */
    method UpdateSlide() returns (ok: bool)
      requires Valid()
      modifies slides, dots
      ensures (Current(), ok) == Shown(old(Current()), currentSlide)
    {
      ok := ClearActive(slides, dots);
      if ok {
        ok := ActivateAt(slides, dots, currentSlide);
      }
    }

    /**
     * `changeSlide(direction)`: step the index with wrap-around, show it, and
     * restart auto-play unless `updateSlide` threw. With no slides the index
     * arithmetic yields NaN and `updateSlide` throws.
     */
    method ChangeSlide(direction: int) returns (ok: bool)
      requires Valid()
      modifies this, slides, dots
      ensures slides.Length > 0 ==> currentSlide == NextIndex(old(currentSlide), direction, slides.Length)
      ensures slides.Length == 0 ==> currentSlide == old(currentSlide)
      ensures (Current(), ok) == Shown(old(Current()), currentSlide)
      ensures autoPlayRestarts == old(autoPlayRestarts) + (if ok then 1 else 0)
      ensures autoPlaying == (old(autoPlaying) || ok)
    {
      if slides.Length == 0 {
        ShownWithoutSlides(Current(), currentSlide);
        return false;
      }
      currentSlide := NextIndex(currentSlide, direction, slides.Length);
      ok := UpdateSlide();
      if ok {
        autoPlaying := true;
        autoPlayRestarts := autoPlayRestarts + 1;
      }
    }

    /** `goToSlide(index)`: store the index unchecked, show it, restart auto-play unless that threw. */
    method GoToSlide(index: int) returns (ok: bool)
      requires Valid()
      modifies this, slides, dots
      ensures currentSlide == index
      ensures (Current(), ok) == Shown(old(Current()), index)
      ensures autoPlayRestarts == old(autoPlayRestarts) + (if ok then 1 else 0)
      ensures autoPlaying == (old(autoPlaying) || ok)
    {
      currentSlide := index;
      ok := UpdateSlide();
      if ok {
        autoPlaying := true;
        autoPlayRestarts := autoPlayRestarts + 1;
      }
    }

    /** The `keydown` listener: a recognised arrow key changes the hero slide. */
    method OnKeydown(tagName: string, key: string) returns (ok: bool)
      requires Valid()
      modifies this, slides, dots
      ensures KeyDirection(tagName, key).None? ==>
        ok && currentSlide == old(currentSlide) && Current() == old(Current()) && autoPlayRestarts == old(autoPlayRestarts)
      ensures KeyDirection(tagName, key).Some? && slides.Length > 0 ==>
        currentSlide == NextIndex(old(currentSlide), KeyDirection(tagName, key).value, slides.Length)
      ensures KeyDirection(tagName, key).Some? && slides.Length == 0 ==> currentSlide == old(currentSlide)
      ensures KeyDirection(tagName, key).Some? ==> (Current(), ok) == Shown(old(Current()), currentSlide)
      ensures autoPlayRestarts == old(autoPlayRestarts) + (if KeyDirection(tagName, key).Some? && ok then 1 else 0)
      ensures autoPlaying == (old(autoPlaying) || (KeyDirection(tagName, key).Some? && ok))
    {
      var d := KeyDirection(tagName, key);
      if d.None? {
        return true;
      }
      ok := ChangeSlide(d.value);
    }
  }

  /**
   * On a well-formed hero (a dot per slide, at least one slide), pressing
   * ArrowRight n times shows every slide in turn and comes back to the first,
   * with exactly one slide active after each press.
   */
  method ArrowRightRoundTrip(n: nat) returns (visited: seq<int>, activeCounts: seq<nat>)
    requires n > 0
    ensures |visited| == n && |activeCounts| == n
    ensures forall k :: 0 <= k < n ==> visited[k] == if k + 1 < n then k + 1 else 0
    ensures forall k :: 0 <= k < n ==> activeCounts[k] == 1
    ensures visited[n - 1] == 0
  {
    var hero := new HeroCarousel(OnlyAt(n, 0), OnlyAt(n, 0));
    hero.Init();
    visited, activeCounts := [], [];
    var k := 0;
    while k < n
      invariant 0 <= k <= n
      invariant hero.Valid() && hero.slides.Length == n && hero.dots.Length == n
      invariant hero.currentSlide == if k < n then k else 0
      invariant |visited| == k && |activeCounts| == k
      invariant forall t :: 0 <= t < k ==> visited[t] == if t + 1 < n then t + 1 else 0
      invariant forall t :: 0 <= t < k ==> activeCounts[t] == 1
    {
      ghost var before := hero.Current();
      var ok := hero.OnKeydown("BODY", "ArrowRight");
      ShownMarksExactlyOne(before, hero.currentSlide);
      visited := visited + [hero.currentSlide];
      activeCounts := activeCounts + [CountActive(hero.slides[..])];
      k := k + 1;
    }
  }
}
