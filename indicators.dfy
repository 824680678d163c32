/**
 * The `active` marks of an index-based carousel (the hero and the testimonials
 * of app/static/js/main.js): one flag per slide and one per dot, in document
 * order. Both carousels clear every mark in a `forEach` over the slides and
 * then mark the slide and the dot at the current index. Reading an element past
 * the end of a NodeList gives `undefined`, and touching its `classList` throws
 * a TypeError; a method here reports that as `ok == false`, with the marks as
 * the statements before the throw left them.
 */
module Indicators {

  /** The `active` class of every slide and of every dot. */
  datatype Marks = Marks(slides: seq<bool>, dots: seq<bool>)

  function Falses(n: nat): (r: seq<bool>)
    ensures |r| == n
    ensures forall j :: 0 <= j < n ==> !r[j]
  {
    seq(n, _ => false)
  }

  /** The marks of `n` elements of which only the one at `i` is active. */
  function OnlyAt(n: nat, i: int): (r: seq<bool>)
    ensures |r| == n
    ensures forall j :: 0 <= j < n ==> (r[j] <==> j == i)
  {
    seq(n, j => j == i)
  }

  /** How many elements carry `active`. */
  function CountActive(s: seq<bool>): nat
  {
    if s == [] then 0 else (if s[0] then 1 else 0) + CountActive(s[1..])
  }

  /**
   * The clearing loop: for each slide j in order, slide j and then dot j lose
   * `active`. When there are fewer dots than slides, dot j is missing for
   * j == |dots|: slide j has been cleared, and the loop throws. The boolean
   * says whether the loop ran to its end.
   */
  function Cleared(m: Marks): (r: (Marks, bool))
    ensures |r.0.slides| == |m.slides| && |r.0.dots| == |m.dots|
    ensures r.1 <==> |m.slides| <= |m.dots|
    ensures r.1 ==> (forall j :: 0 <= j < |m.slides| ==> !r.0.slides[j] && !r.0.dots[j])
                    && r.0.dots[|m.slides|..] == m.dots[|m.slides|..]
    ensures !r.1 ==> (forall j :: 0 <= j <= |m.dots| ==> !r.0.slides[j])
                     && (forall j :: 0 <= j < |m.dots| ==> !r.0.dots[j])
                     && r.0.slides[|m.dots| + 1..] == m.slides[|m.dots| + 1..]
  {
    var n, k := |m.slides|, |m.dots|;
    if n <= k then (Marks(Falses(n), Falses(n) + m.dots[n..]), true)
    else (Marks(Falses(k + 1) + m.slides[k + 1..], Falses(k)), false)
  }

  /**
   * `slides[i].classList.add('active'); dots[i].classList.add('active')`:
   * throws before touching anything when slide i does not exist, and after
   * marking the slide when dot i does not exist.
   */
  function Activated(m: Marks, i: int): (r: (Marks, bool))
    ensures |r.0.slides| == |m.slides| && |r.0.dots| == |m.dots|
    ensures r.1 <==> 0 <= i < |m.slides| && i < |m.dots|
  {
    if !(0 <= i < |m.slides|) then (m, false)
    else if i >= |m.dots| then (Marks(m.slides[i := true], m.dots), false)
    else (Marks(m.slides[i := true], m.dots[i := true]), true)
  }

  /** Clearing every mark and then marking index `i`, stopping at the first throw. */
  function Shown(m: Marks, i: int): (r: (Marks, bool))
    ensures |r.0.slides| == |m.slides| && |r.0.dots| == |m.dots|
    ensures r.1 <==> |m.slides| <= |m.dots| && 0 <= i < |m.slides|
  {
    var (c, ok) := Cleared(m);
    if ok then Activated(c, i) else (c, false)
  }

  lemma {:induction false} CountOfOnlyAt(s: seq<bool>, i: int)
    requires forall j :: 0 <= j < |s| ==> (s[j] <==> j == i)
    ensures CountActive(s) == if 0 <= i < |s| then 1 else 0
  {
    if s != [] {
      CountOfOnlyAt(s[1..], i - 1);
    }
  }

  /**
   * With a dot for every slide and an index in range, showing a slide leaves
   * exactly that slide and that dot active; dots past the last slide are not
   * touched.
   */
  lemma ShownMarksExactlyOne(m: Marks, i: int)
    requires |m.slides| <= |m.dots|
    requires 0 <= i < |m.slides|
    ensures Shown(m, i).1
    ensures Shown(m, i).0.slides == OnlyAt(|m.slides|, i)
    ensures Shown(m, i).0.dots == OnlyAt(|m.slides|, i) + m.dots[|m.slides|..]
    ensures CountActive(Shown(m, i).0.slides) == 1
    ensures CountActive(Shown(m, i).0.dots[..|m.slides|]) == 1
  {
    var n := |m.slides|;
    var r := Shown(m, i).0;
    assert r.slides == OnlyAt(n, i);
    assert r.dots == OnlyAt(n, i) + m.dots[n..];
    CountOfOnlyAt(r.slides, i);
    assert r.dots[..n] == OnlyAt(n, i);
    CountOfOnlyAt(r.dots[..n], i);
  }

  /**
   * An index outside the slides (the unchecked `goToSlide`) still clears every
   * slide and the dots that have a slide, then throws: no slide is left active.
   */
  lemma ShownOutOfRangeClearsAll(m: Marks, i: int)
    requires |m.slides| <= |m.dots|
    requires !(0 <= i < |m.slides|)
    ensures !Shown(m, i).1
    ensures Shown(m, i).0.slides == Falses(|m.slides|)
    ensures Shown(m, i).0.dots == Falses(|m.slides|) + m.dots[|m.slides|..]
    ensures CountActive(Shown(m, i).0.slides) == 0
  {
    CountOfOnlyAt(Shown(m, i).0.slides, -1);
  }

  /** With no slides there is nothing to clear and nothing to mark: showing throws and changes nothing. */
  lemma ShownWithoutSlides(m: Marks, i: int)
    requires m.slides == []
    ensures Shown(m, i) == (m, false)
  {
    assert Falses(0) == [];
    assert Falses(0) + m.dots[0..] == m.dots;
  }

  /** The clearing `forEach` over the slides, run on the DOM's flags. */
  method ClearActive(slides: array<bool>, dots: array<bool>) returns (ok: bool)
    requires slides != dots
    modifies slides, dots
    ensures (Marks(slides[..], dots[..]), ok) == Cleared(old(Marks(slides[..], dots[..])))
  {
    var j := 0;
    while j < slides.Length
      invariant 0 <= j <= slides.Length && j <= dots.Length
      invariant forall t :: 0 <= t < j ==> !slides[t] && !dots[t]
      invariant forall t :: j <= t < slides.Length ==> slides[t] == old(slides[t])
      invariant forall t :: j <= t < dots.Length ==> dots[t] == old(dots[t])
    {
      slides[j] := false;
      if j >= dots.Length {
        assert slides[..] == Falses(j + 1) + old(slides[..])[j + 1..];
        assert dots[..] == Falses(j);
        return false;
      }
      dots[j] := false;
      j := j + 1;
    }
    assert slides[..] == Falses(slides.Length);
    assert dots[..] == Falses(slides.Length) + old(dots[..])[slides.Length..];
    return true;
  }

  /** Marking the slide and the dot at `i`. */
  method ActivateAt(slides: array<bool>, dots: array<bool>, i: int) returns (ok: bool)
    requires slides != dots
    modifies slides, dots
    ensures (Marks(slides[..], dots[..]), ok) == Activated(old(Marks(slides[..], dots[..])), i)
  {
    if !(0 <= i < slides.Length) {
      return false;
    }
    slides[i] := true;
    if i >= dots.Length {
      return false;
    }
    dots[i] := true;
    return true;
  }

  /**
   * JavaScript's `%`: the remainder truncates toward zero, so it takes the sign
   * of the dividend (Dafny's `%` never returns a negative value).
   */
  function TruncRem(a: int, n: int): (r: int)
    requires n > 0
    ensures a >= 0 ==> a == (a / n) * n + r && 0 <= r < n
    ensures a < 0 ==> a == -((-a) / n) * n + r && -n < r <= 0
  {
    if a >= 0 then a % n else -((-a) % n)
  }
}
