/**
 * The scroll listeners of app/static/js/main.js: the navbar's look and the
 * highlighted nav link. The inline style strings are reduced to which of the
 * two looks the navbar takes; a nav link's `active` class is a flag.
 */
module ScrollEffects {

  /** The navbar at the top of the page, or its more opaque, raised look once scrolled. */
  datatype NavbarLook = AtTop | Scrolled

  /** The navbar rule: the look switches only strictly past 100px. */
  function NavbarLookFor(scrollY: int): (r: NavbarLook)
    ensures r == Scrolled <==> scrollY > 100
  {
    if scrollY > 100 then Scrolled else AtTop
  }

  /** Exactly 100px is still the top look; 101px is scrolled; scrolling further never reverts it. */
  lemma NavbarThreshold(y1: int, y2: int)
    requires y1 <= y2
    ensures NavbarLookFor(100) == AtTop && NavbarLookFor(101) == Scrolled
    ensures NavbarLookFor(y1) == Scrolled ==> NavbarLookFor(y2) == Scrolled
  {
  }

  /** A `section[id]`: its id and its `offsetTop`. */
  datatype Section = Section(id: string, offsetTop: int)

  /** A section counts once the page is scrolled to 200px above its top. */
  predicate Reached(s: Section, scrollY: int)
  {
    scrollY >= s.offsetTop - 200
  }

  /** The `current` the `forEach` over the sections leaves: each reached section overwrites it. */
  function ActiveId(sections: seq<Section>, scrollY: int): (current: string)
    ensures current == "" || exists i :: 0 <= i < |sections| && Reached(sections[i], scrollY) && sections[i].id == current
  {
    if sections == [] then ""
    else if Reached(sections[|sections| - 1], scrollY) then sections[|sections| - 1].id
    else
      var front := sections[..|sections| - 1];
      assert forall i :: 0 <= i < |front| ==> front[i] == sections[i];
      ActiveId(front, scrollY)
  }

  /**
   * The active id is that of the last reached section in document order, and
   * `""` when no section is reached.
   */
  lemma {:induction false} ActiveIdIsLastReached(sections: seq<Section>, scrollY: int)
    ensures (forall i :: 0 <= i < |sections| ==> !Reached(sections[i], scrollY)) ==> ActiveId(sections, scrollY) == ""
    ensures forall i :: (0 <= i < |sections| && Reached(sections[i], scrollY) && LaterUnreached(sections, i, scrollY)
                         ==> ActiveId(sections, scrollY) == sections[i].id)
  {
    if sections != [] {
      var n := |sections|;
      var front := sections[..n - 1];
      ActiveIdIsLastReached(front, scrollY);
      assert forall i :: 0 <= i < n - 1 ==> front[i] == sections[i];
      forall i | 0 <= i < n && Reached(sections[i], scrollY) && LaterUnreached(sections, i, scrollY)
        ensures ActiveId(sections, scrollY) == sections[i].id
      {
        if i < n - 1 {
          assert !Reached(sections[n - 1], scrollY);
          assert LaterUnreached(front, i, scrollY);
        }
      }
    }
  }

  /** No section after index `i` is reached. */
  predicate LaterUnreached(sections: seq<Section>, i: int, scrollY: int)
  {
    forall j :: 0 <= j < |sections| && j > i ==> !Reached(sections[j], scrollY)
  }

  /** The first loop of `updateActiveNavLink`. */
  method ActiveSectionId(sections: seq<Section>, scrollY: int) returns (current: string)
    ensures current == ActiveId(sections, scrollY)
  {
    current := "";
    var i := 0;
    while i < |sections|
      invariant 0 <= i <= |sections|
      invariant current == ActiveId(sections[..i], scrollY)
    {
      assert sections[..i + 1][..i] == sections[..i];
      if scrollY >= sections[i].offsetTop - 200 {
        current := sections[i].id;
      }
      i := i + 1;
    }
    assert sections[..i] == sections;
  }

  /** Which nav links match `"#" + current`. */
  function Highlighted(hrefs: seq<string>, current: string): (r: seq<bool>)
    ensures |r| == |hrefs|
    ensures forall k :: 0 <= k < |hrefs| ==> (r[k] <==> hrefs[k] == "#" + current)
  {
    seq(|hrefs|, k requires 0 <= k < |hrefs| => hrefs[k] == "#" + current)
  }

  /**
   * When no section is reached, `current` stays `""` and it is a bare `"#"`
   * link, if the menu has one, that is highlighted.
   */
  lemma NothingReachedHighlightsBareHash(sections: seq<Section>, scrollY: int, hrefs: seq<string>)
    requires forall i :: 0 <= i < |sections| ==> !Reached(sections[i], scrollY)
    ensures forall k :: 0 <= k < |hrefs| ==> (Highlighted(hrefs, ActiveId(sections, scrollY))[k] <==> hrefs[k] == "#")
  {
    ActiveIdIsLastReached(sections, scrollY);
  }

  /** The `.nav-link` elements: each one's `href` and whether it has `active`. */
  class NavLinks {
    const hrefs: seq<string>
    const active: array<bool>

    ghost predicate Valid()
      reads this
    {
      active.Length == |hrefs|
    }

    constructor (hrefs: seq<string>)
      ensures Valid() && fresh(active) && this.hrefs == hrefs
    {
      this.hrefs := hrefs;
      active := new bool[|hrefs|];
    }

    /**
     * `updateActiveNavLink`, on every `scroll`: find the current section, then
     * clear every link and re-mark those whose `href` is `"#" + current`.
     */
    method UpdateActiveNavLink(sections: seq<Section>, scrollY: int)
      requires Valid()
      modifies active
      ensures active[..] == Highlighted(hrefs, ActiveId(sections, scrollY))
    {
      var current := ActiveSectionId(sections, scrollY);
      var k := 0;
      while k < active.Length
        invariant 0 <= k <= active.Length
        invariant forall t :: 0 <= t < k ==> (active[t] <==> hrefs[t] == "#" + current)
      {
        active[k] := false;
        if hrefs[k] == "#" + current {
          active[k] := true;
        }
        k := k + 1;
      }
    }
  }
}
