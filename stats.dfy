/**
 * The stats counter of app/static/js/main.js (`animateCounter` and the
 * observer that starts it). Every 16ms tick adds `target / (duration / 16)` to
 * `current`; once `current` reaches the target it is pinned there and the
 * timer stops. The counter is modelled on exact reals.
 */
module Stats {

  /** The four targets the stats section animates, in document order. */
  const Targets: seq<int> := [25000, 50, 20, 98]

  /** The digits of a whole number as JavaScript writes it. */
  function Decimal(n: int): (s: string)
    ensures |s| >= 1
    decreases if n < 0 then 1 - n else n
  {
    if n < 0 then "-" + Decimal(-n)
    else if n < 10 then [DigitChar(n)]
    else Decimal(n / 10) + [DigitChar(n % 10)]
  }

  function DigitChar(d: int): (c: char)
    requires 0 <= d < 10
    ensures '0' <= c <= '9'
  {
    ['0', '1', '2', '3', '4', '5', '6', '7', '8', '9'][d]
  }

  function DigitValue(c: char): nat
  {
    if '0' <= c <= '9' then c as int - '0' as int else 0
  }

  /** Reads a string of digits back as a number. */
  function DecimalValue(s: string): nat
  {
    if s == [] then 0 else DecimalValue(s[..|s| - 1]) * 10 + DigitValue(s[|s| - 1])
  }

  /** The digits of a non-negative number read back as that number. */
  lemma {:induction false} DecimalRoundTrip(n: nat)
    ensures DecimalValue(Decimal(n)) == n
    ensures forall k :: 0 <= k < |Decimal(n)| ==> '0' <= Decimal(n)[k] <= '9'
  {
    if n >= 10 {
      DecimalRoundTrip(n / 10);
      var s := Decimal(n);
      assert s[..|s| - 1] == Decimal(n / 10);
      assert DigitValue(DigitChar(n % 10)) == n % 10;
    } else {
      assert DigitValue(DigitChar(n)) == n;
      assert DecimalValue(Decimal(n)) == DecimalValue([]) * 10 + DigitValue(DigitChar(n));
    }
  }

  /** What the counter shows: a whole number and its suffix. */
  datatype CounterText = CounterText(number: int, suffix: string)

  /** `element.textContent` for a `CounterText`. */
  function Text(t: CounterText): string
  {
    Decimal(t.number) + t.suffix
  }

  /**
   * The format rule: thousands with `K+` for targets of 1000 and more, a
   * percentage for the target 98, and a plain `+` otherwise.
   */
  function Format(current: real, target: int): (r: CounterText)
    ensures r.suffix == if target >= 1000 then "K+" else if target == 98 then "%" else "+"
    ensures target >= 1000 ==> r.number as real <= current / 1000.0 < r.number as real + 1.0
    ensures target < 1000 ==> r.number as real <= current < r.number as real + 1.0
  {
    if target >= 1000 then CounterText((current / 1000.0).Floor, "K+")
    else if target == 98 then CounterText(current.Floor, "%")
    else CounterText(current.Floor, "+")
  }

  /** While counting up to its target, the shown number never goes past the final one. */
  lemma DisplayNeverExceedsFinal(current: real, target: int)
    requires 0.0 <= current <= target as real
    ensures 0 <= Format(current, target).number <= Format(target as real, target).number
    ensures Format(current, target).suffix == Format(target as real, target).suffix
  {
    var r, f := Format(current, target), Format(target as real, target);
    if target >= 1000 {
      assert current / 1000.0 <= target as real / 1000.0;
    }
    assert r.number as real < f.number as real + 1.0;
  }

  /** The final texts of the four stats. */
  lemma FinalTexts()
    ensures Text(Format(Targets[0] as real, Targets[0])) == "25K+"
    ensures Text(Format(Targets[1] as real, Targets[1])) == "50+"
    ensures Text(Format(Targets[2] as real, Targets[2])) == "20+"
    ensures Text(Format(Targets[3] as real, Targets[3])) == "98%"
  {
    assert Format(25000.0, 25000).number == 25;
    assert Format(50.0, 50).number == 50;
    assert Format(20.0, 20).number == 20;
    assert Format(98.0, 98).number == 98;
    assert Decimal(25) == "25";
    assert Decimal(50) == "50";
    assert Decimal(20) == "20";
    assert Decimal(98) == "98";
  }

  /** `current` after `k` ticks (ticks after the stop would leave it pinned as well). */
  function ValueAfter(increment: real, target: real, k: nat): (current: real)
    ensures increment >= 0.0 && target >= 0.0 ==> 0.0 <= current <= target
    ensures k > 0 && 0.0 <= target <= increment ==> current == target
  {
    if k == 0 then 0.0
    else
      var c := ValueAfter(increment, target, k - 1) + increment;
      if c >= target then target else c
  }

  /** After `k` ticks the counter reads `min(k * increment, target)`. */
  lemma {:induction false} ValueAfterTicks(increment: real, target: real, k: nat)
    requires increment > 0.0 && target >= 0.0
    ensures ValueAfter(increment, target, k) == if k as real * increment >= target then target else k as real * increment
  {
    if k > 0 {
      ValueAfterTicks(increment, target, k - 1);
      assert (k - 1) as real * increment + increment == k as real * increment;
    }
  }

  /** With the default 2000ms duration a positive target is reached on exactly the 125th tick. */
  lemma DefaultDurationTicks(target: int)
    requires target > 0
    ensures ValueAfter(target as real / (2000.0 / 16.0), target as real, 125) == target as real
    ensures ValueAfter(target as real / (2000.0 / 16.0), target as real, 124) < target as real
  {
    var inc := target as real / (2000.0 / 16.0);
    assert inc == target as real / 125.0;
    ValueAfterTicks(inc, target as real, 125);
    ValueAfterTicks(inc, target as real, 124);
  }

  class Counter {
    const target: int
    const increment: real
    var current: real
    var running: bool
    var text: string

    ghost predicate Valid()
      reads this
    {
      target >= 0 && increment >= 0.0 && 0.0 <= current <= target as real
      && (!running ==> current == target as real)
    }

    /** `animateCounter(element, target, duration)`: start at 0 and start the timer. */
    constructor (target: int, duration: int, initialText: string)
      requires target >= 0 && duration > 0
      ensures Valid() && running && current == 0.0 && text == initialText
      ensures this.target == target && increment == target as real / (duration as real / 16.0)
    {
      this.target := target;
      increment := target as real / (duration as real / 16.0);
      current := 0.0;
      running := true;
      text := initialText;
    }

    /** One timer tick: add the increment, pin and stop at the target, show the formatted value. */
    method Tick()
      requires Valid() && running
      modifies this
      ensures Valid()
      ensures current == if old(current) + increment >= target as real then target as real else old(current) + increment
      ensures running <==> current < target as real
      ensures text == Text(Format(current, target))
      ensures current >= old(current)
    {
      current := current + increment;
      if current >= target as real {
        current := target as real;
        running := false;
      }
      text := Text(Format(current, target));
    }
  }

  /** The stats section's observer: the counters start on the first intersection only. */
  class StatsSection {
    var animated: bool

    constructor ()
      ensures !animated
    {
      animated := false;
    }

    method OnIntersection(isIntersecting: bool) returns (start: bool)
      modifies this
      ensures start <==> isIntersecting && !old(animated)
      ensures animated <==> old(animated) || isIntersecting
    {
      start := isIntersecting && !animated;
      if start {
        animated := true;
      }
    }
  }
}
