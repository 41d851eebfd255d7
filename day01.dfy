/**
 * Day 1: fuel for module masses.  A mass needs a third of itself, rounded
 * toward zero, minus two, and never less than nothing; in the second part
 * the fuel itself needs fuel, until the increment is zero.
 */
module Day01 {
  import RustInt

  /** `fuel_for`: `(mass / 3 - 2).max(0)` with Rust's truncating division. */
  function FuelFor(mass: int): (f: nat)
    ensures mass > 0 ==> f < mass
    ensures f == 0 <==> mass < 9
    ensures mass >= 0 ==> 3 * f <= mass
  {
    var q := RustInt.Div(mass, 3) - 2;
    if q > 0 then q else 0
  }

  /** The fuel for a mass, plus the fuel for that fuel, and so on. */
  function TotalFuel(mass: int): nat
    decreases if mass > 0 then mass else 0
  {
    if mass <= 0 then 0 else FuelFor(mass) + TotalFuel(FuelFor(mass))
  }

  /** `total_fuel_for`: the loop that adds each fuel increment until it reaches zero. */
  method TotalFuelFor(mass: int) returns (sum: int)
    ensures sum == TotalFuel(mass)
  {
    sum := 0;
    var last := mass;
    while last > 0
      invariant sum + TotalFuel(last) == TotalFuel(mass)
      decreases if last > 0 then last else 0
    {
      var f := FuelFor(last);
      sum := sum + f;
      last := f;
    }
  }

  /** The total never falls short of the first increment, and never exceeds half the mass. */
  lemma {:induction false} TotalFuelBounds(mass: int)
    ensures FuelFor(mass) <= TotalFuel(mass)
    ensures mass >= 0 ==> 2 * TotalFuel(mass) <= mass
    decreases if mass > 0 then mass else 0
  {
    if mass > 0 {
      TotalFuelBounds(FuelFor(mass));
    }
  }

  /** `part1`: the fuel of every module, summed. */
  function Part1(input: seq<int>): nat
  {
    if |input| == 0 then 0 else Part1(input[..|input| - 1]) + FuelFor(input[|input| - 1])
  }

  /** `part2`: the total fuel of every module, summed. */
  function Part2(input: seq<int>): nat
  {
    if |input| == 0 then 0 else Part2(input[..|input| - 1]) + TotalFuel(input[|input| - 1])
  }

  /** Counting the fuel's own fuel only adds: part 2 is at least part 1. */
  lemma {:induction false} Part2AtLeastPart1(input: seq<int>)
    ensures Part1(input) <= Part2(input)
  {
    if |input| > 0 {
      Part2AtLeastPart1(input[..|input| - 1]);
      TotalFuelBounds(input[|input| - 1]);
    }
  }

  /** The sums split over concatenation, so each module contributes independently. */
  lemma {:induction false} PartsAppend(a: seq<int>, b: seq<int>)
    ensures Part1(a + b) == Part1(a) + Part1(b)
    ensures Part2(a + b) == Part2(a) + Part2(b)
    decreases |b|
  {
    if |b| > 0 {
      var b' := b[..|b| - 1];
      assert (a + b)[..|a + b| - 1] == a + b';
      PartsAppend(a, b');
    } else {
      assert a + b == a;
    }
  }

  /** The examples of the puzzle statement. */
  lemma FuelExamples()
    ensures FuelFor(12) == 2 && FuelFor(14) == 2 && FuelFor(1969) == 654 && FuelFor(100756) == 33583
  {
  }

  lemma TotalFuelExamples()
    ensures TotalFuel(12) == 2 && TotalFuel(14) == 2 && TotalFuel(1969) == 966
  {
    assert FuelFor(12) == 2 && TotalFuel(2) == 0;
    assert FuelFor(14) == 2;
    assert FuelFor(5) == 0 && TotalFuel(5) == 0;
    assert FuelFor(21) == 5 && TotalFuel(21) == 5;
    assert FuelFor(70) == 21 && TotalFuel(70) == 26;
    assert FuelFor(216) == 70 && TotalFuel(216) == 96;
    assert FuelFor(654) == 216 && TotalFuel(654) == 312;
    assert FuelFor(1969) == 654;
  }

  lemma TotalFuelLargeExample()
    ensures TotalFuel(100756) == 50346
  {
    assert FuelFor(2) == 0 && TotalFuel(2) == 0;
    assert FuelFor(12) == 2 && TotalFuel(12) == 2;
    assert FuelFor(43) == 12 && TotalFuel(43) == 14;
    assert FuelFor(135) == 43 && TotalFuel(135) == 57;
    assert FuelFor(411) == 135 && TotalFuel(411) == 192;
    assert FuelFor(1240) == 411 && TotalFuel(1240) == 603;
    assert FuelFor(3728) == 1240 && TotalFuel(3728) == 1843;
    assert FuelFor(11192) == 3728 && TotalFuel(11192) == 5571;
    assert FuelFor(33583) == 11192 && TotalFuel(33583) == 16763;
    assert FuelFor(100756) == 33583;
  }
}
