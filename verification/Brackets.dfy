/** Bracket schedules, _bracket_tax in modules/rules/rules.py: what the published (floor, base, rate)
    rows compute, when that is the sum of the marginal slices, and when it never falls. */
module Brackets {

  datatype Bracket = Bracket(floor: real, base: real, rate: real)

  type Schedule = seq<Bracket>

  // ----- the lookup -----

  /** The last of the leading brackets whose floor the amount clears; cur when none does. */
  function PickFrom(cur: Bracket, amount: real, s: Schedule): Bracket
    decreases |s|
  {
    if s == [] || amount < s[0].floor then cur else PickFrom(s[0], amount, s[1..])
  }

  function TaxIn(b: Bracket, amount: real): real {
    b.base + b.rate * (amount - b.floor)
  }

  const NOTHING := Bracket(0.0, 0.0, 0.0)

  function BracketTax(amount: real, s: Schedule): real {
    TaxIn(PickFrom(NOTHING, amount, s), amount)
  }

  /** The loop. */
  method BracketTaxLoop(amount: real, s: Schedule) returns (tax: real)
    ensures tax == BracketTax(amount, s)
  {
    var floor, base, rate := 0.0, 0.0, 0.0;
    var k := 0;
    assert s[0..] == s;
    while k < |s|
      invariant 0 <= k <= |s|
      invariant PickFrom(Bracket(floor, base, rate), amount, s[k..]) == PickFrom(NOTHING, amount, s)
    {
      if amount >= s[k].floor {
        assert s[k..][1..] == s[k + 1..];
        floor, base, rate := s[k].floor, s[k].base, s[k].rate;
      } else {
        break;
      }
      k := k + 1;
    }
    assert PickFrom(NOTHING, amount, s) == Bracket(floor, base, rate);
    TaxIs(floor, base, rate, amount);
    tax := base + rate * (amount - floor);
  }

  lemma TaxIs(floor: real, base: real, rate: real, amount: real)
    ensures TaxIn(Bracket(floor, base, rate), amount) == base + rate * (amount - floor)
  {
  }

  // ----- schedules -----

  /** Floors increase, from b on. */
  predicate Rising(b: Bracket, rest: Schedule)
    decreases |rest|
  {
    rest == [] || (b.floor < rest[0].floor && Rising(rest[0], rest[1..]))
  }

  /** A published schedule: its floors increase from zero. */
  predicate FromZero(s: Schedule) {
    s != [] && s[0].floor == 0.0 && Rising(s[0], s[1..])
  }

  /** The tax a bracket reaches where the next one begins. */
  function Reach(b: Bracket, next: Bracket): real {
    b.base + b.rate * (next.floor - b.floor)
  }

  /** Each base is the tax accumulated below its floor. */
  predicate Accumulates(b: Bracket, rest: Schedule)
    decreases |rest|
  {
    rest == [] || (rest[0].base == Reach(b, rest[0]) && Accumulates(rest[0], rest[1..]))
  }

  /** No rate is negative and no bracket begins below what the one before it reached. */
  predicate Climbs(b: Bracket, rest: Schedule)
    decreases |rest|
  {
    b.rate >= 0.0 && (rest == [] || (Reach(b, rest[0]) <= rest[0].base && Climbs(rest[0], rest[1..])))
  }

  /** The marginal slices of the part of the amount above b's floor. */
  function Slices(b: Bracket, amount: real, rest: Schedule): real
    decreases |rest|
  {
    if rest == [] || amount < rest[0].floor then b.rate * (amount - b.floor)
    else b.rate * (rest[0].floor - b.floor) + Slices(rest[0], amount, rest[1..])
  }

  lemma FirstBracket(amount: real, s: Schedule)
    requires FromZero(s) && amount >= 0.0
    ensures BracketTax(amount, s) == TaxIn(PickFrom(s[0], amount, s[1..]), amount)
  {
  }

  // ----- the sum of the slices -----

  lemma {:induction false} AccumulatedSlices(b: Bracket, amount: real, rest: Schedule)
    requires Rising(b, rest) && Accumulates(b, rest)
    ensures TaxIn(PickFrom(b, amount, rest), amount) == b.base + Slices(b, amount, rest)
    decreases |rest|
  {
    if rest != [] && amount >= rest[0].floor {
      AccumulatedSlices(rest[0], amount, rest[1..]);
    }
  }

  /** An amount at which a schedule that does not accumulate differs from its slices. */
  lemma {:induction false} SlicesDiffer(b: Bracket, rest: Schedule) returns (amount: real)
    requires Rising(b, rest) && !Accumulates(b, rest)
    ensures amount >= b.floor && TaxIn(PickFrom(b, amount, rest), amount) != b.base + Slices(b, amount, rest)
    decreases |rest|
  {
    amount := rest[0].floor;
    if rest[0].base == Reach(b, rest[0]) {
      amount := SlicesDiffer(rest[0], rest[1..]);
    } else {
      assert PickFrom(rest[0], amount, rest[1..]) == rest[0];
      assert Slices(rest[0], amount, rest[1..]) == rest[0].rate * (amount - rest[0].floor) == 0.0;
    }
  }

  /** The tax is the sum of the marginal slices at every amount exactly when the first base is zero and
      each other base is the tax accumulated below its floor. */
  lemma SlicesIff(s: Schedule)
    requires FromZero(s)
    ensures (forall a :: a >= 0.0 ==> BracketTax(a, s) == Slices(s[0], a, s[1..]))
            <==> s[0].base == 0.0 && Accumulates(s[0], s[1..])
  {
    if s[0].base == 0.0 && Accumulates(s[0], s[1..]) {
      forall a | a >= 0.0 ensures BracketTax(a, s) == Slices(s[0], a, s[1..]) {
        FirstBracket(a, s);
        AccumulatedSlices(s[0], a, s[1..]);
      }
    } else if s[0].base != 0.0 {
      FirstBracket(0.0, s);
      assert PickFrom(s[0], 0.0, s[1..]) == s[0];
      assert Slices(s[0], 0.0, s[1..]) == s[0].rate * (0.0 - s[0].floor) == 0.0;
      assert BracketTax(0.0, s) != Slices(s[0], 0.0, s[1..]);
    } else {
      var a := SlicesDiffer(s[0], s[1..]);
      FirstBracket(a, s);
    }
  }

  // ----- never falling -----

  lemma Slope(rate: real, x: real, y: real)
    requires rate >= 0.0 && x <= y
    ensures rate * x <= rate * y
  {
  }

  lemma TaxRises(b: Bracket, x: real, y: real)
    requires b.rate >= 0.0 && x <= y
    ensures TaxIn(b, x) <= TaxIn(b, y)
  {
    Slope(b.rate, x - b.floor, y - b.floor);
  }

  lemma AtOwnFloor(b: Bracket)
    ensures TaxIn(b, b.floor) == b.base
  {
    assert b.floor - b.floor == 0.0;
    assert b.rate * 0.0 == 0.0;
  }

  lemma {:induction false} ClimbsBetween(b: Bracket, rest: Schedule, x: real, y: real)
    requires Rising(b, rest) && Climbs(b, rest) && b.floor <= x <= y
    ensures TaxIn(PickFrom(b, x, rest), x) <= TaxIn(PickFrom(b, y, rest), y)
    decreases |rest|
  {
    if rest == [] || y < rest[0].floor {
      TaxRises(b, x, y);
    } else if x >= rest[0].floor {
      ClimbsBetween(rest[0], rest[1..], x, y);
    } else {
      TaxRises(b, x, rest[0].floor);
      assert TaxIn(b, rest[0].floor) == Reach(b, rest[0]);
      ClimbsBetween(rest[0], rest[1..], rest[0].floor, y);
      AtFloor(rest[0], rest[1..]);
    }
  }

  lemma AtFloor(b: Bracket, rest: Schedule)
    requires Rising(b, rest)
    ensures PickFrom(b, b.floor, rest) == b && TaxIn(b, b.floor) == b.base
  {
    AtOwnFloor(b);
  }

  lemma Falling(rate: real, x: real, y: real)
    requires rate < 0.0 && x < y
    ensures rate * x > rate * y
  {
  }

  lemma TaxFalls(b: Bracket, y: real)
    requires b.rate < 0.0 && b.floor < y
    ensures TaxIn(b, b.floor) > TaxIn(b, y)
  {
    AtOwnFloor(b);
    Falling(b.rate, 0.0, y - b.floor);
    assert b.rate * 0.0 == 0.0;
  }

  /** Just below the next floor, when the bracket reaches above the next base. */
  lemma JustBelow(b: Bracket, next: Bracket) returns (x: real)
    requires b.floor < next.floor && b.rate >= 0.0 && Reach(b, next) > next.base
    ensures b.floor < x < next.floor && TaxIn(b, x) > next.base
  {
    var gap, width := Reach(b, next) - next.base, next.floor - b.floor;
    if b.rate * width < gap {
      x := (b.floor + next.floor) / 2.0;
      AtOwnFloor(b);
      TaxRises(b, b.floor, x);
      assert Reach(b, next) == b.base + b.rate * width;
    } else {
      assert Reach(b, next) == b.base + b.rate * width;
      assert b.rate > 0.0 by { assert b.rate == 0.0 ==> b.rate * width == 0.0; }
      var back := gap / (2.0 * b.rate);
      HalfBack(b.rate, gap, width, back);
      x := next.floor - back;
      assert x - b.floor == width - back;
      assert TaxIn(b, x) == b.base + b.rate * (width - back);
      assert TaxIn(b, x) == Reach(b, next) - gap / 2.0;
    }
  }

  lemma HalfBack(rate: real, gap: real, width: real, back: real)
    requires rate > 0.0 && gap > 0.0 && back == gap / (2.0 * rate) && rate * width >= gap
    ensures rate * (width - back) == rate * width - gap / 2.0 && 0.0 < back < width
  {
    assert rate * back == gap / 2.0;
    assert rate * (width - back) == rate * width - rate * back;
    if back >= width {
      Slope(rate, width, back);
      assert false;
    }
  }

  /** Two amounts, the larger taxed less, for a schedule that does not climb. */
  lemma {:induction false} Dip(b: Bracket, rest: Schedule) returns (x: real, y: real)
    requires Rising(b, rest) && !Climbs(b, rest)
    ensures b.floor <= x < y && TaxIn(PickFrom(b, x, rest), x) > TaxIn(PickFrom(b, y, rest), y)
    decreases |rest|
  {
    if b.rate < 0.0 {
      x := b.floor;
      y := if rest == [] then b.floor + 1.0 else (b.floor + rest[0].floor) / 2.0;
      TaxFalls(b, y);
    } else if Reach(b, rest[0]) > rest[0].base {
      x := JustBelow(b, rest[0]);
      y := rest[0].floor;
      AtFloor(rest[0], rest[1..]);
    } else {
      x, y := Dip(rest[0], rest[1..]);
    }
  }

  /** Rates that are not negative over bases of a positive whole number of cents. */
  ghost predicate InCents(s: Schedule) {
    forall i :: 0 <= i < |s| ==> s[i].rate >= 0.0 && exists c: int :: c > 0 && s[i].base == CentsOf(c)
  }

  function CentsOf(c: int): real {
    c as real / 100.0
  }

  /** In a schedule of whole cents that does not climb, an amount taxed more than the floor above it. */
  lemma {:induction false} DipToCents(b: Bracket, rest: Schedule) returns (x: real, y: real, c: int)
    requires Rising(b, rest) && !Climbs(b, rest) && b.rate >= 0.0 && InCents(rest)
    ensures b.floor < x < y && c > 0
    ensures TaxIn(PickFrom(b, y, rest), y) == CentsOf(c) < TaxIn(PickFrom(b, x, rest), x)
    decreases |rest|
  {
    if Reach(b, rest[0]) > rest[0].base {
      x := JustBelow(b, rest[0]);
      y := rest[0].floor;
      c :| c > 0 && rest[0].base == CentsOf(c);
      AtFloor(rest[0], rest[1..]);
    } else {
      x, y, c := DipToCents(rest[0], rest[1..]);
    }
  }

  /** Two neighbours are enough: a bracket that begins below what the one before reached. */
  lemma {:induction false} DipAt(b: Bracket, rest: Schedule, i: nat)
    requires i < |rest| && Reach(if i == 0 then b else rest[i - 1], rest[i]) > rest[i].base
    ensures !Climbs(b, rest)
    decreases i
  {
    if i > 0 {
      DipAt(rest[0], rest[1..], i - 1);
    }
  }

  ghost predicate NeverFalls(s: Schedule) {
    forall x, y :: 0.0 <= x <= y ==> BracketTax(x, s) <= BracketTax(y, s)
  }

  /** The tax never falls as the amount rises exactly when the schedule climbs: no negative rate, and
      no bracket that begins below what the one before it reached. */
  lemma NeverFallsIff(s: Schedule)
    requires FromZero(s)
    ensures NeverFalls(s) <==> Climbs(s[0], s[1..])
  {
    if Climbs(s[0], s[1..]) {
      forall x, y | 0.0 <= x <= y ensures BracketTax(x, s) <= BracketTax(y, s) {
        FirstBracket(x, s);
        FirstBracket(y, s);
        ClimbsBetween(s[0], s[1..], x, y);
      }
    } else {
      var x, y := Dip(s[0], s[1..]);
      FirstBracket(x, s);
      FirstBracket(y, s);
    }
  }

  /** A schedule whose bases accumulate and whose rates are not negative climbs. */
  lemma {:induction false} AccumulatedClimbs(b: Bracket, rest: Schedule)
    requires Accumulates(b, rest) && b.rate >= 0.0
    requires forall i :: 0 <= i < |rest| ==> rest[i].rate >= 0.0
    ensures Climbs(b, rest)
    decreases |rest|
  {
    if rest != [] {
      AccumulatedClimbs(rest[0], rest[1..]);
    }
  }

  lemma {:induction false} RisingAbove(b: Bracket, rest: Schedule, i: nat)
    requires Rising(b, rest) && i < |rest|
    ensures b.floor < rest[i].floor
    decreases |rest|
  {
    if i > 0 {
      RisingAbove(rest[0], rest[1..], i - 1);
    }
  }

  lemma {:induction false} RisingNext(b: Bracket, rest: Schedule, i: nat)
    requires Rising(b, rest) && 0 < i < |rest|
    ensures rest[i - 1].floor < rest[i].floor
    decreases |rest|
  {
    if i > 1 {
      RisingNext(rest[0], rest[1..], i - 1);
    }
  }

  /** The bracket found is the one whose floor the amount clears and whose successor it does not. */
  lemma {:induction false} PickIs(cur: Bracket, amount: real, s: Schedule, k: nat)
    requires s != [] && Rising(s[0], s[1..]) && k < |s| && s[k].floor <= amount
    requires k + 1 < |s| ==> amount < s[k + 1].floor
    ensures PickFrom(cur, amount, s) == s[k]
    decreases |s|
  {
    if k > 0 {
      RisingAbove(s[0], s[1..], k - 1);
      PickIs(s[0], amount, s[1..], k - 1);
    }
  }

  predicate NonNegative(s: Schedule) {
    forall i :: 0 <= i < |s| ==> s[i].base >= 0.0 && s[i].rate >= 0.0
  }

  lemma {:induction false} TaxNonNegative(b: Bracket, amount: real, rest: Schedule)
    requires b.base >= 0.0 && b.rate >= 0.0 && NonNegative(rest) && amount >= b.floor
    ensures TaxIn(PickFrom(b, amount, rest), amount) >= 0.0
    decreases |rest|
  {
    if rest == [] || amount < rest[0].floor {
      TaxRises(b, b.floor, amount);
      AtOwnFloor(b);
    } else {
      TaxNonNegative(rest[0], amount, rest[1..]);
    }
  }
}
