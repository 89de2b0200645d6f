/** Interval availability, modules/inventory/availability.py.

    An interval is a union of half-open spans [lower, upper). The library the source vendors for it
    is not part of this model: what it promises (union, difference, emptiness, one representation
    per set of instants) is built and proved here over canonical lists, that is sorted, disjoint and
    coalesced ones. Instants are integers: a datetime counts microseconds. */
module Intervals {

  datatype Span = Span(lower: int, upper: int)

  type Interval = seq<Span>

  predicate Holds(s: Span, t: int) {
    s.lower <= t < s.upper
  }

  /** The meaning of an interval: the instants it covers. */
  predicate Covers(iv: Interval, t: int) {
    exists i :: 0 <= i < |iv| && Holds(iv[i], t)
  }

  /** Sorted, with a gap between neighbours, and no empty span. */
  predicate Canonical(iv: Interval) {
    && (forall i :: 0 <= i < |iv| ==> iv[i].lower < iv[i].upper)
    && (forall i, j :: 0 <= i < j < |iv| ==> iv[i].upper < iv[j].lower)
  }

  function Min(x: int, y: int): int { if x < y then x else y }

  function Max(x: int, y: int): int { if x < y then y else x }

  lemma CoversStep(iv: Interval, t: int)
    requires iv != []
    ensures Covers(iv, t) <==> Holds(iv[0], t) || Covers(iv[1..], t)
  {
    if Covers(iv, t) {
      var i :| 0 <= i < |iv| && Holds(iv[i], t);
      assert i == 0 || iv[1..][i - 1] == iv[i];
    }
    if Covers(iv[1..], t) {
      var i :| 0 <= i < |iv[1..]| && Holds(iv[1..][i], t);
      assert iv[i + 1] == iv[1..][i];
    }
  }

  // ----- one span -----

  function ClosedOpen(start: int, end: int): (iv: Interval)
    ensures Canonical(iv)
    ensures forall t :: Covers(iv, t) <==> start <= t < end
  {
    if start < end then
      var iv := [Span(start, end)];
      assert forall t :: Covers(iv, t) <==> Holds(iv[0], t);
      iv
    else []
  }

  // ----- union -----

  /** One more span, merged with every span it touches. */
  function Insert(iv: Interval, s: Span): Interval
    decreases |iv|
  {
    if iv == [] then [s]
    else if s.upper < iv[0].lower then [s] + iv
    else if iv[0].upper < s.lower then [iv[0]] + Insert(iv[1..], s)
    else Insert(iv[1..], Span(Min(iv[0].lower, s.lower), Max(iv[0].upper, s.upper)))
  }

  lemma {:induction false} InsertCovers(iv: Interval, s: Span, t: int)
    requires s.lower < s.upper && Canonical(iv)
    ensures Covers(Insert(iv, s), t) <==> Covers(iv, t) || Holds(s, t)
    decreases |iv|
  {
    var r := Insert(iv, s);
    InsertCanonical(iv, s);
    CoversStep(r, t);
    if iv != [] {
      CoversStep(iv, t);
      if s.upper < iv[0].lower {
        assert r[1..] == iv;
      } else if iv[0].upper < s.lower {
        assert r[1..] == Insert(iv[1..], s);
        InsertCovers(iv[1..], s, t);
      } else {
        InsertCovers(iv[1..], Span(Min(iv[0].lower, s.lower), Max(iv[0].upper, s.upper)), t);
      }
    } else {
      assert r[1..] == [];
    }
  }

  lemma ConsCanonical(head: Span, rest: Interval)
    requires Canonical(rest) && head.lower < head.upper && (rest != [] ==> head.upper < rest[0].lower)
    ensures Canonical([head] + rest)
  {
  }

  lemma {:induction false} InsertCanonical(iv: Interval, s: Span)
    requires s.lower < s.upper && Canonical(iv)
    ensures Canonical(Insert(iv, s)) && |Insert(iv, s)| > 0
    ensures Insert(iv, s)[0].lower == if iv == [] then s.lower else Min(iv[0].lower, s.lower)
    decreases |iv|
  {
    if iv == [] || s.upper < iv[0].lower {
    } else if iv[0].upper < s.lower {
      InsertCanonical(iv[1..], s);
      ConsCanonical(iv[0], Insert(iv[1..], s));
    } else {
      InsertCanonical(iv[1..], Span(Min(iv[0].lower, s.lower), Max(iv[0].upper, s.upper)));
    }
  }

  function Union(x: Interval, y: Interval): Interval
    decreases |y|
  {
    if y == [] then x else Union(Insert(x, y[0]), y[1..])
  }

  lemma {:induction false} UnionCovers(x: Interval, y: Interval)
    requires Canonical(x) && Canonical(y)
    ensures Canonical(Union(x, y))
    ensures forall t :: Covers(Union(x, y), t) <==> Covers(x, t) || Covers(y, t)
    decreases |y|
  {
    if y != [] {
      InsertCanonical(x, y[0]);
      UnionCovers(Insert(x, y[0]), y[1..]);
      forall t ensures Covers(Union(x, y), t) <==> Covers(x, t) || Covers(y, t) {
        InsertCovers(x, y[0], t);
        CoversStep(y, t);
      }
    }
  }

  // ----- difference -----

  /** What is left of an interval once one span is taken out of it. */
  function Cut(iv: Interval, s: Span): Interval
    decreases |iv|
  {
    if iv == [] then []
    else
      ClosedOpen(iv[0].lower, Min(iv[0].upper, s.lower))
      + ClosedOpen(Max(iv[0].lower, s.upper), iv[0].upper)
      + Cut(iv[1..], s)
  }

  lemma CoversConcat(x: Interval, y: Interval, t: int)
    ensures Covers(x + y, t) <==> Covers(x, t) || Covers(y, t)
  {
    if Covers(x, t) {
      var i :| 0 <= i < |x| && Holds(x[i], t);
      assert (x + y)[i] == x[i];
    }
    if Covers(y, t) {
      var i :| 0 <= i < |y| && Holds(y[i], t);
      assert (x + y)[|x| + i] == y[i];
    }
  }

  lemma {:induction false} CutCovers(iv: Interval, s: Span, t: int)
    requires s.lower < s.upper
    ensures Covers(Cut(iv, s), t) <==> Covers(iv, t) && !Holds(s, t)
    decreases |iv|
  {
    if iv != [] {
      var left := ClosedOpen(iv[0].lower, Min(iv[0].upper, s.lower));
      var right := ClosedOpen(Max(iv[0].lower, s.upper), iv[0].upper);
      CoversConcat(left + right, Cut(iv[1..], s), t);
      CoversConcat(left, right, t);
      CoversStep(iv, t);
      CutCovers(iv[1..], s, t);
    }
  }

  lemma ClosedOpenBounds(start: int, end: int)
    ensures forall i :: 0 <= i < |ClosedOpen(start, end)| ==>
              ClosedOpen(start, end)[i] == Span(start, end) && start < end
  {
    assert ClosedOpen(start, end) == if start < end then [Span(start, end)] else [];
  }

  lemma AppendCanonical(x: Interval, y: Interval, border: int)
    requires Canonical(x) && Canonical(y)
    requires forall i :: 0 <= i < |x| ==> x[i].upper < border
    requires forall i :: 0 <= i < |y| ==> border <= y[i].lower
    ensures Canonical(x + y)
  {
  }

  lemma {:induction false} CutCanonical(iv: Interval, s: Span)
    requires s.lower < s.upper && Canonical(iv)
    ensures Canonical(Cut(iv, s))
    ensures forall i :: 0 <= i < |Cut(iv, s)| ==> iv != [] && iv[0].lower <= Cut(iv, s)[i].lower
    decreases |iv|
  {
    if iv != [] {
      CutCanonical(iv[1..], s);
      CutConsCanonical(iv[0], s, Cut(iv[1..], s));
    }
  }

  lemma CutConsCanonical(head: Span, s: Span, rest: Interval)
    requires s.lower < s.upper && head.lower < head.upper && Canonical(rest)
    requires forall i :: 0 <= i < |rest| ==> head.upper < rest[i].lower
    ensures var left := ClosedOpen(head.lower, Min(head.upper, s.lower));
            var right := ClosedOpen(Max(head.lower, s.upper), head.upper);
            && Canonical(left + right + rest)
            && forall i :: 0 <= i < |left + right + rest| ==> head.lower <= (left + right + rest)[i].lower
  {
    var left := ClosedOpen(head.lower, Min(head.upper, s.lower));
    var right := ClosedOpen(Max(head.lower, s.upper), head.upper);
    ClosedOpenBounds(head.lower, Min(head.upper, s.lower));
    ClosedOpenBounds(Max(head.lower, s.upper), head.upper);
    AppendCanonical(left, right, s.upper);
    AppendCanonical(left + right, rest, head.upper + 1);
  }

  function Difference(x: Interval, y: Interval): Interval
    decreases |y|
  {
    if y == [] then x else Difference(Cut(x, y[0]), y[1..])
  }

  lemma {:induction false} DifferenceCovers(x: Interval, y: Interval)
    requires Canonical(x) && Canonical(y)
    ensures Canonical(Difference(x, y))
    ensures forall t :: Covers(Difference(x, y), t) <==> Covers(x, t) && !Covers(y, t)
    decreases |y|
  {
    if y != [] {
      CutCanonical(x, y[0]);
      DifferenceCovers(Cut(x, y[0]), y[1..]);
      forall t ensures Covers(Difference(x, y), t) <==> Covers(x, t) && !Covers(y, t) {
        CutCovers(x, y[0], t);
        CoversStep(y, t);
      }
    }
  }

  function Intersection(x: Interval, y: Interval): Interval {
    Difference(x, Difference(x, y))
  }

  lemma IntersectionCovers(x: Interval, y: Interval)
    requires Canonical(x) && Canonical(y)
    ensures Canonical(Intersection(x, y))
    ensures forall t :: Covers(Intersection(x, y), t) <==> Covers(x, t) && Covers(y, t)
  {
    DifferenceCovers(x, y);
    DifferenceCovers(x, Difference(x, y));
  }

  // ----- one representation per set of instants -----

  lemma HeadIsFirst(iv: Interval, t: int)
    requires Canonical(iv) && Covers(iv, t)
    ensures iv != [] && Covers(iv, iv[0].lower) && iv[0].lower <= t
    ensures t < iv[0].upper || (|iv| > 1 && iv[0].upper < iv[1].lower <= t)
  {
    var i :| 0 <= i < |iv| && Holds(iv[i], t);
    assert Holds(iv[0], iv[0].lower);
    if i > 0 {
      assert iv[0].upper < iv[i].lower;
      assert i == 1 || iv[1].upper < iv[i].lower;
    }
  }

  lemma HeadEnds(x: Interval, y: Interval)
    requires Canonical(x) && Canonical(y) && x != [] && y != []
    requires x[0].lower == y[0].lower && x[0].upper < y[0].upper
    ensures Covers(y, x[0].upper) && !Covers(x, x[0].upper)
  {
    assert Holds(y[0], x[0].upper);
    if Covers(x, x[0].upper) {
      HeadIsFirst(x, x[0].upper);
    }
  }

  /** Two canonical lists that cover the same instants are the same list, so comparing two intervals,
      or testing one for emptiness, decides their sets of instants. */
  lemma {:induction false} CanonicalUnique(x: Interval, y: Interval)
    requires Canonical(x) && Canonical(y)
    requires forall t :: Covers(x, t) <==> Covers(y, t)
    ensures x == y
    decreases |x|
  {
    if x != [] {
      assert Holds(x[0], x[0].lower);
      HeadIsFirst(y, x[0].lower);
      HeadIsFirst(x, y[0].lower);
      if x[0].upper < y[0].upper {
        HeadEnds(x, y);
      } else if y[0].upper < x[0].upper {
        HeadEnds(y, x);
      }
      forall t ensures Covers(x[1..], t) <==> Covers(y[1..], t) {
        CoversStep(x, t);
        CoversStep(y, t);
        if Holds(x[0], t) {
          TailSkipsHead(x, t);
          TailSkipsHead(y, t);
        }
      }
      CanonicalUnique(x[1..], y[1..]);
    } else if y != [] {
      assert Holds(y[0], y[0].lower);
      assert Covers(y, y[0].lower);
    }
  }

  lemma TailSkipsHead(iv: Interval, t: int)
    requires Canonical(iv) && iv != [] && Holds(iv[0], t)
    ensures !Covers(iv[1..], t)
  {
  }

  lemma EmptyCoversNothing(iv: Interval)
    requires Canonical(iv)
    ensures iv == [] <==> forall t :: !Covers(iv, t)
  {
    if iv != [] {
      assert Holds(iv[0], iv[0].lower);
      assert Covers(iv, iv[0].lower);
    }
  }

  // ----- availability.py -----

  /** A start and an end as they are given, which need not be in order. */
  datatype Pair = Pair(start: int, end: int)

  predicate CoveredByPair(pairs: seq<Pair>, t: int) {
    exists i :: 0 <= i < |pairs| && pairs[i].start <= t < pairs[i].end
  }

  lemma CoveredByLast(pairs: seq<Pair>, t: int)
    requires pairs != []
    ensures var last := |pairs| - 1;
            CoveredByPair(pairs, t) <==> CoveredByPair(pairs[..last], t) || pairs[last].start <= t < pairs[last].end
  {
    var last := |pairs| - 1;
    if CoveredByPair(pairs, t) {
      var i :| 0 <= i < |pairs| && pairs[i].start <= t < pairs[i].end;
      assert i == last || pairs[..last][i] == pairs[i];
    }
    if CoveredByPair(pairs[..last], t) {
      var i :| 0 <= i < last && pairs[..last][i].start <= t < pairs[..last][i].end;
      assert pairs[i] == pairs[..last][i];
    }
  }

  /** The pairs folded into one interval, left to right. */
  function PairsInterval(pairs: seq<Pair>): Interval {
    if pairs == [] then [] else
      var last := |pairs| - 1;
      Union(PairsInterval(pairs[..last]), ClosedOpen(pairs[last].start, pairs[last].end))
  }

  /** intervals() is exactly the union of its pairs, whatever their order or overlap. */
  lemma {:induction false} PairsIntervalCovers(pairs: seq<Pair>)
    ensures Canonical(PairsInterval(pairs))
    ensures forall t :: Covers(PairsInterval(pairs), t) <==> CoveredByPair(pairs, t)
  {
    if pairs != [] {
      var last := |pairs| - 1;
      PairsIntervalCovers(pairs[..last]);
      UnionCovers(PairsInterval(pairs[..last]), ClosedOpen(pairs[last].start, pairs[last].end));
      forall t ensures Covers(PairsInterval(pairs), t) <==> CoveredByPair(pairs, t) {
        CoveredByLast(pairs, t);
      }
    }
  }

  /** intervals(): the loop over the pairs. */
  method FoldPairs(pairs: seq<Pair>) returns (out: Interval)
    ensures out == PairsInterval(pairs)
    ensures Canonical(out)
    ensures forall t :: Covers(out, t) <==> CoveredByPair(pairs, t)
  {
    out := [];
    for k := 0 to |pairs|
      invariant out == PairsInterval(pairs[..k])
    {
      assert pairs[..k + 1][..k] == pairs[..k];
      out := Union(out, ClosedOpen(pairs[k].start, pairs[k].end));
    }
    assert pairs[..|pairs|] == pairs;
    PairsIntervalCovers(pairs);
  }

  function NetAvailability(offered: Interval, scheduled: Interval): Interval {
    Difference(offered, scheduled)
  }

  function IsFree(offered: Interval, scheduled: Interval, start: int, end: int): (free: bool)
    requires Canonical(offered) && Canonical(scheduled)
    ensures free <==> forall t :: start <= t < end ==> Covers(offered, t) && !Covers(scheduled, t)
  {
    var request := ClosedOpen(start, end);
    var net := NetAvailability(offered, scheduled);
    DifferenceCovers(offered, scheduled);
    DifferenceCovers(request, net);
    EmptyCoversNothing(Difference(request, net));
    Difference(request, net) == []
  }

  function DoubleBook(scheduled: Interval, start: int, end: int): (clash: bool)
    requires Canonical(scheduled)
    ensures clash <==> exists t :: start <= t < end && Covers(scheduled, t)
  {
    var request := ClosedOpen(start, end);
    IntersectionCovers(request, scheduled);
    EmptyCoversNothing(Intersection(request, scheduled));
    Intersection(request, scheduled) != []
  }

  /** A non-empty request is never both free and a double booking, and one that is offered in full is
      always exactly one of the two. */
  lemma FreeExcludesDoubleBook(offered: Interval, scheduled: Interval, start: int, end: int)
    requires Canonical(offered) && Canonical(scheduled) && start < end
    ensures !(IsFree(offered, scheduled, start, end) && DoubleBook(scheduled, start, end))
    ensures (forall t :: start <= t < end ==> Covers(offered, t)) ==>
              (IsFree(offered, scheduled, start, end) <==> !DoubleBook(scheduled, start, end))
  {
  }

  /** Some occurrence's slot, clipped to the window, holds t. */
  predicate SlotHolds(occurrences: seq<int>, duration: int, ws: int, we: int, t: int) {
    && ws <= t < we
    && exists i :: 0 <= i < |occurrences| && occurrences[i] <= t < occurrences[i] + duration
  }

  /** The slots the occurrences open, each clipped to the window, empty ones dropped. */
  function Slots(occurrences: seq<int>, duration: int, ws: int, we: int): seq<Pair> {
    if occurrences == [] then [] else
      var last := |occurrences| - 1;
      var lo, hi := Max(occurrences[last], ws), Min(occurrences[last] + duration, we);
      Slots(occurrences[..last], duration, ws, we) + (if lo < hi then [Pair(lo, hi)] else [])
  }

  lemma {:induction false} SlotsCover(occurrences: seq<int>, duration: int, ws: int, we: int, t: int)
    ensures CoveredByPair(Slots(occurrences, duration, ws, we), t)
            <==> SlotHolds(occurrences, duration, ws, we, t)
  {
    if occurrences != [] {
      var last := |occurrences| - 1;
      var earlier := occurrences[..last];
      SlotsCover(earlier, duration, ws, we, t);
      var lo, hi := Max(occurrences[last], ws), Min(occurrences[last] + duration, we);
      if lo < hi {
        CoveredByLast(Slots(occurrences, duration, ws, we), t);
        assert Slots(occurrences, duration, ws, we)[..|Slots(earlier, duration, ws, we)|]
            == Slots(earlier, duration, ws, we);
      } else {
        assert Slots(occurrences, duration, ws, we) == Slots(earlier, duration, ws, we);
      }
      if SlotHolds(earlier, duration, ws, we, t) {
        var i :| 0 <= i < last && earlier[i] <= t < earlier[i] + duration;
        assert occurrences[i] == earlier[i];
      }
      if SlotHolds(occurrences, duration, ws, we, t) {
        var i :| 0 <= i <= last && occurrences[i] <= t < occurrences[i] + duration;
        assert i == last || earlier[i] == occurrences[i];
      }
    }
  }

  function OccurrencesInterval(occurrences: seq<int>, duration: int, ws: int, we: int): (iv: Interval)
    ensures Canonical(iv)
    ensures forall t :: Covers(iv, t) <==> SlotHolds(occurrences, duration, ws, we, t)
  {
    var slots := Slots(occurrences, duration, ws, we);
    PairsIntervalCovers(slots);
    assert forall t :: Covers(PairsInterval(slots), t) <==> SlotHolds(occurrences, duration, ws, we, t) by {
      forall t ensures Covers(PairsInterval(slots), t) <==> SlotHolds(occurrences, duration, ws, we, t) {
        SlotsCover(occurrences, duration, ws, we, t);
      }
    }
    PairsInterval(slots)
  }

  /** The clipping loop of from_rrule(): each occurrence opens a slot, each slot is intersected with
      the window. Expanding the rule into its occurrences is not part of this model. */
  method FromOccurrences(occurrences: seq<int>, duration: int, ws: int, we: int) returns (out: Interval)
    ensures out == OccurrencesInterval(occurrences, duration, ws, we)
  {
    var slots: seq<Pair> := [];
    for k := 0 to |occurrences|
      invariant slots == Slots(occurrences[..k], duration, ws, we)
    {
      assert occurrences[..k + 1][..k] == occurrences[..k];
      var lo, hi := Max(occurrences[k], ws), Min(occurrences[k] + duration, we);
      if lo < hi {
        slots := slots + [Pair(lo, hi)];
      }
    }
    assert occurrences[..|occurrences|] == occurrences;
    out := FoldPairs(slots);
  }
}
