/** rollup(), modules/invoicing/lambdas/_helpers.py: an invoice's lines with their modifiers folded into
    what they modify, and what becomes of the money. */
module Rollup {
  import opened Common
  import opened Lines
  import opened Rounding

  // ----- costs -----

  /** round(unit_cost * quantity, 2), in cents; a line without a copied cost has none. */
  function CostOf(ln: Line): Option<int> {
    if ln.unitCost.None? then None else Some(CostCents(ln.unitCost.value, Qty(ln)))
  }

  function CostCents(unitCost: real, qty: int): int {
    HalfEven(unitCost * qty as real * 100.0)
  }

  function KnownCost(ln: Line): int {
    if CostOf(ln).Some? then CostOf(ln).value else 0
  }

  // ----- rollup -----

  /** Some line has this id; a line without an item_id has the id None. */
  predicate Known(lines: seq<Line>, id: Option<string>) {
    exists i :: 0 <= i < |lines| && lines[i].itemId == id
  }

  predicate Names(parent: Option<string>) {
    parent.Some? && parent.value != ""
  }

  /** The line is not reported on its own. */
  predicate Folded(lines: seq<Line>, ln: Line) {
    Known(lines, ln.parent)
  }

  predicate KidOf(ln: Line, id: Option<string>) {
    Names(ln.parent) && ln.parent == id
  }

  /** The modifiers of an id, in order. */
  function Kids(lines: seq<Line>, id: Option<string>): seq<Line> {
    if lines == [] then [] else
      var last := lines[|lines| - 1];
      Kids(lines[..|lines| - 1], id) + (if KidOf(last, id) then [last] else [])
  }

  datatype Rolled = Rolled(line: Line, modifiers: seq<Line>, revenue: int, cost: int, costed: bool)

  function Roll(ln: Line, mods: seq<Line>): Rolled {
    Rolled(ln, mods, LineTotal(ln) + SumLines(mods, LineTotal), KnownCost(ln) + SumLines(mods, KnownCost),
           CostOf(ln).Some? && forall i :: 0 <= i < |mods| ==> CostOf(mods[i]).Some?)
  }

  /** The report on the lines `rest`, of an invoice that has all of `lines`. */
  function Rolling(lines: seq<Line>, rest: seq<Line>): seq<Rolled> {
    if rest == [] then [] else
      var last := rest[|rest| - 1];
      Rolling(lines, rest[..|rest| - 1]) + (if Folded(lines, last) then [] else [Roll(last, Kids(lines, last.itemId))])
  }

  method Sums(ln: Line, mods: seq<Line>) returns (rolled: Rolled)
    ensures rolled == Roll(ln, mods)
  {
    var rev, cost, costed := 0, 0, CostOf(ln).Some?;
    for k := 0 to |mods|
      invariant rev == SumLines(mods[..k], LineTotal) && cost == SumLines(mods[..k], KnownCost)
      invariant costed <==> CostOf(ln).Some? && forall i :: 0 <= i < k ==> CostOf(mods[i]).Some?
    {
      PrefixStep(mods, k);
      rev := rev + LineTotal(mods[k]);
      cost := cost + KnownCost(mods[k]);
      costed := costed && CostOf(mods[k]).Some?;
    }
    assert mods[..|mods|] == mods;
    rolled := Rolled(ln, mods, LineTotal(ln) + rev, KnownCost(ln) + cost, costed);
  }

  /** The index of ids and the modifiers of each. */
  method Index(lines: seq<Line>) returns (ids: set<Option<string>>, kids: map<Option<string>, seq<Line>>)
    ensures forall id :: id in ids <==> Known(lines, id)
    ensures forall id :: Known(lines, id) ==> (if id in kids then kids[id] else []) == Kids(lines, id)
  {
    ids := set i | 0 <= i < |lines| :: lines[i].itemId;
    kids := map[];
    for k := 0 to |lines|
      invariant forall id :: Known(lines, id) ==> (if id in kids then kids[id] else []) == Kids(lines[..k], id)
    {
      PrefixStep(lines, k);
      var parent := lines[k].parent;
      if Names(parent) && parent in ids {
        kids := kids[parent := (if parent in kids then kids[parent] else []) + [lines[k]]];
      }
    }
    assert lines[..|lines|] == lines;
  }

  lemma RollingNext(lines: seq<Line>, rest: seq<Line>, ln: Line)
    ensures Rolling(lines, rest + [ln])
            == if Folded(lines, ln) then Rolling(lines, rest)
              else Rolling(lines, rest) + [Roll(ln, Kids(lines, ln.itemId))]
  {
    Cut(rest, [ln]);
    Nothing(Rolling(lines, rest));
  }

  method Rollup(lines: seq<Line>) returns (out: seq<Rolled>)
    ensures out == Rolling(lines, lines)
  {
    var ids, kids := Index(lines);
    out := [];
    for k := 0 to |lines|
      invariant out == Rolling(lines, lines[..k])
    {
      PrefixStep(lines, k);
      var ln := lines[k];
      RollingNext(lines, lines[..k], ln);
      if ln.parent in ids {
        continue;
      }
      assert Known(lines, ln.itemId);
      var rolled := Sums(ln, if ln.itemId in kids then kids[ln.itemId] else []);
      out := out + [rolled];
    }
    assert lines[..|lines|] == lines;
  }

  // ----- where the money goes -----

  /** What the report on `rest` says of a part of each line. */
  function Worth(lines: seq<Line>, rest: seq<Line>, part: Line -> int): int {
    if rest == [] then 0 else
      var last := rest[|rest| - 1];
      Worth(lines, rest[..|rest| - 1], part)
      + (if Folded(lines, last) then 0 else part(last) + SumLines(Kids(lines, last.itemId), part))
  }

  function TotalRevenue(out: seq<Rolled>): int {
    if out == [] then 0 else TotalRevenue(out[..|out| - 1]) + out[|out| - 1].revenue
  }

  function TotalCost(out: seq<Rolled>): int {
    if out == [] then 0 else TotalCost(out[..|out| - 1]) + out[|out| - 1].cost
  }

  lemma {:induction false} ReportWorth(lines: seq<Line>, rest: seq<Line>)
    ensures TotalRevenue(Rolling(lines, rest)) == Worth(lines, rest, LineTotal)
    ensures TotalCost(Rolling(lines, rest)) == Worth(lines, rest, KnownCost)
  {
    if rest != [] {
      var n := |rest| - 1;
      ReportWorth(lines, rest[..n]);
      PrefixStep(rest, n);
      assert rest[..n + 1] == rest;
      RollingNext(lines, rest[..n], rest[n]);
      TotalsAppend(Rolling(lines, rest[..n]), Roll(rest[n], Kids(lines, rest[n].itemId)));
    }
  }

  lemma TotalsAppend(out: seq<Rolled>, r: Rolled)
    ensures TotalRevenue(out + [r]) == TotalRevenue(out) + r.revenue
    ensures TotalCost(out + [r]) == TotalCost(out) + r.cost
  {
    Cut(out, [r]);
  }

  /** How many reported lines of `rest` a line is folded into. */
  function Parents(lines: seq<Line>, rest: seq<Line>, ln: Line): nat {
    if rest == [] then 0 else
      var last := rest[|rest| - 1];
      Parents(lines, rest[..|rest| - 1], ln) + (if !Folded(lines, last) && KidOf(ln, last.itemId) then 1 else 0)
  }

  /** How many times a report carries a line: once of its own, and once for each line it is folded into. */
  function Shares(lines: seq<Line>, ln: Line): nat {
    (if Folded(lines, ln) then 0 else 1) + Parents(lines, lines, ln)
  }

  function Own(lines: seq<Line>, part: Line -> int): Line -> int {
    ln => if Folded(lines, ln) then 0 else part(ln)
  }

  function AsKid(lines: seq<Line>, rest: seq<Line>, part: Line -> int): Line -> int {
    ln => part(ln) * Parents(lines, rest, ln)
  }

  function OfParent(id: Option<string>, part: Line -> int): Line -> int {
    ln => if KidOf(ln, id) then part(ln) else 0
  }

  function Shared(lines: seq<Line>, part: Line -> int): Line -> int {
    ln => part(ln) * Shares(lines, ln)
  }

  lemma {:induction false} KidsSum(lines: seq<Line>, id: Option<string>, part: Line -> int)
    ensures SumLines(Kids(lines, id), part) == SumLines(lines, OfParent(id, part))
  {
    if lines != [] {
      var n := |lines| - 1;
      KidsSum(lines[..n], id, part);
      Cut(Kids(lines[..n], id), [lines[n]]);
      Nothing(Kids(lines[..n], id));
    }
  }

  lemma {:induction false} WorthSplits(lines: seq<Line>, rest: seq<Line>, part: Line -> int)
    ensures Worth(lines, rest, part) == SumLines(rest, Own(lines, part)) + SumLines(lines, AsKid(lines, rest, part))
  {
    if rest == [] {
      NoneAtAll(lines, AsKid(lines, rest, part));
    } else {
      var n := |rest| - 1;
      var last := rest[n];
      WorthSplits(lines, rest[..n], part);
      if Folded(lines, last) {
        SumSame(lines, AsKid(lines, rest, part), AsKid(lines, rest[..n], part));
      } else {
        KidsSum(lines, last.itemId, part);
        forall i | 0 <= i < |lines|
          ensures AsKid(lines, rest, part)(lines[i])
               == AsKid(lines, rest[..n], part)(lines[i]) + OfParent(last.itemId, part)(lines[i])
        {
          OneMore(part(lines[i]), Parents(lines, rest[..n], lines[i]));
        }
        SumAdds(lines, AsKid(lines, rest[..n], part), OfParent(last.itemId, part), AsKid(lines, rest, part));
      }
    }
  }

  lemma OneMore(c: int, k: nat)
    ensures c * (k + 1) == c * k + c
  {
  }

  lemma {:induction false} NoneAtAll(lines: seq<Line>, part: Line -> int)
    requires forall i :: 0 <= i < |lines| ==> part(lines[i]) == 0
    ensures SumLines(lines, part) == 0
  {
    if lines != [] {
      NoneAtAll(lines[..|lines| - 1], part);
    }
  }

  lemma {:induction false} SumSame(lines: seq<Line>, f: Line -> int, g: Line -> int)
    requires forall i :: 0 <= i < |lines| ==> f(lines[i]) == g(lines[i])
    ensures SumLines(lines, f) == SumLines(lines, g)
  {
    if lines != [] {
      SumSame(lines[..|lines| - 1], f, g);
    }
  }

  /** Whatever the ids and however deep the modifiers, the report carries each line's part as many times as
      it has shares. */
  lemma ReportCarries(lines: seq<Line>, part: Line -> int)
    ensures Worth(lines, lines, part) == SumLines(lines, Shared(lines, part))
  {
    WorthSplits(lines, lines, part);
    forall i | 0 <= i < |lines|
      ensures Shared(lines, part)(lines[i]) == Own(lines, part)(lines[i]) + AsKid(lines, lines, part)(lines[i])
    {
      OneMore(part(lines[i]), Parents(lines, lines, lines[i]));
    }
    SumAdds(lines, Own(lines, part), AsKid(lines, lines, part), Shared(lines, part));
  }

  // ----- with ids of their own -----

  ghost predicate UniqueIds(lines: seq<Line>) {
    forall i, j :: 0 <= i < j < |lines| ==> lines[i].itemId != lines[j].itemId
  }

  /** A line is carried when it is reported itself, or names a line that is. */
  predicate Carried(lines: seq<Line>, ln: Line) {
    || !Folded(lines, ln)
    || exists i :: 0 <= i < |lines| && KidOf(ln, lines[i].itemId) && !Folded(lines, lines[i])
  }

  lemma {:induction false} ParentsUnique(lines: seq<Line>, rest: seq<Line>, ln: Line)
    requires UniqueIds(rest)
    ensures Parents(lines, rest, ln)
            == if exists i :: 0 <= i < |rest| && KidOf(ln, rest[i].itemId) && !Folded(lines, rest[i]) then 1 else 0
  {
    if rest != [] {
      var n := |rest| - 1;
      var front := rest[..n];
      ParentsUnique(lines, front, ln);
      assert forall i :: 0 <= i < n ==> front[i] == rest[i] && rest[i].itemId != rest[n].itemId;
      assert forall i :: 0 <= i < n && KidOf(ln, rest[n].itemId) ==> !KidOf(ln, front[i].itemId);
    }
  }

  lemma SharesUnique(lines: seq<Line>, ln: Line)
    requires UniqueIds(lines)
    ensures Shares(lines, ln) == if Carried(lines, ln) then 1 else 0
  {
    ParentsUnique(lines, lines, ln);
    assert !Folded(lines, ln) ==> forall i :: 0 <= i < |lines| ==> !KidOf(ln, lines[i].itemId);
  }

  function Lost(lines: seq<Line>, part: Line -> int): Line -> int {
    ln => if Carried(lines, ln) then 0 else part(ln)
  }

  /** With unique line ids the report carries everything but the lines it loses: those folded under a line
      that is itself folded, or under no name at all. */
  lemma ReportLoses(lines: seq<Line>, part: Line -> int)
    requires UniqueIds(lines)
    ensures Worth(lines, lines, part) + SumLines(lines, Lost(lines, part)) == SumLines(lines, part)
  {
    ReportCarries(lines, part);
    forall i | 0 <= i < |lines|
      ensures part(lines[i]) == Shared(lines, part)(lines[i]) + Lost(lines, part)(lines[i])
    {
      SharesUnique(lines, lines[i]);
    }
    SumAdds(lines, Shared(lines, part), Lost(lines, part), part);
  }

  /** Every modifier names a line that is not a modifier itself. */
  ghost predicate OneDeep(lines: seq<Line>) {
    forall i :: 0 <= i < |lines| ==> Carried(lines, lines[i])
  }

  /** rollup() conserves money: with unique ids and modifiers one level deep, the rolled revenues sum to the
      line totals and the rolled costs to the known costs. */
  lemma RollupConserves(lines: seq<Line>)
    requires UniqueIds(lines) && OneDeep(lines)
    ensures TotalRevenue(Rolling(lines, lines)) == SumLines(lines, LineTotal)
    ensures TotalCost(Rolling(lines, lines)) == SumLines(lines, KnownCost)
  {
    ReportWorth(lines, lines);
    ReportLoses(lines, LineTotal);
    ReportLoses(lines, KnownCost);
    NoneAtAll(lines, Lost(lines, LineTotal));
    NoneAtAll(lines, Lost(lines, KnownCost));
  }

  lemma {:induction false} SumPositive(lines: seq<Line>, part: Line -> int)
    requires forall i :: 0 <= i < |lines| ==> part(lines[i]) >= 0
    ensures SumLines(lines, part) >= 0
    ensures SumLines(lines, part) == 0 <==> forall i :: 0 <= i < |lines| ==> part(lines[i]) == 0
  {
    if lines != [] {
      SumPositive(lines[..|lines| - 1], part);
    }
  }

  /** Every line the report does not carry charges nothing. */
  ghost predicate LosesNothing(lines: seq<Line>) {
    forall i :: 0 <= i < |lines| ==> Carried(lines, lines[i]) || LineTotal(lines[i]) == 0
  }

  /** Where no line charges a negative amount the condition is exact: revenue is conserved exactly when every line
      that the report loses, a modifier of a modifier, charges nothing. */
  lemma ConservesIff(lines: seq<Line>)
    requires UniqueIds(lines) && forall i :: 0 <= i < |lines| ==> LineTotal(lines[i]) >= 0
    ensures TotalRevenue(Rolling(lines, lines)) == SumLines(lines, LineTotal) <==> LosesNothing(lines)
  {
    ReportWorth(lines, lines);
    ReportLoses(lines, LineTotal);
    var lost := Lost(lines, LineTotal);
    SumPositive(lines, lost);
    assert forall i :: 0 <= i < |lines| ==>
      (lost(lines[i]) == 0 <==> Carried(lines, lines[i]) || LineTotal(lines[i]) == 0);
  }

  /** One line without an id hides every line that modifies nothing. */
  lemma {:induction false} UnnamedLineHides(lines: seq<Line>, rest: seq<Line>, i: nat)
    requires i < |lines| && lines[i].itemId == None
    ensures forall k :: 0 <= k < |Rolling(lines, rest)| ==> Rolling(lines, rest)[k].line.parent.Some?
  {
    if rest != [] {
      UnnamedLineHides(lines, rest[..|rest| - 1], i);
      assert rest[|rest| - 1].parent == None ==> Folded(lines, rest[|rest| - 1]);
    }
  }
}
