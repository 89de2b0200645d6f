/** The rule engine's arithmetic and the two general rules, modules/rules/rules.py and
    modules/rules/general_rules.py. */
module Rules {
  import opened Common
  import opened Rounding

  datatype Side = Debit | Credit

  datatype Leg = Leg(side: Side, account: string, accountType: string, amount: real)

  /** What a list of legs moves on one account: debits less credits. */
  function Net(legs: seq<Leg>, account: string): real {
    if legs == [] then 0.0
    else (if legs[0].account != account then 0.0
          else if legs[0].side.Debit? then legs[0].amount else -legs[0].amount)
         + Net(legs[1..], account)
  }

  function Total(legs: seq<Leg>, side: Side): real {
    if legs == [] then 0.0
    else (if legs[0].side == side then legs[0].amount else 0.0) + Total(legs[1..], side)
  }

  lemma OneLeg(leg: Leg)
    ensures forall s :: Total([leg], s) == if leg.side == s then leg.amount else 0.0
    ensures forall a :: Net([leg], a) == (if leg.account != a then 0.0
                                          else if leg.side.Debit? then leg.amount else -leg.amount)
  {
    assert [leg][1..] == [];
  }

  lemma TwoLegs(d: Leg, c: Leg)
    requires d.side.Debit? && c.side.Credit?
    ensures Total([d, c], Debit) == d.amount && Total([d, c], Credit) == c.amount
    ensures forall a :: Net([d, c], a) == (if d.account == a then d.amount else 0.0)
                                          - (if c.account == a then c.amount else 0.0)
  {
    OneLeg(c);
    assert [d, c][1..] == [c];
  }

  // ----- composable arithmetic -----

  /** base x rate, rounded to cents. */
  function Mul(base: real, rate: real): real {
    Cents(Exact(base, rate))
  }

  /** Before rounding. */
  function Exact(base: real, rate: real): real {
    base * rate
  }

  lemma ExactMonotone(x: real, y: real, rate: real)
    requires x <= y && rate >= 0.0
    ensures Exact(x, rate) <= Exact(y, rate)
  {
  }

  lemma NoIncome(base: real, rate: real)
    requires Mul(base, rate) > 0.0
    ensures base != 0.0
  {
    CentsZero();
    assert Exact(0.0, rate) == 0.0;
  }

  lemma MulMonotone(x: real, y: real, rate: real)
    requires x <= y && rate >= 0.0
    ensures Mul(x, rate) <= Mul(y, rate)
  {
    ExactMonotone(x, y, rate);
    CentsMonotone(Exact(x, rate), Exact(y, rate));
  }

  /** x bounded to [lo, hi]; lo wins when hi lies below it. */
  function Clamp(x: real, lo: Option<real>, hi: Option<real>): real {
    var y := if hi.Some? && hi.value < x then hi.value else x;
    if lo.Some? && y < lo.value then lo.value else y
  }

  // ----- rate_posting -----

  datatype RateParams = RateParams(factor: real, debit: string, credit: string, cap: Option<real>,
                                   debitType: string, creditType: string)

  /** The slice of the base that is charged. */
  function ChargedBase(base: real, used: real, p: RateParams): real {
    if p.cap.None? then base else Clamp(base, Some(0.0), Some(p.cap.value - used))
  }

  function RatePosting(base: real, used: real, p: RateParams): seq<Leg> {
    Pair(Mul(ChargedBase(base, used, p), p.factor), p)
  }

  function Pair(amount: real, p: RateParams): seq<Leg> {
    if amount <= 0.0 then [] else
      [Leg(Debit, p.debit, p.debitType, amount), Leg(Credit, p.credit, p.creditType, amount)]
  }

  /** A posting's amount; none is nothing. */
  function Amount(legs: seq<Leg>): real {
    if legs == [] then 0.0 else legs[0].amount
  }

  /** A posting is nothing, or two positive legs of one amount, debit first. */
  predicate IsPosting(legs: seq<Leg>) {
    legs == []
    || (|legs| == 2 && legs[0].side.Debit? && legs[1].side.Credit? && legs[0].amount == legs[1].amount > 0.0)
  }

  function SumReals(xs: seq<real>): real {
    if xs == [] then 0.0 else SumReals(xs[..|xs| - 1]) + xs[|xs| - 1]
  }

  /** What each period charges when the year to date is the true total of the periods before it. */
  function ChargedAt(bases: seq<real>, p: RateParams, n: nat): real
    requires n < |bases|
  {
    ChargedBase(bases[n], SumReals(bases[..n]), p)
  }

  function Charged(bases: seq<real>, p: RateParams): seq<real> {
    seq(|bases|, n requires 0 <= n < |bases| => ChargedAt(bases, p, n))
  }

  /** What each period posts. */
  function PostedAt(bases: seq<real>, p: RateParams, n: nat): real
    requires n < |bases|
  {
    Amount(RatePosting(bases[n], SumReals(bases[..n]), p))
  }

  function Posted(bases: seq<real>, p: RateParams): seq<real> {
    seq(|bases|, n requires 0 <= n < |bases| => PostedAt(bases, p, n))
  }

  ghost predicate NonNegative(xs: seq<real>) {
    forall i :: 0 <= i < |xs| ==> xs[i] >= 0.0
  }

  function Least(x: real, y: real): real { if x < y then x else y }

  function Greatest(x: real, y: real): real { if x < y then y else x }

  lemma {:induction false} ChargedUpTo(bases: seq<real>, p: RateParams, n: nat)
    requires NonNegative(bases) && n <= |bases|
    ensures SumReals(Charged(bases, p)[..n]) == match p.cap
                                                case None => SumReals(bases[..n])
                                                case Some(cap) => Greatest(0.0, Least(cap, SumReals(bases[..n])))
    ensures SumReals(bases[..n]) >= 0.0
  {
    if n > 0 {
      ChargedUpTo(bases, p, n - 1);
      PrefixStep(bases, n - 1);
      PrefixStep(Charged(bases, p), n - 1);
    }
  }

  /** Over a year of non-negative period bases the charged slices add up to the bases, cut at the cap:
      no part of the cap is charged twice or skipped. */
  lemma ChargedFillsCap(bases: seq<real>, p: RateParams)
    requires NonNegative(bases)
    ensures SumReals(Charged(bases, p)) == match p.cap
                                           case None => SumReals(bases)
                                           case Some(cap) => Greatest(0.0, Least(cap, SumReals(bases)))
  {
    ChargedUpTo(bases, p, |bases|);
    assert bases[..|bases|] == bases && Charged(bases, p)[..|bases|] == Charged(bases, p);
  }

  lemma ChargedIsNonNegative(base: real, used: real, p: RateParams)
    requires base >= 0.0
    ensures ChargedBase(base, used, p) >= 0.0
  {
  }

  lemma Product(x: real, y: real)
    requires x >= 0.0 && y >= 0.0
    ensures x * y >= 0.0
  {
  }

  /** Nothing for half a cent or less, or two equal legs within half a cent of the exact amount. */
  ghost predicate PostsNear(legs: seq<Leg>, exact: real) {
    && IsPosting(legs) && Total(legs, Debit) == Total(legs, Credit)
    && -0.005 <= Amount(legs) - exact <= 0.005
    && (legs == [] <==> exact <= 0.005)
  }

  /** One posting: nothing or two equal positive legs, within half a cent of factor x the slice. */
  lemma PostingSpec(base: real, used: real, p: RateParams)
    requires base >= 0.0 && p.factor >= 0.0
    ensures PostsNear(RatePosting(base, used, p), Exact(ChargedBase(base, used, p), p.factor))
  {
    ChargedIsNonNegative(base, used, p);
    ProductPosting(ChargedBase(base, used, p), p.factor, p);
  }

  lemma ProductPosting(charged: real, factor: real, p: RateParams)
    requires charged >= 0.0 && factor >= 0.0
    ensures PostsNear(Pair(Mul(charged, factor), p), Exact(charged, factor))
  {
    Product(charged, factor);
    ExactPosting(Exact(charged, factor), p);
  }

  lemma ExactPosting(exact: real, p: RateParams)
    requires exact >= 0.0
    ensures PostsNear(Pair(Cents(exact), p), exact)
  {
    CentsNear(exact);
    CentsOfPositive(exact);
    PairSpec(Cents(exact), p);
  }

  lemma PairSpec(amount: real, p: RateParams)
    ensures var legs := Pair(amount, p);
            && IsPosting(legs) && Total(legs, Debit) == Total(legs, Credit)
            && Amount(legs) == (if amount <= 0.0 then 0.0 else amount)
            && (legs == [] <==> amount <= 0.0)
  {
    var r := Pair(amount, p);
    if r != [] {
      TwoLegs(r[0], r[1]);
      assert r == [r[0], r[1]];
    }
  }

  function Scaled(xs: seq<real>, f: real): seq<real> {
    seq(|xs|, n requires 0 <= n < |xs| => Exact(xs[n], f))
  }

  lemma {:induction false} ScaledSum(xs: seq<real>, f: real)
    ensures SumReals(Scaled(xs, f)) == SumReals(xs) * f
  {
    if xs != [] {
      var last := |xs| - 1;
      ScaledSum(xs[..last], f);
      forall n | 0 <= n < last ensures Scaled(xs, f)[..last][n] == Scaled(xs[..last], f)[n] {
        assert xs[..last][n] == xs[n];
      }
      assert Scaled(xs, f)[..last] == Scaled(xs[..last], f);
      Distribute(f, SumReals(xs[..last]), xs[last]);
    }
  }

  lemma Distribute(f: real, x: real, y: real)
    ensures (x + y) * f == x * f + y * f
  {
  }

  function HalfCents(n: nat): real {
    if n == 0 then 0.0 else HalfCents(n - 1) + 0.005
  }

  lemma {:induction false} NearSums(xs: seq<real>, ys: seq<real>)
    requires |xs| == |ys| && forall i :: 0 <= i < |xs| ==> -0.005 <= xs[i] - ys[i] <= 0.005
    ensures -HalfCents(|xs|) <= SumReals(xs) - SumReals(ys) <= HalfCents(|xs|)
  {
    if xs != [] {
      NearSums(xs[..|xs| - 1], ys[..|xs| - 1]);
    }
  }

  lemma PostedNear(bases: seq<real>, p: RateParams, n: nat)
    requires NonNegative(bases) && p.factor >= 0.0 && n < |bases|
    ensures -0.005 <= Posted(bases, p)[n] - Scaled(Charged(bases, p), p.factor)[n] <= 0.005
  {
    PostingSpec(bases[n], SumReals(bases[..n]), p);
    ScaledAt(Charged(bases, p), p.factor, n);
  }

  lemma ScaledAt(xs: seq<real>, f: real, n: nat)
    requires n < |xs|
    ensures Scaled(xs, f)[n] == Exact(xs[n], f)
  {
  }

  /** The posted amounts of n periods stay within n half cents of factor x what was charged. */
  lemma PostedNearCharged(bases: seq<real>, p: RateParams)
    requires NonNegative(bases) && p.factor >= 0.0
    ensures -HalfCents(|bases|)
            <= SumReals(Posted(bases, p)) - SumReals(Charged(bases, p)) * p.factor
            <= HalfCents(|bases|)
  {
    ScaledSum(Charged(bases, p), p.factor);
    forall n | 0 <= n < |bases|
      ensures -0.005 <= Posted(bases, p)[n] - Scaled(Charged(bases, p), p.factor)[n] <= 0.005
    {
      PostedNear(bases, p, n);
    }
    NearSums(Posted(bases, p), Scaled(Charged(bases, p), p.factor));
  }

  // ----- multiply_item_value -----

  datatype Added = Added(description: string, amount: real, account: string, accountType: string)

  /** An item worth factor x another's value; applies says whether the instance's pattern matches the
      item's key. */
  function MultiplyItemValue(amount: real, factor: real, applies: bool, name: string,
                             creditor: string, creditorType: string): seq<Added> {
    var product := Mul(amount, factor);
    if !applies || product <= 0.0 then [] else [Added(name, product, creditor, creditorType)]
  }

  /** What is added is one item payable to the creditor, within half a cent of the exact product, unless the
      pattern does not match or the product is half a cent or less. */
  lemma MultiplySpec(amount: real, factor: real, applies: bool, name: string, creditor: string, creditorType: string)
    ensures var added := MultiplyItemValue(amount, factor, applies, name, creditor, creditorType);
            && (added == [] <==> !applies || Exact(amount, factor) <= 0.005)
            && (added != [] ==> |added| == 1 && added[0].account == creditor && added[0].amount > 0.0
                                && -0.005 <= added[0].amount - Exact(amount, factor) <= 0.005)
  {
    RoundsToNothing(Exact(amount, factor));
  }

  lemma RoundsToNothing(exact: real)
    ensures Cents(exact) <= 0.0 <==> exact <= 0.005
    ensures -0.005 <= Cents(exact) - exact <= 0.005
  {
    CentsNear(exact);
    if exact >= 0.0 {
      CentsOfPositive(exact);
    } else {
      CentsZero();
      CentsMonotone(exact, 0.0);
    }
  }

  // ----- run_instances -----

  type Face = map<string, real>

  /** A rule instance: its row key, and the rule it names with its params bound. The rule reads the object and the
      execution ids on it so far, the last of which is its own; one that refuses its params gives none. */
  datatype Instance = Instance(key: string, run: (Face, seq<nat>) -> Option<seq<Leg>>)

  datatype Stamped = Stamped(row: Leg, ruleKey: string, execId: nat)

  /** The object the instances were found for. Its face is what rules read; running appends one id an
      invocation to what it was read by. */
  class Context {
    const face: Face
    var execIds: seq<nat>

    constructor (face: Face)
      ensures this.face == face && execIds == []
    {
      this.face := face;
      execIds := [];
    }
  }

  function Stamp(rows: seq<Leg>, key: string, id: nat): seq<Stamped> {
    if rows == [] then [] else [Stamped(rows[0], key, id)] + Stamp(rows[1..], key, id)
  }

  /** Execution ids are fresh by counting. */
  function Counted(firstId: nat, n: nat): seq<nat> {
    if n == 0 then [] else Counted(firstId, n - 1) + [firstId + n - 1]
  }

  /** What the instances return, one after the other, on an object that has some ids already; none when one
      refuses. */
  function Returned(face: Face, ids: seq<nat>, instances: seq<Instance>, firstId: nat): Option<seq<Stamped>>
    decreases |instances|
  {
    if instances == [] then Some([]) else
      match instances[0].run(face, ids + [firstId])
      case None => None
      case Some(rows) =>
        match Returned(face, ids + [firstId], instances[1..], firstId + 1)
        case None => None
        case Some(rest) => Some(Stamp(rows, instances[0].key, firstId) + rest)
  }

  /** The rows of one run before those of another, if neither refused. */
  function Both(x: Option<seq<Stamped>>, y: Option<seq<Stamped>>): Option<seq<Stamped>> {
    if x.None? || y.None? then None else Some(x.value + y.value)
  }

  lemma BothAssoc(x: Option<seq<Stamped>>, y: Option<seq<Stamped>>, z: Option<seq<Stamped>>)
    ensures Both(Both(x, y), z) == Both(x, Both(y, z))
    ensures Both(Some([]), x) == x == Both(x, Some([]))
  {
    if x.Some? {
      Nothing(x.value);
      if y.Some? && z.Some? {
        Assoc(x.value, y.value, z.value);
      }
    }
  }

  lemma ReturnedHead(face: Face, ids: seq<nat>, first: Instance, rest: seq<Instance>, firstId: nat)
    ensures Returned(face, ids, [first] + rest, firstId) ==
              Both(Returned(face, ids, [first], firstId), Returned(face, ids + [firstId], rest, firstId + 1))
  {
    DropHead(first, rest);
    Nothing([first]);
    DropHead(first, []);
    if first.run(face, ids + [firstId]).Some? {
      Nothing(Stamp(first.run(face, ids + [firstId]).value, first.key, firstId));
    }
  }

  lemma {:induction false} CountedHead(ids: seq<nat>, firstId: nat, n: nat)
    requires n > 0
    ensures ids + Counted(firstId, n) == ids + [firstId] + Counted(firstId + 1, n - 1)
  {
    if n > 1 {
      CountedHead(ids, firstId, n - 1);
      Assoc(ids, Counted(firstId, n - 1), [firstId + n - 1]);
      Assoc(ids + [firstId], Counted(firstId + 1, n - 2), [firstId + n - 1]);
    }
  }

  /** Two lists run one after the other: the second meets the ids the first left. */
  lemma {:induction false} ThreadsCompose(face: Face, ids: seq<nat>, a: seq<Instance>, b: seq<Instance>, firstId: nat)
    ensures Returned(face, ids, a + b, firstId) ==
              Both(Returned(face, ids, a, firstId), Returned(face, ids + Counted(firstId, |a|), b, firstId + |a|))
    decreases |a|
  {
    if a == [] {
      Nothing(b);
      Nothing(ids);
      BothAssoc(Returned(face, ids, b, firstId), None, None);
    } else {
      var first, rest := a[0], a[1..];
      HeadTail(a);
      Assoc([first], rest, b);
      ReturnedHead(face, ids, first, rest + b, firstId);
      ReturnedHead(face, ids, first, rest, firstId);
      ThreadsCompose(face, ids + [firstId], rest, b, firstId + 1);
      CountedHead(ids, firstId, |a|);
      BothAssoc(Returned(face, ids, [first], firstId), Returned(face, ids + [firstId], rest, firstId + 1),
                Returned(face, ids + Counted(firstId, |a|), b, firstId + |a|));
    }
  }

  /** Of the ids on the object the rule looks at its own alone. */
  ghost predicate OwnIdOnly(inst: Instance) {
    forall face, x: seq<nat>, y: seq<nat>, id: nat :: inst.run(face, x + [id]) == inst.run(face, y + [id])
  }

  /** What an instance returns does not depend on what ran before it. */
  ghost predicate Unmoved(inst: Instance) {
    forall face, ids: seq<nat>, id: nat :: Returned(face, ids, [inst], id) == Returned(face, [], [inst], id)
  }

  lemma {:induction false} StampsApart(x: seq<Leg>, y: seq<Leg>, key: string, id: nat)
    requires Stamp(x, key, id) == Stamp(y, key, id)
    ensures x == y
  {
    StampLength(x, key, id);
    StampLength(y, key, id);
    if x != [] {
      HeadTail(x);
      HeadTail(y);
      DropHead(Stamped(x[0], key, id), Stamp(x[1..], key, id));
      DropHead(Stamped(y[0], key, id), Stamp(y[1..], key, id));
      StampsApart(x[1..], y[1..], key, id);
    }
  }

  lemma {:induction false} StampLength(x: seq<Leg>, key: string, id: nat)
    ensures |Stamp(x, key, id)| == |x|
  {
    if x != [] {
      StampLength(x[1..], key, id);
    }
  }

  lemma OneReturned(face: Face, ids: seq<nat>, inst: Instance, id: nat)
    ensures Returned(face, ids, [inst], id) ==
              (match inst.run(face, ids + [id]) case None => None case Some(rows) => Some(Stamp(rows, inst.key, id)))
  {
    DropHead(inst, []);
    Nothing([inst]);
    if inst.run(face, ids + [id]).Some? {
      Nothing(Stamp(inst.run(face, ids + [id]).value, inst.key, id));
    }
  }

  lemma MovedBy(face: Face, x: seq<nat>, y: seq<nat>, inst: Instance, id: nat)
    ensures Returned(face, x, [inst], id) == Returned(face, y, [inst], id) <==>
              inst.run(face, x + [id]) == inst.run(face, y + [id])
  {
    OneReturned(face, x, inst, id);
    OneReturned(face, y, inst, id);
    var a, b := inst.run(face, x + [id]), inst.run(face, y + [id]);
    if a.Some? && b.Some? && Stamp(a.value, inst.key, id) == Stamp(b.value, inst.key, id) {
      StampsApart(a.value, b.value, inst.key, id);
    }
  }

  /** No instance sees what another returned, but it does see the ids: what ran before changes nothing that an
      instance returns exactly when its rule looks at no id but its own. */
  lemma UnmovedIff(inst: Instance)
    ensures Unmoved(inst) <==> OwnIdOnly(inst)
  {
    if Unmoved(inst) {
      forall face, x: seq<nat>, y: seq<nat>, id: nat ensures inst.run(face, x + [id]) == inst.run(face, y + [id]) {
        MovedBy(face, x, y, inst, id);
      }
    }
    if OwnIdOnly(inst) {
      forall face, ids: seq<nat>, id: nat ensures Returned(face, ids, [inst], id) == Returned(face, [], [inst], id) {
        MovedBy(face, ids, [], inst, id);
      }
    }
  }

  lemma {:induction false} UnmovedList(face: Face, x: seq<nat>, y: seq<nat>, b: seq<Instance>, firstId: nat)
    requires forall inst :: inst in b ==> OwnIdOnly(inst)
    ensures Returned(face, x, b, firstId) == Returned(face, y, b, firstId)
    decreases |b|
  {
    if b != [] {
      var first := b[0];
      assert first in b && first.run(face, x + [firstId]) == first.run(face, y + [firstId]);
      UnmovedList(face, x + [firstId], y + [firstId], b[1..], firstId + 1);
    }
  }

  /** Two lists of such rules run one after the other return what each returns alone. */
  lemma RunsCompose(face: Face, a: seq<Instance>, b: seq<Instance>, firstId: nat)
    requires forall inst :: inst in b ==> OwnIdOnly(inst)
    ensures Returned(face, [], a + b, firstId) ==
              Both(Returned(face, [], a, firstId), Returned(face, [], b, firstId + |a|))
  {
    ThreadsCompose(face, [], a, b, firstId);
    UnmovedList(face, [] + Counted(firstId, |a|), [], b, firstId + |a|);
  }

  lemma CountedNext(ids: seq<nat>, firstId: nat, n: nat)
    ensures ids + Counted(firstId, n + 1) == ids + Counted(firstId, n) + [firstId + n]
  {
    Assoc(ids, Counted(firstId, n), [firstId + n]);
  }

  lemma ReturnedNext(face: Face, start: seq<nat>, done: seq<Instance>, inst: Instance, rows: seq<Stamped>, firstId: nat)
    requires Returned(face, start, done, firstId) == Some(rows)
    ensures Returned(face, start, done + [inst], firstId) ==
              (match inst.run(face, start + Counted(firstId, |done|) + [firstId + |done|])
               case None => None
               case Some(more) => Some(rows + Stamp(more, inst.key, firstId + |done|)))
  {
    ThreadsCompose(face, start, done, [inst], firstId);
    OneReturned(face, start + Counted(firstId, |done|), inst, firstId + |done|);
  }

  lemma Rejoin<T>(s: seq<T>, n: nat)
    requires n <= |s|
    ensures s[..n] + s[n..] == s
  {
  }

  /** A list is refused when a part of it, from its start, is. */
  lemma Refuses(face: Face, start: seq<nat>, instances: seq<Instance>, n: nat, firstId: nat)
    requires n <= |instances| && Returned(face, start, instances[..n], firstId).None?
    ensures Returned(face, start, instances, firstId).None?
  {
    ThreadsCompose(face, start, instances[..n], instances[n..], firstId);
    Rejoin(instances, n);
  }

  /** run_instances(): every instance runs on the same face; each id lands on the object read and on
      everything that invocation created. */
  method RunInstances(ctx: Context, instances: seq<Instance>, firstId: nat) returns (out: Option<seq<Stamped>>)
    modifies ctx
    ensures out == Returned(ctx.face, old(ctx.execIds), instances, firstId)
    ensures out.Some? ==> ctx.execIds == old(ctx.execIds) + Counted(firstId, |instances|)
    ensures old(ctx.execIds) <= ctx.execIds
  {
    var rows: seq<Stamped> := [];
    ghost var start := ctx.execIds;
    Nothing(start);
    for k := 0 to |instances|
      invariant ctx.execIds == start + Counted(firstId, k)
      invariant Returned(ctx.face, start, instances[..k], firstId) == Some(rows)
    {
      var id, inst := firstId + k, instances[k];
      PrefixStep(instances, k);
      CountedNext(start, firstId, k);
      ReturnedNext(ctx.face, start, instances[..k], inst, rows, firstId);
      ctx.execIds := ctx.execIds + [id];
      var returned := inst.run(ctx.face, ctx.execIds);
      if returned.None? {
        Refuses(ctx.face, start, instances, k + 1, firstId);
        return None;
      }
      rows := rows + Stamp(returned.value, inst.key, id);
    }
    assert instances[..|instances|] == instances;
    out := Some(rows);
  }
}
