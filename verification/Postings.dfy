/** What an invoice item posts on its walk of states: the money rules of
    modules/invoicing/transition_rules.py, run by manage_invoice/transition_item.py. */
module Postings {
  import opened Common
  import opened Rules

  // ----- the rules -----

  const ITEM := "ITEM"
  const ANY := "*"
  const CASH := "CASH"
  const UNEARNED := "UNEARNED_REVENUE"

  const PAID := "paid"
  const EARNED := "earned"
  const REFUNDED := "refunded"

  const REVENUE := "REVENUE"
  const LIABILITY := "LIABILITY"

  /** What a rule reads of an item; the state being left comes beside it. */
  datatype Item = Item(amount: real, account: string, accountType: string)

  datatype Instance =
    | PostValue(debit: string, debitType: string, credit: string, creditType: string)
    | ReverseValue(heldBy: map<string, string>, heldType: string, to: string, toType: string)

  function Account(ref: string, item: Item): string {
    if ref == ITEM then item.account else ref
  }

  function AccountType(ref: string, item: Item, accountType: string): string {
    if ref == ITEM then item.accountType else accountType
  }

  function Pair(item: Item, debit: string, debitType: string, credit: string, creditType: string): seq<Leg> {
    [Leg(Debit, Account(debit, item), AccountType(debit, item, debitType), item.amount),
     Leg(Credit, Account(credit, item), AccountType(credit, item, creditType), item.amount)]
  }

  /** The account reference that holds the item's value, "" for none. */
  function Holder(heldBy: map<string, string>, from: string): string {
    if from in heldBy && heldBy[from] != "" then heldBy[from] else if ANY in heldBy then heldBy[ANY] else ""
  }

  /** post_item_value() and reverse_item_value(). */
  function Legs(i: Instance, item: Item, from: string): seq<Leg> {
    match i
    case PostValue(debit, debitType, credit, creditType) => Pair(item, debit, debitType, credit, creditType)
    case ReverseValue(heldBy, heldType, to, toType) =>
      var ref := Holder(heldBy, from);
      if ref == "" then [] else Pair(item, ref, heldType, to, toType)
  }

  // ----- which rules run -----

  /** CANONICAL, by what the item credits and the state it enters. */
  function Canonical(accountType: string, state: string): seq<Instance> {
    if accountType == REVENUE then
      if state == PAID then [PostValue(CASH, "ASSET", UNEARNED, LIABILITY)]
      else if state == EARNED then [PostValue(UNEARNED, LIABILITY, ITEM, LIABILITY)]
      else if state == REFUNDED then [ReverseValue(map[EARNED := ITEM, ANY := UNEARNED], LIABILITY, CASH, "ASSET")]
      else []
    else if accountType == LIABILITY then
      if state == PAID then [PostValue(CASH, "ASSET", ITEM, LIABILITY)]
      else if state == REFUNDED then [ReverseValue(map[ANY := ITEM], LIABILITY, CASH, "ASSET")]
      else []
    else []
  }

  /** The rules a firm wrote, by the same key. */
  type Firm = map<(string, string), seq<Instance>>

  function MoneyInstances(firm: Firm, accountType: string, state: string): seq<Instance> {
    var canonical := Canonical(accountType, state);
    if canonical != [] then canonical else if (accountType, state) in firm then firm[(accountType, state)] else []
  }

  function AllLegs(instances: seq<Instance>, item: Item, from: string): seq<Leg> {
    if instances == [] then [] else Legs(instances[0], item, from) + AllLegs(instances[1..], item, from)
  }

  function Posted(firm: Firm, item: Item, from: string, state: string): seq<Leg> {
    AllLegs(MoneyInstances(firm, item.accountType, state), item, from)
  }

  // ----- an item's stream -----

  datatype Move = Move(from: string, to: string)

  /** An item's transitions and the entry each posted, none for an annotation. */
  datatype Stream = Stream(first: string, moves: seq<Move>, entries: seq<seq<Leg>>)

  function Current(s: Stream): string {
    if s.moves == [] then s.first else s.moves[|s.moves| - 1].to
  }

  /** A transition to the state the item is in, or one that moves the money of an item without any, is
      refused; any other appends its row and posts its legs. */
  function Next(firm: Firm, item: Item, s: Stream, state: string): Option<Stream> {
    var from := Current(s);
    var legs := Posted(firm, item, from, state);
    if from == state || (legs != [] && (item.account == "" || item.amount <= 0.0)) then None
    else Some(Stream(s.first, s.moves + [Move(from, state)], s.entries + [legs]))
  }

  method RunRules(instances: seq<Instance>, item: Item, from: string) returns (legs: seq<Leg>)
    ensures legs == AllLegs(instances, item, from)
  {
    legs := [];
    for k := 0 to |instances|
      invariant legs == AllLegs(instances[..k], item, from)
    {
      PrefixStep(instances, k);
      AllLegsAppend(instances[..k], instances[k], item, from);
      legs := legs + Legs(instances[k], item, from);
    }
    assert instances[..|instances|] == instances;
  }

  lemma {:induction false} AllLegsAppend(instances: seq<Instance>, i: Instance, item: Item, from: string)
    ensures AllLegs(instances + [i], item, from) == AllLegs(instances, item, from) + Legs(i, item, from)
  {
    if instances == [] {
      Nothing([i]);
      Nothing(Legs(i, item, from));
      assert [i][1..] == [];
    } else {
      HeadTail(instances);
      Assoc([instances[0]], instances[1..], [i]);
      DropHead(instances[0], instances[1..] + [i]);
      AllLegsAppend(instances[1..], i, item, from);
      Assoc(Legs(instances[0], item, from), AllLegs(instances[1..], item, from), Legs(i, item, from));
    }
  }

  /** The states asked for in turn; a refused one leaves the stream as it is. */
  function Walk(firm: Firm, item: Item, first: string, states: seq<string>): Stream {
    if states == [] then Stream(first, [], []) else
      var s := Walk(firm, item, first, states[..|states| - 1]);
      match Next(firm, item, s, states[|states| - 1])
      case None => s
      case Some(next) => next
  }

  // ----- every entry balances -----

  lemma {:induction false} NetAppends(a: seq<Leg>, b: seq<Leg>)
    ensures forall acct :: Net(a + b, acct) == Net(a, acct) + Net(b, acct)
    ensures forall side :: Total(a + b, side) == Total(a, side) + Total(b, side)
  {
    if a == [] {
      Nothing(b);
    } else {
      HeadTail(a);
      Assoc([a[0]], a[1..], b);
      DropHead(a[0], a[1..] + b);
      NetAppends(a[1..], b);
    }
  }

  lemma PairSpec(item: Item, debit: string, debitType: string, credit: string, creditType: string)
    ensures var legs := Pair(item, debit, debitType, credit, creditType);
            && Total(legs, Debit) == Total(legs, Credit) == item.amount
            && forall acct :: Net(legs, acct) == (if Account(debit, item) == acct then item.amount else 0.0)
                                                 - (if Account(credit, item) == acct then item.amount else 0.0)
  {
    var legs := Pair(item, debit, debitType, credit, creditType);
    TwoLegs(legs[0], legs[1]);
  }

  lemma {:induction false} LegsBalance(instances: seq<Instance>, item: Item, from: string)
    ensures Total(AllLegs(instances, item, from), Debit) == Total(AllLegs(instances, item, from), Credit)
  {
    if instances != [] {
      LegsBalance(instances[1..], item, from);
      NetAppends(Legs(instances[0], item, from), AllLegs(instances[1..], item, from));
      match instances[0]
      case PostValue(debit, debitType, credit, creditType) => PairSpec(item, debit, debitType, credit, creditType);
      case ReverseValue(heldBy, heldType, to, toType) => PairSpec(item, Holder(heldBy, from), heldType, to, toType);
    }
  }

  ghost predicate Balanced(s: Stream) {
    |s.entries| == |s.moves|
    && forall i :: 0 <= i < |s.entries| ==> Total(s.entries[i], Debit) == Total(s.entries[i], Credit)
  }

  ghost predicate Connected(s: Stream) {
    && (s.moves != [] ==> s.moves[0].from == s.first)
    && (forall i :: 0 <= i < |s.moves| ==> s.moves[i].from != s.moves[i].to)
    && forall i :: 0 < i < |s.moves| ==> s.moves[i].from == s.moves[i - 1].to
  }

  lemma NextIs(firm: Firm, item: Item, s: Stream, state: string)
    requires Next(firm, item, s, state).Some?
    ensures Next(firm, item, s, state).value
            == Stream(s.first, s.moves + [Move(Current(s), state)], s.entries + [Posted(firm, item, Current(s), state)])
  {
  }

  lemma AppendBalances(s: Stream, state: string, legs: seq<Leg>)
    requires Balanced(s) && Connected(s) && Current(s) != state && Total(legs, Debit) == Total(legs, Credit)
    ensures var next := Stream(s.first, s.moves + [Move(Current(s), state)], s.entries + [legs]);
            Balanced(next) && Connected(next)
  {
  }

  lemma StepBalances(firm: Firm, item: Item, s: Stream, state: string)
    requires Balanced(s) && Connected(s)
    ensures Next(firm, item, s, state).Some? ==>
              var next := Next(firm, item, s, state).value;
              Balanced(next) && Connected(next) && next.first == s.first
  {
    if Next(firm, item, s, state).Some? {
      LegsBalance(MoneyInstances(firm, item.accountType, state), item, Current(s));
      NextIs(firm, item, s, state);
      AppendBalances(s, state, Posted(firm, item, Current(s), state));
    }
  }

  /** Every walk posts equal debits and credits at each step, whatever rules the firm has written, and each
      row leaves the state the one before it entered. */
  lemma {:induction false} WalkBalances(firm: Firm, item: Item, first: string, states: seq<string>)
    ensures Balanced(Walk(firm, item, first, states)) && Connected(Walk(firm, item, first, states))
            && Walk(firm, item, first, states).first == first
  {
    if states != [] {
      var n := |states| - 1;
      WalkBalances(firm, item, first, states[..n]);
      StepBalances(firm, item, Walk(firm, item, first, states[..n]), states[n]);
    }
  }

  // ----- what is left on each account -----

  function NetOf(entries: seq<seq<Leg>>, acct: string): real {
    if entries == [] then 0.0 else NetOf(entries[..|entries| - 1], acct) + Net(entries[|entries| - 1], acct)
  }

  /** How often a walk enters a state. */
  function Entered(moves: seq<Move>, state: string): nat {
    if moves == [] then 0
    else Entered(moves[..|moves| - 1], state) + (if moves[|moves| - 1].to == state then 1 else 0)
  }

  /** How often it is refunded out of earned. */
  function Returned(moves: seq<Move>): nat {
    if moves == [] then 0 else
      var last := moves[|moves| - 1];
      Returned(moves[..|moves| - 1]) + (if last == Move(EARNED, REFUNDED) then 1 else 0)
  }

  function Times(amount: real, n: int): real {
    amount * n as real
  }

  lemma TimesAdds(amount: real, m: int, n: int)
    ensures Times(amount, m + n) == Times(amount, m) + Times(amount, n)
    ensures Times(amount, 0) == 0.0 && Times(amount, 1) == amount && Times(amount, -1) == -amount
  {
  }

  lemma TimesZero(amount: real, n: int)
    requires amount > 0.0
    ensures Times(amount, n) == 0.0 <==> n == 0
  {
  }

  /** The item's value times this is what a move leaves on an account. */
  function Weight(item: Item, m: Move, acct: string): int {
    var cash := if acct == CASH then 1 else 0;
    var unearned := if acct == UNEARNED then 1 else 0;
    var own := if acct == item.account then 1 else 0;
    if item.accountType == REVENUE then
      if m.to == PAID then cash - unearned
      else if m.to == EARNED then unearned - own
      else if m.to == REFUNDED then (if m.from == EARNED then own else unearned) - cash
      else 0
    else if item.accountType == LIABILITY then
      if m.to == PAID then cash - own
      else if m.to == REFUNDED then own - cash
      else 0
    else 0
  }

  function Weights(item: Item, moves: seq<Move>, acct: string): int {
    if moves == [] then 0 else Weights(item, moves[..|moves| - 1], acct) + Weight(item, moves[|moves| - 1], acct)
  }

  /** The firm has no rules of its own for this kind of item. */
  ghost predicate OnlyCanonical(firm: Firm, accountType: string) {
    forall state :: (accountType, state) in firm ==> firm[(accountType, state)] == []
  }

  lemma OneInstance(i: Instance, item: Item, from: string)
    ensures AllLegs([i], item, from) == Legs(i, item, from)
  {
    Nothing(Legs(i, item, from));
    assert [i][1..] == [];
  }

  lemma PostedNet(firm: Firm, item: Item, from: string, state: string, acct: string)
    requires OnlyCanonical(firm, item.accountType)
    ensures Net(Posted(firm, item, from, state), acct) == Times(item.amount, Weight(item, Move(from, state), acct))
  {
    var canonical := Canonical(item.accountType, state);
    assert Net([], acct) == 0.0;
    if canonical == [] {
      assert Posted(firm, item, from, state) == [];
      TimesAdds(item.amount, 0, 0);
    } else {
      CanonicalNet(item, from, state, acct);
    }
  }

  lemma CanonicalNet(item: Item, from: string, state: string, acct: string)
    requires Canonical(item.accountType, state) != []
    ensures Net(AllLegs(Canonical(item.accountType, state), item, from), acct)
            == Times(item.amount, Weight(item, Move(from, state), acct))
  {
    var i := Canonical(item.accountType, state)[0];
    OneInstance(i, item, from);
    TimesAdds(item.amount, 0, 0);
    match i
    case PostValue(debit, debitType, credit, creditType) => PairSpec(item, debit, debitType, credit, creditType);
    case ReverseValue(heldBy, heldType, to, toType) => PairSpec(item, Holder(heldBy, from), heldType, to, toType);
  }

  lemma {:induction false} WalkNet(firm: Firm, item: Item, first: string, states: seq<string>, acct: string)
    requires OnlyCanonical(firm, item.accountType)
    ensures var s := Walk(firm, item, first, states);
            NetOf(s.entries, acct) == Times(item.amount, Weights(item, s.moves, acct))
  {
    if states == [] {
      TimesAdds(item.amount, 0, 0);
    } else {
      var n := |states| - 1;
      WalkNet(firm, item, first, states[..n], acct);
      var before := Walk(firm, item, first, states[..n]);
      if Next(firm, item, before, states[n]).Some? {
        StepNet(firm, item, before, states[n], acct);
      }
    }
  }

  lemma NetAppend(entries: seq<seq<Leg>>, legs: seq<Leg>, acct: string)
    ensures NetOf(entries + [legs], acct) == NetOf(entries, acct) + Net(legs, acct)
  {
    Cut(entries, [legs]);
  }

  lemma WeightsAppend(item: Item, moves: seq<Move>, m: Move, acct: string)
    ensures Weights(item, moves + [m], acct) == Weights(item, moves, acct) + Weight(item, m, acct)
  {
    Cut(moves, [m]);
  }

  lemma AppendNet(item: Item, entries: seq<seq<Leg>>, moves: seq<Move>, legs: seq<Leg>, move: Move, acct: string)
    requires NetOf(entries, acct) == Times(item.amount, Weights(item, moves, acct))
    requires Net(legs, acct) == Times(item.amount, Weight(item, move, acct))
    ensures NetOf(entries + [legs], acct) == Times(item.amount, Weights(item, moves + [move], acct))
  {
    NetAppend(entries, legs, acct);
    WeightsAppend(item, moves, move, acct);
    TimesAdds(item.amount, Weights(item, moves, acct), Weight(item, move, acct));
  }

  lemma StepNet(firm: Firm, item: Item, s: Stream, state: string, acct: string)
    requires OnlyCanonical(firm, item.accountType) && Next(firm, item, s, state).Some?
    requires NetOf(s.entries, acct) == Times(item.amount, Weights(item, s.moves, acct))
    ensures var next := Next(firm, item, s, state).value;
            NetOf(next.entries, acct) == Times(item.amount, Weights(item, next.moves, acct))
  {
    NextIs(firm, item, s, state);
    PostedNet(firm, item, Current(s), state, acct);
    AppendNet(item, s.entries, s.moves, Posted(firm, item, Current(s), state), Move(Current(s), state), acct);
  }

  /** Nothing is left on any account. */
  ghost predicate AllZero(entries: seq<seq<Leg>>) {
    forall acct :: NetOf(entries, acct) == 0.0
  }

  /** What a liability item leaves on an account: the item's value this many times. */
  function LiabilityLeft(item: Item, moves: seq<Move>, acct: string): int {
    var kept := Entered(moves, PAID) - Entered(moves, REFUNDED);
    (if acct == CASH then kept else 0) - (if acct == item.account then kept else 0)
  }

  lemma {:induction false} LiabilityWeights(item: Item, moves: seq<Move>, acct: string)
    requires item.accountType == LIABILITY
    ensures Weights(item, moves, acct) == LiabilityLeft(item, moves, acct)
  {
    if moves != [] {
      LiabilityWeights(item, moves[..|moves| - 1], acct);
    }
  }

  /** A collected item, a tax or a tip, over any walk: cash carries what was paid and not refunded, its own
      account owes it, and nothing else is ever moved. */
  lemma LiabilityNets(firm: Firm, item: Item, first: string, states: seq<string>, acct: string)
    requires item.accountType == LIABILITY && OnlyCanonical(firm, LIABILITY)
    ensures var s := Walk(firm, item, first, states);
            NetOf(s.entries, acct) == Times(item.amount, LiabilityLeft(item, s.moves, acct))
  {
    WalkNet(firm, item, first, states, acct);
    LiabilityWeights(item, Walk(firm, item, first, states).moves, acct);
  }

  lemma LiabilityZero(item: Item, s: Stream)
    requires item.amount > 0.0 && item.account != CASH
    requires forall acct :: NetOf(s.entries, acct) == Times(item.amount, LiabilityLeft(item, s.moves, acct))
    ensures AllZero(s.entries) <==> Entered(s.moves, PAID) == Entered(s.moves, REFUNDED)
  {
    TimesZero(item.amount, LiabilityLeft(item, s.moves, CASH));
    if Entered(s.moves, PAID) == Entered(s.moves, REFUNDED) {
      forall acct ensures NetOf(s.entries, acct) == 0.0 {
        assert NetOf(s.entries, acct) == Times(item.amount, LiabilityLeft(item, s.moves, acct));
        TimesZero(item.amount, LiabilityLeft(item, s.moves, acct));
      }
    } else {
      assert NetOf(s.entries, CASH) == Times(item.amount, LiabilityLeft(item, s.moves, CASH));
    }
  }

  /** All its accounts are back to zero exactly when it was refunded as often as it was paid, whatever
      states it passed through. */
  lemma LiabilityZeroIff(firm: Firm, item: Item, first: string, states: seq<string>)
    requires item.accountType == LIABILITY && OnlyCanonical(firm, LIABILITY)
    requires item.amount > 0.0 && item.account != CASH
    ensures var s := Walk(firm, item, first, states);
            AllZero(s.entries) <==> Entered(s.moves, PAID) == Entered(s.moves, REFUNDED)
  {
    var s := Walk(firm, item, first, states);
    forall acct ensures NetOf(s.entries, acct) == Times(item.amount, LiabilityLeft(item, s.moves, acct)) {
      LiabilityNets(firm, item, first, states, acct);
    }
    LiabilityZero(item, s);
  }

  ghost predicate Untouched(entries: seq<seq<Leg>>, acct: string) {
    forall i, k :: 0 <= i < |entries| && 0 <= k < |entries[i]| ==> entries[i][k].account != acct
  }

  /** And no leg of it names UNEARNED_REVENUE. */
  lemma {:induction false} LiabilityNeverUnearned(firm: Firm, item: Item, first: string, states: seq<string>)
    requires item.accountType == LIABILITY && OnlyCanonical(firm, LIABILITY) && item.account != UNEARNED
    ensures Untouched(Walk(firm, item, first, states).entries, UNEARNED)
  {
    if states != [] {
      var n := |states| - 1;
      LiabilityNeverUnearned(firm, item, first, states[..n]);
      var s := Walk(firm, item, first, states[..n]);
      LiabilityLegs(firm, item, Current(s), states[n]);
    }
  }

  lemma LiabilityLegs(firm: Firm, item: Item, from: string, state: string)
    requires item.accountType == LIABILITY && OnlyCanonical(firm, LIABILITY) && item.account != UNEARNED
    ensures var legs := Posted(firm, item, from, state);
            forall k :: 0 <= k < |legs| ==> legs[k].account != UNEARNED
  {
    var canonical := Canonical(LIABILITY, state);
    if canonical != [] {
      OneInstance(canonical[0], item, from);
    }
  }

  function RevenueLeft(item: Item, moves: seq<Move>, acct: string): int {
    var p, e, r, b := Entered(moves, PAID), Entered(moves, EARNED), Entered(moves, REFUNDED), Returned(moves);
    (if acct == CASH then p - r else 0) + (if acct == UNEARNED then e + r - b - p else 0)
    + (if acct == item.account then b - e else 0)
  }

  lemma {:induction false} RevenueWeights(item: Item, moves: seq<Move>, acct: string)
    requires item.accountType == REVENUE
    ensures Weights(item, moves, acct) == RevenueLeft(item, moves, acct)
  {
    if moves != [] {
      RevenueWeights(item, moves[..|moves| - 1], acct);
    }
  }

  /** A sold item over any walk: cash carries what was paid and not refunded, its revenue account what was
      earned and not refunded out of earned, and unearned revenue the rest. */
  lemma RevenueNets(firm: Firm, item: Item, first: string, states: seq<string>, acct: string)
    requires item.accountType == REVENUE && OnlyCanonical(firm, REVENUE)
    ensures var s := Walk(firm, item, first, states);
            NetOf(s.entries, acct) == Times(item.amount, RevenueLeft(item, s.moves, acct))
  {
    WalkNet(firm, item, first, states, acct);
    RevenueWeights(item, Walk(firm, item, first, states).moves, acct);
  }

  lemma RevenueZero(item: Item, s: Stream)
    requires item.amount > 0.0 && item.account != CASH && item.account != UNEARNED
    requires forall acct :: NetOf(s.entries, acct) == Times(item.amount, RevenueLeft(item, s.moves, acct))
    ensures AllZero(s.entries)
            <==> Entered(s.moves, PAID) == Entered(s.moves, REFUNDED) && Entered(s.moves, EARNED) == Returned(s.moves)
  {
    TimesZero(item.amount, RevenueLeft(item, s.moves, CASH));
    TimesZero(item.amount, RevenueLeft(item, s.moves, item.account));
    if Entered(s.moves, PAID) == Entered(s.moves, REFUNDED) && Entered(s.moves, EARNED) == Returned(s.moves) {
      forall acct ensures NetOf(s.entries, acct) == 0.0 {
        assert NetOf(s.entries, acct) == Times(item.amount, RevenueLeft(item, s.moves, acct));
        TimesZero(item.amount, RevenueLeft(item, s.moves, acct));
      }
    } else {
      assert NetOf(s.entries, CASH) == Times(item.amount, RevenueLeft(item, s.moves, CASH));
      assert NetOf(s.entries, item.account) == Times(item.amount, RevenueLeft(item, s.moves, item.account));
    }
  }

  /** All its accounts are back to zero exactly when it was refunded as often as it was paid and each time
      it was earned it was refunded straight out of earned. */
  lemma RevenueZeroIff(firm: Firm, item: Item, first: string, states: seq<string>)
    requires item.accountType == REVENUE && OnlyCanonical(firm, REVENUE)
    requires item.amount > 0.0 && item.account != CASH && item.account != UNEARNED
    ensures var s := Walk(firm, item, first, states);
            AllZero(s.entries)
            <==> Entered(s.moves, PAID) == Entered(s.moves, REFUNDED) && Entered(s.moves, EARNED) == Returned(s.moves)
  {
    var s := Walk(firm, item, first, states);
    forall acct ensures NetOf(s.entries, acct) == Times(item.amount, RevenueLeft(item, s.moves, acct)) {
      RevenueNets(firm, item, first, states, acct);
    }
    RevenueZero(item, s);
  }

  /** Paid once, refunded once and earned at most once: zero exactly when it was never earned, or the refund
      left earned directly. An annotation between the two, a check-out say, leaves revenue standing. */
  lemma RefundedOnce(firm: Firm, item: Item, first: string, states: seq<string>)
    requires item.accountType == REVENUE && OnlyCanonical(firm, REVENUE)
    requires item.amount > 0.0 && item.account != CASH && item.account != UNEARNED
    requires var m := Walk(firm, item, first, states).moves;
             Entered(m, PAID) == 1 && Entered(m, REFUNDED) == 1 && Entered(m, EARNED) <= 1
    requires first != EARNED
    ensures var s := Walk(firm, item, first, states);
            AllZero(s.entries) <==> Entered(s.moves, EARNED) == 0 || Move(EARNED, REFUNDED) in s.moves
  {
    var s := Walk(firm, item, first, states);
    RevenueZeroIff(firm, item, first, states);
    WalkBalances(firm, item, first, states);
    ReturnedIff(s.moves);
    EarnedBefore(s);
  }

  lemma {:induction false} ReturnedIff(moves: seq<Move>)
    ensures Returned(moves) > 0 <==> Move(EARNED, REFUNDED) in moves
    ensures Returned(moves) <= Entered(moves, REFUNDED)
  {
    if moves != [] {
      var n := |moves| - 1;
      ReturnedIff(moves[..n]);
      assert moves == moves[..n] + [moves[n]];
    }
  }

  /** A walk that did not begin earned leaves earned at most as often as it enters it. */
  lemma {:induction false} EarnedBefore(s: Stream)
    requires Connected(s) && s.first != EARNED
    ensures Returned(s.moves) + (if Current(s) == EARNED then 1 else 0) <= Entered(s.moves, EARNED)
    decreases |s.moves|
  {
    if s.moves != [] {
      var n := |s.moves| - 1;
      EarnedBefore(Stream(s.first, s.moves[..n], []));
    }
  }

  /** A firm has no say in what a canonical state moves. */
  lemma CanonicalIgnoresFirm(firm: Firm, other: Firm, item: Item, from: string, state: string)
    requires item.accountType == REVENUE ==> state == PAID || state == EARNED || state == REFUNDED
    requires item.accountType == LIABILITY ==> state == PAID || state == REFUNDED
    requires item.accountType == REVENUE || item.accountType == LIABILITY
    ensures Posted(firm, item, from, state) == Posted(other, item, from, state)
  {
  }
}
