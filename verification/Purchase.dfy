/** The money step of an agreed deal, modules/treasury/purchase.py, as the settle consumer
    (modules/agreements/lambdas/settle/main.py) delivers it to accounting. */
module Purchase {
  import opened Common
  import opened Agreements
  import Rules

  // ----- legs and entry ids -----

  function Legs(side: Side, amount: real): seq<Rules.Leg> {
    match side
    case Buyer =>
      [Rules.Leg(Rules.Debit, "INVESTMENTS", "ASSET", amount), Rules.Leg(Rules.Credit, "CASH", "ASSET", amount)]
    case Seller =>
      [Rules.Leg(Rules.Debit, "CASH", "ASSET", amount), Rules.Leg(Rules.Credit, "OWNER_EQUITY", "EQUITY", amount)]
  }

  function CashOf(side: Side, amount: real): real {
    if side.Buyer? then -amount else amount
  }

  /** Each side's legs balance; the two sides' cash legs are opposite, and nothing else they touch is. */
  lemma LegsSpec(side: Side, amount: real)
    ensures Rules.Total(Legs(side, amount), Rules.Debit) == Rules.Total(Legs(side, amount), Rules.Credit) == amount
    ensures Rules.Net(Legs(side, amount), "CASH") == CashOf(side, amount)
    ensures Rules.Net(Legs(Buyer, amount), "CASH") + Rules.Net(Legs(Seller, amount), "CASH") == 0.0
    ensures Rules.Net(Legs(Buyer, amount), "INVESTMENTS") == amount == -Rules.Net(Legs(Seller, amount), "OWNER_EQUITY")
  {
    forall s: Side ensures Rules.Net(Legs(s, amount), "CASH") == CashOf(s, amount) {
      Rules.TwoLegs(Legs(s, amount)[0], Legs(s, amount)[1]);
    }
    Rules.TwoLegs(Legs(side, amount)[0], Legs(side, amount)[1]);
    Rules.TwoLegs(Legs(Buyer, amount)[0], Legs(Buyer, amount)[1]);
    Rules.TwoLegs(Legs(Seller, amount)[0], Legs(Seller, amount)[1]);
  }

  const OUT := "capital-out-"
  const IN := "capital-"

  function EntryId(side: Side, thread: string): string {
    (if side.Buyer? then OUT else IN) + thread
  }

  /** Two entry ids are the same only for one side of one thread, or for a seller's thread that spells
      a buyer's thread behind "out-". */
  lemma EntryIdIff(a: Side, s: string, b: Side, t: string)
    ensures EntryId(a, s) == EntryId(b, t)
            <==> ((a == b && s == t) || (a.Buyer? && b.Seller? && t == "out-" + s)
                  || (a.Seller? && b.Buyer? && s == "out-" + t))
  {
    assert OUT == IN + "out-";
    Assoc(IN, "out-", s);
    Assoc(IN, "out-", t);
    Cut(IN, s);
    Cut(IN, t);
    Cut(IN, "out-" + s);
    Cut(IN, "out-" + t);
    Cut(OUT, s);
    Cut(OUT, t);
  }

  // ----- what an image says -----

  /** Whether a stored value is true to the code: an empty text and empty terms are not. */
  predicate Truthy(row: Row, f: Field) {
    f in row && match row[f] case Text(t) => t != "" case Pinned(terms) => terms != NO_TERMS case _ => true
  }

  predicate Agreed(row: Row) {
    Truthy(row, BuyerStamp) && Truthy(row, SellerStamp)
  }

  predicate Funded(row: Row) {
    Truthy(row, FundsReceipt)
  }

  predicate Names(row: Row, f: Field, me: string) {
    f in row && row[f] == Text(me)
  }

  function SideOf(row: Row, me: string): Option<Side> {
    if Names(row, BuyerName, me) then Some(Buyer) else if Names(row, SellerName, me) then Some(Seller) else None
  }

  function TotalOf(row: Row): Option<real> {
    if TermsOf in row && row[TermsOf].Pinned? then TotalValue(row[TermsOf].terms) else None
  }

  /** The posting pay() sends: none unless agreed, unpaid, a party's, and priced above zero. */
  datatype Payment = Payment(id: string, legs: seq<Rules.Leg>)

  function PaymentFor(thread: string, image: Row, me: string): Option<Payment> {
    if !Agreed(image) || Funded(image) then None else
      match SideOf(image, me)
      case None => None
      case Some(side) =>
        match TotalOf(image)
        case None => None
        case Some(total) => if total <= 0.0 then None else Some(Payment(EntryId(side, thread), Legs(side, total)))
  }

  // ----- the journal -----

  datatype Entry = Entry(id: string, at: Clock, legs: seq<Rules.Leg>)

  /** What accounting takes for a duplicate: the entry id with its timestamp, as it does, or the id alone. */
  datatype Dedup = OnIdAndTime | OnId

  predicate Duplicate(journal: seq<Entry>, e: Entry, dedup: Dedup) {
    exists i :: 0 <= i < |journal| && journal[i].id == e.id && (dedup.OnIdAndTime? ==> journal[i].at == e.at)
  }

  function Book(journal: seq<Entry>, e: Entry, dedup: Dedup): seq<Entry> {
    if Duplicate(journal, e, dedup) then journal else journal + [e]
  }

  function Times(journal: seq<Entry>, id: string): set<Clock> {
    set i | 0 <= i < |journal| && journal[i].id == id :: journal[i].at
  }

  function Count(journal: seq<Entry>, id: string): nat {
    if journal == [] then 0
    else Count(journal[..|journal| - 1], id) + (if journal[|journal| - 1].id == id then 1 else 0)
  }

  /** The cash the entries of one id have moved. */
  function Cash(journal: seq<Entry>, id: string): real {
    if journal == [] then 0.0 else
      var last := journal[|journal| - 1];
      Cash(journal[..|journal| - 1], id) + (if last.id == id then Rules.Net(last.legs, "CASH") else 0.0)
  }

  lemma BookAppends(journal: seq<Entry>, e: Entry, id: string)
    ensures Count(journal + [e], id) == Count(journal, id) + (if e.id == id then 1 else 0)
    ensures Cash(journal + [e], id) == Cash(journal, id) + (if e.id == id then Rules.Net(e.legs, "CASH") else 0.0)
    ensures Times(journal + [e], id) == Times(journal, id) + (if e.id == id then {e.at} else {})
  {
    Cut(journal, [e]);
    var longer := journal + [e];
    forall at ensures at in Times(longer, id) <==> at in Times(journal, id) + (if e.id == id then {e.at} else {}) {
      if at in Times(journal, id) {
        var i :| 0 <= i < |journal| && journal[i].id == id && journal[i].at == at;
        assert longer[i] == journal[i];
      }
      if at == e.at && e.id == id {
        assert longer[|journal|] == e;
      }
    }
  }

  lemma DuplicateIff(journal: seq<Entry>, e: Entry)
    ensures Duplicate(journal, e, OnIdAndTime) <==> e.at in Times(journal, e.id)
    ensures Duplicate(journal, e, OnId) <==> Count(journal, e.id) > 0
  {
    CountIff(journal, e.id);
  }

  lemma {:induction false} CountIff(journal: seq<Entry>, id: string)
    ensures Count(journal, id) > 0 <==> exists i :: 0 <= i < |journal| && journal[i].id == id
  {
    if journal != [] {
      var n := |journal| - 1;
      var front := journal[..n];
      CountIff(front, id);
      assert forall i :: 0 <= i < n ==> front[i] == journal[i];
    }
  }

  // ----- settle -----

  datatype Config = Config(money: Option<string>, produces: map<Side, string>)

  const CAPITAL := "capital_purchase"

  datatype Outcome = Landed | PostFailed | NoteLost

  /** One stream record: the image it carries, the kind's config, this firm's clock readings, how the
      money step fared, and the effect lambdas that fail. */
  datatype Delivery = Delivery(key: Key, image: Row, config: Option<Config>, now: Clock, settled: Clock,
                               outcome: Outcome, failing: set<string>)

  datatype World = World(rows: Rows, journal: seq<Entry>)

  /** Agreed, not settled, not declined, and of a kind that has a config row. */
  predicate Due(d: Delivery) {
    Agreed(d.image) && !Truthy(d.image, SettledTime) && !Truthy(d.image, DeclinedTime) && d.config.Some?
  }

  predicate WantsMoney(d: Delivery) {
    Due(d) && d.config.value.money.Some? && d.config.value.money.value != "" && !Funded(d.image)
  }

  /** The payment a delivery sends to accounting. */
  function Pays(d: Delivery, me: string): Option<Payment> {
    if WantsMoney(d) && d.config.value.money.value == CAPITAL && !d.outcome.PostFailed?
    then PaymentFor(d.key.thread, d.image, me) else None
  }

  predicate EffectRuns(d: Delivery, me: string, side: Side) {
    var name := if side.Buyer? then BuyerName else SellerName;
    d.config.Some? && Names(d.image, name, me) && side in d.config.value.produces && d.config.value.produces[side] != ""
  }

  predicate EffectsSucceed(d: Delivery, me: string) {
    forall side :: EffectRuns(d, me, side) ==> d.config.value.produces[side] !in d.failing
  }

  function Finish(rows: Rows, d: Delivery, me: string): Rows {
    if EffectsSucceed(d, me) then Apply(rows, d.key, MarkSettled(d.settled)) else rows
  }

  function Receipt(p: Payment): Op {
    Note(map[FundsReceipt := Text(p.id)])
  }

  function SettleStep(w: World, d: Delivery, me: string, dedup: Dedup): World {
    if !Due(d) then w
    else if !WantsMoney(d) then w.(rows := Finish(w.rows, d, me))
    else
      match Pays(d, me)
      case None => w
      case Some(p) =>
        var journal := Book(w.journal, Entry(p.id, d.now, p.legs), dedup);
        if d.outcome.NoteLost? then World(w.rows, journal)
        else World(Finish(Apply(w.rows, d.key, Receipt(p)), d, me), journal)
  }

  /** A firm: its agreements table and its journal. */
  class Firm {
    const me: string
    const dedup: Dedup
    var rows: Rows
    var journal: seq<Entry>

    constructor (me: string, dedup: Dedup)
      ensures rows == map[] && journal == []
    {
      this.me, this.dedup := me, dedup;
      rows, journal := map[], [];
    }

    /** pay(): the entry and, unless the run dies in between, its receipt on the agreement. */
    method Pay(d: Delivery) returns (posted: Option<string>, died: bool)
      modifies this
      ensures var p := if d.outcome.PostFailed? then None else PaymentFor(d.key.thread, d.image, me);
              match p
              case None => rows == old(rows) && journal == old(journal) && posted.None? && !died
              case Some(p) =>
                && journal == Book(old(journal), Entry(p.id, d.now, p.legs), dedup)
                && died == d.outcome.NoteLost?
                && (!died ==> posted == Some(p.id) && rows == Apply(old(rows), d.key, Receipt(p)))
                && (died ==> rows == old(rows))
    {
      posted, died := None, false;
      if !(Truthy(d.image, BuyerStamp) && Truthy(d.image, SellerStamp)) {
        return;
      }
      if Truthy(d.image, FundsReceipt) {
        return;
      }
      var side := SideOf(d.image, me);
      if side.None? {
        return;
      }
      var amount := TotalOf(d.image);
      if amount.None? || amount.value <= 0.0 {
        return;
      }
      var id := EntryId(side.value, d.key.thread);
      if d.outcome.PostFailed? {
        return;
      }
      journal := Book(journal, Entry(id, d.now, Legs(side.value, amount.value)), dedup);
      if d.outcome.NoteLost? {
        died := true;
        return;
      }
      rows := Apply(rows, d.key, Note(map[FundsReceipt := Text(id)]));
      posted := Some(id);
    }

    /** The effects, buyer's side first; the first that fails ends the delivery. */
    method Dispatch(d: Delivery) returns (ok: bool)
      requires d.config.Some?
      ensures ok == EffectsSucceed(d, me)
    {
      var sides := [Buyer, Seller];
      for i := 0 to 2
        invariant forall k :: 0 <= k < i && EffectRuns(d, me, sides[k]) ==>
                    d.config.value.produces[sides[k]] !in d.failing
      {
        var side := sides[i];
        if !Names(d.image, if side.Buyer? then BuyerName else SellerName, me) {
          continue;
        }
        if side !in d.config.value.produces || d.config.value.produces[side] == "" {
          continue;
        }
        if d.config.value.produces[side] in d.failing {
          assert EffectRuns(d, me, side);
          return false;
        }
      }
      assert sides[0] == Buyer && sides[1] == Seller;
      return true;
    }

    method Settle(d: Delivery)
      modifies this
      ensures World(rows, journal) == SettleStep(old(World(rows, journal)), d, me, dedup)
    {
      if !(Truthy(d.image, BuyerStamp) && Truthy(d.image, SellerStamp)) {
        return;
      }
      if Truthy(d.image, SettledTime) || Truthy(d.image, DeclinedTime) || d.config.None? {
        return;
      }
      var money := d.config.value.money;
      if money.Some? && money.value != "" && !Truthy(d.image, FundsReceipt) {
        if money.value != CAPITAL {
          return;
        }
        var paid, died := Pay(d);
        if died || paid.None? || paid.value == "" {
          return;
        }
      }
      var ok := Dispatch(d);
      if ok {
        rows := Apply(rows, d.key, MarkSettled(d.settled));
      }
    }
  }

  // ----- runs -----

  /** What happens at a firm: a touch, note, decline or stamp on a row, or a delivery to settle. */
  datatype Step = Act(event: Event) | Deliver(delivery: Delivery)

  function Perform(w: World, step: Step, me: string, dedup: Dedup): World {
    match step
    case Act(e) => w.(rows := Apply(w.rows, e.key, e.op))
    case Deliver(d) => SettleStep(w, d, me, dedup)
  }

  function RunSteps(w: World, steps: seq<Step>, me: string, dedup: Dedup): World {
    if steps == [] then w
    else Perform(RunSteps(w, steps[..|steps| - 1], me, dedup), steps[|steps| - 1], me, dedup)
  }

  /** A delivery that pays under an id. */
  predicate PaysUnder(step: Step, me: string, id: string) {
    step.Deliver? && Pays(step.delivery, me).Some? && Pays(step.delivery, me).value.id == id
  }

  function PayTimes(steps: seq<Step>, me: string, id: string): set<Clock> {
    set i | 0 <= i < |steps| && PaysUnder(steps[i], me, id) :: steps[i].delivery.now
  }

  ghost predicate BookedAt(journal: seq<Entry>, id: string, times: set<Clock>) {
    Times(journal, id) == times && Count(journal, id) == |times|
  }

  lemma BookKeepsTimes(journal: seq<Entry>, e: Entry, id: string, times: set<Clock>)
    requires BookedAt(journal, id, times)
    ensures BookedAt(Book(journal, e, OnIdAndTime), id, if e.id == id then times + {e.at} else times)
  {
    BookAppends(journal, e, id);
    DuplicateIff(journal, e);
    if e.id == id && e.at in times {
      assert times + {e.at} == times;
    }
  }

  /** A step's journal: a delivery that pays books its entry, and nothing else books. */
  lemma StepJournal(w: World, step: Step, me: string, dedup: Dedup)
    ensures Perform(w, step, me, dedup).journal
            == if step.Deliver? && Pays(step.delivery, me).Some?
               then var p := Pays(step.delivery, me).value;
                    Book(w.journal, Entry(p.id, step.delivery.now, p.legs), dedup)
               else w.journal
  {
  }

  lemma StepBooks(w: World, step: Step, me: string, id: string, times: set<Clock>)
    requires BookedAt(w.journal, id, times)
    ensures BookedAt(Perform(w, step, me, OnIdAndTime).journal, id,
                     times + (if PaysUnder(step, me, id) then {step.delivery.now} else {}))
  {
    StepJournal(w, step, me, OnIdAndTime);
    assert times + {} == times;
    if step.Deliver? && Pays(step.delivery, me).Some? {
      var p := Pays(step.delivery, me).value;
      BookKeepsTimes(w.journal, Entry(p.id, step.delivery.now, p.legs), id, times);
    }
  }

  lemma PayTimesLast(steps: seq<Step>, me: string, id: string)
    requires steps != []
    ensures var last := steps[|steps| - 1];
            PayTimes(steps, me, id)
            == PayTimes(steps[..|steps| - 1], me, id) + (if PaysUnder(last, me, id) then {last.delivery.now} else {})
  {
    var n := |steps| - 1;
    var front := steps[..n];
    var last := steps[n];
    var sum := PayTimes(front, me, id) + (if PaysUnder(last, me, id) then {last.delivery.now} else {});
    forall at ensures at in PayTimes(steps, me, id) <==> at in sum {
      if at in PayTimes(steps, me, id) {
        var i :| 0 <= i < |steps| && PaysUnder(steps[i], me, id) && steps[i].delivery.now == at;
        assert i < n ==> front[i] == steps[i];
      }
      if at in PayTimes(front, me, id) {
        var i :| 0 <= i < n && PaysUnder(front[i], me, id) && front[i].delivery.now == at;
        assert steps[i] == front[i];
      }
    }
  }

  /** As accounting dedups, the entries booked under an id are exactly the distinct clock readings of the
      deliveries that paid under it: once if and only if those all read one time. */
  lemma {:induction false} BookedPerReading(w: World, steps: seq<Step>, me: string, id: string)
    requires Count(w.journal, id) == 0
    ensures BookedAt(RunSteps(w, steps, me, OnIdAndTime).journal, id, PayTimes(steps, me, id))
    decreases |steps|
  {
    if steps == [] {
      CountIff(w.journal, id);
    } else {
      var n := |steps| - 1;
      BookedPerReading(w, steps[..n], me, id);
      StepBooks(RunSteps(w, steps[..n], me, OnIdAndTime), steps[n], me, id, PayTimes(steps[..n], me, id));
      PayTimesLast(steps, me, id);
    }
  }

  /** Were the id alone the key, any deliveries at all, stale or cut short, book one entry if one pays. */
  lemma {:induction false} BookedOnceById(w: World, steps: seq<Step>, me: string, id: string)
    requires Count(w.journal, id) == 0
    ensures Count(RunSteps(w, steps, me, OnId).journal, id) == if PayTimes(steps, me, id) == {} then 0 else 1
    decreases |steps|
  {
    if steps != [] {
      var n := |steps| - 1;
      var before := RunSteps(w, steps[..n], me, OnId);
      BookedOnceById(w, steps[..n], me, id);
      PayTimesLast(steps, me, id);
      StepBooksById(before, steps[n], me, id);
      if PaysUnder(steps[n], me, id) {
        assert steps[n].delivery.now in PayTimes(steps, me, id);
      }
    }
  }

  lemma StepBooksById(w: World, step: Step, me: string, id: string)
    ensures Count(Perform(w, step, me, OnId).journal, id)
            == if PaysUnder(step, me, id) && Count(w.journal, id) == 0 then 1 else Count(w.journal, id)
  {
    if step.Deliver? && Pays(step.delivery, me).Some? {
      var p := Pays(step.delivery, me).value;
      var e := Entry(p.id, step.delivery.now, p.legs);
      BookAppends(w.journal, e, id);
      DuplicateIff(w.journal, e);
    }
  }

  /** A delivery repeated as it was, but at another time, books the same money twice. */
  lemma StaleImageBooksTwice(w: World, d: Delivery, later: Clock, me: string)
    requires Pays(d, me).Some? && Count(w.journal, Pays(d, me).value.id) == 0 && later != d.now
    ensures var id := Pays(d, me).value.id;
            Count(RunSteps(w, [Deliver(d), Deliver(d.(now := later))], me, OnIdAndTime).journal, id) == 2
  {
    var id := Pays(d, me).value.id;
    var steps := [Deliver(d), Deliver(d.(now := later))];
    BookedPerReading(w, steps, me, id);
    assert PaysUnder(steps[0], me, id) && PaysUnder(steps[1], me, id);
    assert PayTimes(steps, me, id) == {d.now, later};
  }

  // ----- deliveries of the current row -----

  /** The delivery carries the row as it stands, and its receipt is not lost. */
  ghost predicate Current(w: World, step: Step) {
    step.Deliver? ==> step.delivery.image == RowAt(w.rows, step.delivery.key) && !step.delivery.outcome.NoteLost?
  }

  ghost predicate AllCurrent(w: World, steps: seq<Step>, me: string, dedup: Dedup) {
    forall i :: 0 <= i < |steps| ==> Current(RunSteps(w, steps[..i], me, dedup), steps[i])
  }

  /** The receipt is written by the money step alone. */
  predicate LeavesReceipt(step: Step) {
    step.Act? ==>
      match step.event.op
      case Touch(_, _, _, _, extra, _) => FundsReceipt !in extra
      case Note(fields) => FundsReceipt !in fields
      case _ => true
  }

  /** The deliveries that pay under the id are those of the one row. */
  predicate OfRow(step: Step, me: string, id: string, key: Key) {
    step.Deliver? && Pays(step.delivery, me).Some? ==> (PaysUnder(step, me, id) <==> step.delivery.key == key)
  }

  /** Not paid and nothing booked, or paid and one entry booked, of the total the row pins. */
  ghost predicate PaidOnce(w: World, side: Side, key: Key) {
    var id := EntryId(side, key.thread);
    var row := RowAt(w.rows, key);
    if FundsReceipt in row then PaidRow(row, id) && Count(w.journal, id) == 1
                                && Cash(w.journal, id) == CashOf(side, TotalOf(row).value)
    else Count(w.journal, id) == 0 && Cash(w.journal, id) == 0.0
  }

  predicate PaidRow(row: Row, id: string) {
    FundsReceipt in row && row[FundsReceipt] == Text(id) && TotalOf(row).Some?
  }

  /** An operation that leaves the receipt alone neither pays a row nor unpays it. */
  lemma ReceiptStays(rows: Rows, at: Key, op: Op, key: Key)
    requires FundsReceipt !in Offered(op, at in rows)
    ensures var before, after := RowAt(rows, key), RowAt(Apply(rows, at, op), key);
            (FundsReceipt in before <==> FundsReceipt in after)
            && (FundsReceipt in before ==> before[FundsReceipt] == after[FundsReceipt])
            && (TotalOf(before).Some? ==> TotalOf(after) == TotalOf(before))
  {
  }

  lemma FinishStays(rows: Rows, d: Delivery, me: string, key: Key)
    ensures var before, after := RowAt(rows, key), RowAt(Finish(rows, d, me), key);
            (FundsReceipt in before <==> FundsReceipt in after)
            && (FundsReceipt in before ==> before[FundsReceipt] == after[FundsReceipt])
            && (TotalOf(before).Some? ==> TotalOf(after) == TotalOf(before))
  {
    ReceiptStays(rows, d.key, MarkSettled(d.settled), key);
  }

  /** A payment's cash is that of its side and its row's total. */
  lemma PaymentSpec(thread: string, image: Row, me: string, side: Side)
    requires PaymentFor(thread, image, me).Some? && PaymentFor(thread, image, me).value.id == EntryId(side, thread)
    ensures !Funded(image) && SideOf(image, me) == Some(side) && TotalOf(image).Some?
    ensures Rules.Net(PaymentFor(thread, image, me).value.legs, "CASH") == CashOf(side, TotalOf(image).value)
  {
    var s := SideOf(image, me).value;
    EntryIdIff(s, thread, side, thread);
    LegsSpec(side, TotalOf(image).value);
  }

  /** A delivery of the current row that pays. */
  lemma PayingStep(w: World, d: Delivery, me: string, dedup: Dedup, side: Side, key: Key)
    requires PaidOnce(w, side, key) && d.image == RowAt(w.rows, key) && d.key == key && d.outcome.Landed?
    requires Pays(d, me).Some? && Pays(d, me).value.id == EntryId(side, key.thread)
    ensures PaidOnce(SettleStep(w, d, me, dedup), side, key)
  {
    var p := Pays(d, me).value;
    PaymentSpec(key.thread, d.image, me, side);
    var e := Entry(p.id, d.now, p.legs);
    BookAppends(w.journal, e, p.id);
    DuplicateIff(w.journal, e);
    CountIff(w.journal, p.id);
    assert FundsReceipt !in d.image;
    assert Book(w.journal, e, dedup) == w.journal + [e];
    var paid := Apply(w.rows, key, Receipt(p));
    ReceiptLands(w.rows, key, p);
    FinishStays(paid, d, me, key);
  }

  lemma ReceiptLands(rows: Rows, key: Key, p: Payment)
    requires FundsReceipt !in RowAt(rows, key)
    ensures var before, after := RowAt(rows, key), RowAt(Apply(rows, key, Receipt(p)), key);
            FundsReceipt in after && after[FundsReceipt] == Text(p.id) && TotalOf(after) == TotalOf(before)
  {
    assert FundsReceipt in map[FundsReceipt := Text(p.id)];
  }

  lemma OtherRow(w: World, d: Delivery, me: string, dedup: Dedup, key: Key)
    requires d.key != key
    ensures RowAt(SettleStep(w, d, me, dedup).rows, key) == RowAt(w.rows, key)
  {
  }

  /** A delivery that pays another row. */
  lemma OtherStep(w: World, d: Delivery, me: string, dedup: Dedup, side: Side, key: Key)
    requires PaidOnce(w, side, key) && d.key != key
    requires Pays(d, me).Some? ==> Pays(d, me).value.id != EntryId(side, key.thread)
    ensures PaidOnce(SettleStep(w, d, me, dedup), side, key)
  {
    StepJournal(w, Deliver(d), me, dedup);
    OtherRow(w, d, me, dedup, key);
    if Pays(d, me).Some? {
      var p := Pays(d, me).value;
      BookAppends(w.journal, Entry(p.id, d.now, p.legs), EntryId(side, key.thread));
    }
  }

  /** A delivery that pays nothing. */
  lemma IdleStep(w: World, d: Delivery, me: string, dedup: Dedup, side: Side, key: Key)
    requires PaidOnce(w, side, key) && Pays(d, me).None?
    ensures PaidOnce(SettleStep(w, d, me, dedup), side, key)
  {
    StepJournal(w, Deliver(d), me, dedup);
    FinishStays(w.rows, d, me, key);
  }

  lemma StepPaidOnce(w: World, step: Step, me: string, dedup: Dedup, side: Side, key: Key)
    requires PaidOnce(w, side, key) && Current(w, step) && LeavesReceipt(step)
    requires OfRow(step, me, EntryId(side, key.thread), key)
    ensures PaidOnce(Perform(w, step, me, dedup), side, key)
  {
    match step
    case Act(e) =>
      ReceiptStays(w.rows, e.key, e.op, key);
    case Deliver(d) =>
      if Pays(d, me).None? {
        IdleStep(w, d, me, dedup, side, key);
      } else if d.key == key {
        PayingStep(w, d, me, dedup, side, key);
      } else {
        OtherStep(w, d, me, dedup, side, key);
      }
  }

  /** However the touches, notes and deliveries of a firm interleave, while each delivery carries the row
      as it stands an agreement is paid at most once, whichever way accounting dedups: one entry of the
      row's own total if its receipt is on it, none if not. */
  lemma {:induction false} PaidAtMostOnce(w: World, steps: seq<Step>, me: string, dedup: Dedup, side: Side, key: Key)
    requires PaidOnce(w, side, key) && AllCurrent(w, steps, me, dedup)
    requires forall i :: 0 <= i < |steps| ==>
               LeavesReceipt(steps[i]) && OfRow(steps[i], me, EntryId(side, key.thread), key)
    ensures PaidOnce(RunSteps(w, steps, me, dedup), side, key)
    decreases |steps|
  {
    if steps != [] {
      var n := |steps| - 1;
      assert forall i :: 0 <= i < n ==> steps[..n][..i] == steps[..i];
      PaidAtMostOnce(w, steps[..n], me, dedup, side, key);
      StepPaidOnce(RunSteps(w, steps[..n], me, dedup), steps[n], me, dedup, side, key);
    }
  }

  // ----- every row of a thread -----

  function ReceiptOf(row: Row): Option<Value> {
    if FundsReceipt in row then Some(row[FundsReceipt]) else None
  }

  /** The rows whose receipt names the entry. */
  function PaidRows(rows: Rows, id: string): set<Key> {
    set k | k in rows && ReceiptOf(rows[k]) == Some(Text(id))
  }

  /** No receipt is empty. */
  ghost predicate AllNamed(rows: Rows) {
    forall k :: k in rows && FundsReceipt in rows[k] ==> Funded(rows[k])
  }

  /** Every entry booked under the id has a row of its own that it paid, and none such is unbooked. */
  ghost predicate Backed(w: World, id: string, dedup: Dedup) {
    && AllNamed(w.rows)
    && Count(w.journal, id) <= |PaidRows(w.rows, id)|
    && (Count(w.journal, id) == 0 <==> PaidRows(w.rows, id) == {})
    && (dedup.OnId? ==> Count(w.journal, id) <= 1)
  }

  ghost predicate SameReceipts(before: Rows, after: Rows) {
    forall k :: ReceiptOf(RowAt(after, k)) == ReceiptOf(RowAt(before, k))
  }

  lemma SameReceiptsSameRows(before: Rows, after: Rows, id: string)
    requires SameReceipts(before, after)
    ensures PaidRows(after, id) == PaidRows(before, id)
    ensures AllNamed(before) ==> AllNamed(after)
  {
    forall k ensures k in PaidRows(after, id) <==> k in PaidRows(before, id) {
      assert ReceiptOf(RowAt(after, k)) == ReceiptOf(RowAt(before, k));
    }
    forall k | AllNamed(before) && k in after && FundsReceipt in after[k] ensures Funded(after[k]) {
      assert ReceiptOf(RowAt(after, k)) == ReceiptOf(RowAt(before, k));
    }
  }

  lemma OpKeepsReceipts(rows: Rows, at: Key, op: Op)
    requires FundsReceipt !in Offered(op, at in rows)
    ensures SameReceipts(rows, Apply(rows, at, op))
  {
    forall k ensures ReceiptOf(RowAt(Apply(rows, at, op), k)) == ReceiptOf(RowAt(rows, k)) {
      ReceiptStays(rows, at, op, k);
    }
  }

  lemma FinishKeepsReceipts(rows: Rows, d: Delivery, me: string)
    ensures SameReceipts(rows, Finish(rows, d, me))
  {
    OpKeepsReceipts(rows, d.key, MarkSettled(d.settled));
  }

  /** The receipt of a payment adds its row to those paid under its id. */
  lemma ReceiptAdds(rows: Rows, key: Key, p: Payment, id: string)
    requires AllNamed(rows) && FundsReceipt !in RowAt(rows, key) && p.id != ""
    ensures var after := Apply(rows, key, Receipt(p));
            AllNamed(after) && key !in PaidRows(rows, id)
            && PaidRows(after, id) == PaidRows(rows, id) + (if p.id == id then {key} else {})
  {
    var after := Apply(rows, key, Receipt(p));
    ReceiptLands(rows, key, p);
    assert forall k :: k != key ==> RowAt(after, k) == RowAt(rows, k);
    assert key in after && after[key] == RowAt(after, key);
  }

  lemma EntryIdNamed(side: Side, thread: string)
    ensures EntryId(side, thread) != ""
  {
  }

  lemma PaymentNamed(thread: string, image: Row, me: string)
    requires PaymentFor(thread, image, me).Some?
    ensures PaymentFor(thread, image, me).value.id != "" && !Funded(image)
  {
    EntryIdNamed(SideOf(image, me).value, thread);
  }

  lemma BookCounts(journal: seq<Entry>, e: Entry, dedup: Dedup, id: string)
    ensures e.id != id ==> Count(Book(journal, e, dedup), id) == Count(journal, id)
    ensures e.id == id ==> 0 < Count(Book(journal, e, dedup), id) <= Count(journal, id) + 1
    ensures e.id == id && dedup.OnId? && Count(journal, id) <= 1 ==> Count(Book(journal, e, dedup), id) == 1
  {
    BookAppends(journal, e, id);
    DuplicateIff(journal, e);
    CountIff(journal, id);
  }

  lemma PayingBacked(w: World, d: Delivery, me: string, dedup: Dedup, id: string)
    requires Backed(w, id, dedup) && d.image == RowAt(w.rows, d.key) && d.outcome.Landed? && Pays(d, me).Some?
    ensures Backed(SettleStep(w, d, me, dedup), id, dedup)
  {
    var p := Pays(d, me).value;
    PaymentNamed(d.key.thread, d.image, me);
    BookCounts(w.journal, Entry(p.id, d.now, p.legs), dedup, id);
    ReceiptAdds(w.rows, d.key, p, id);
    var paid := Apply(w.rows, d.key, Receipt(p));
    FinishKeepsReceipts(paid, d, me);
    SameReceiptsSameRows(paid, Finish(paid, d, me), id);
  }

  lemma StepBacked(w: World, step: Step, me: string, dedup: Dedup, id: string)
    requires Backed(w, id, dedup) && Current(w, step) && LeavesReceipt(step)
    ensures Backed(Perform(w, step, me, dedup), id, dedup)
  {
    match step
    case Act(e) =>
      OpKeepsReceipts(w.rows, e.key, e.op);
      SameReceiptsSameRows(w.rows, Apply(w.rows, e.key, e.op), id);
    case Deliver(d) =>
      if Pays(d, me).Some? {
        PayingBacked(w, d, me, dedup, id);
      } else {
        FinishKeepsReceipts(w.rows, d, me);
        SameReceiptsSameRows(w.rows, Finish(w.rows, d, me), id);
      }
  }

  /** Whatever rows share the thread: while each delivery carries its row as it stands and no receipt is lost, the
      entries booked under an id are at most as many as the rows whose receipt names it, and none exactly when no
      row's does. */
  lemma {:induction false} EntriesAreBacked(w: World, steps: seq<Step>, me: string, dedup: Dedup, id: string)
    requires Backed(w, id, dedup) && AllCurrent(w, steps, me, dedup)
    requires forall i :: 0 <= i < |steps| ==> LeavesReceipt(steps[i])
    ensures Backed(RunSteps(w, steps, me, dedup), id, dedup)
    decreases |steps|
  {
    if steps != [] {
      var n := |steps| - 1;
      assert forall i :: 0 <= i < n ==> steps[..n][..i] == steps[..i];
      EntriesAreBacked(w, steps[..n], me, dedup, id);
      StepBacked(RunSteps(w, steps[..n], me, dedup), steps[n], me, dedup, id);
    }
  }

  // ----- the two firms of a deal -----

  /** The row, if it is there at all, is that of the deal. */
  ghost predicate OnDeal(rows: Rows, key: Key, buyer: string, seller: string, terms: Terms) {
    exists byBuyer, bySeller :: DealRow(RowAt(rows, key), buyer, seller, terms, byBuyer, bySeller)
  }

  lemma ApplyOnDeal(rows: Rows, at: Key, op: Op, key: Key, buyer: string, seller: string, terms: Terms)
    requires OnDeal(rows, key, buyer, seller, terms)
    requires at == key ==> KeepsOff(op) && Carries(op, buyer, seller, terms)
    ensures OnDeal(Apply(rows, at, op), key, buyer, seller, terms)
  {
    var b, s :| DealRow(RowAt(rows, key), buyer, seller, terms, b, s);
    if at == key {
      DealStep(RowAt(rows, key), op, key in rows, buyer, seller, terms, b, s);
      assert RowAt(Apply(rows, at, op), key) == IfNotExists(RowAt(rows, key), Offered(op, key in rows));
    } else {
      assert DealRow(RowAt(Apply(rows, at, op), key), buyer, seller, terms, b, s);
    }
  }

  predicate ActsOnDeal(step: Step, key: Key, buyer: string, seller: string, terms: Terms) {
    step.Act? && step.event.key == key ==> KeepsOff(step.event.op) && Carries(step.event.op, buyer, seller, terms)
  }

  lemma StepOnDeal(w: World, step: Step, me: string, dedup: Dedup, key: Key, buyer: string, seller: string,
                   terms: Terms)
    requires OnDeal(w.rows, key, buyer, seller, terms) && ActsOnDeal(step, key, buyer, seller, terms)
    ensures OnDeal(Perform(w, step, me, dedup).rows, key, buyer, seller, terms)
  {
    match step
    case Act(e) => ApplyOnDeal(w.rows, e.key, e.op, key, buyer, seller, terms);
    case Deliver(d) =>
      ApplyOnDeal(w.rows, d.key, MarkSettled(d.settled), key, buyer, seller, terms);
      if Pays(d, me).Some? {
        var p := Pays(d, me).value;
        ApplyOnDeal(w.rows, d.key, Receipt(p), key, buyer, seller, terms);
        ApplyOnDeal(Apply(w.rows, d.key, Receipt(p)), d.key, MarkSettled(d.settled), key, buyer, seller, terms);
      }
  }

  /** A run at the firm on one side of a deal, from an empty table and journal: acts on the row carry the
      deal and leave its receipt alone, deliveries are current, and no other row pays under its id. */
  ghost predicate DealRun(steps: seq<Step>, side: Side, dedup: Dedup, key: Key, buyer: string, seller: string,
                          terms: Terms) {
    var me := if side.Buyer? then buyer else seller;
    && AllCurrent(World(map[], []), steps, me, dedup)
    && forall i :: 0 <= i < |steps| ==>
         && LeavesReceipt(steps[i]) && ActsOnDeal(steps[i], key, buyer, seller, terms)
         && (PaysUnder(steps[i], me, EntryId(side, key.thread)) ==> steps[i].delivery.key == key)
  }

  ghost predicate DealWorld(w: World, side: Side, key: Key, buyer: string, seller: string, terms: Terms) {
    OnDeal(w.rows, key, buyer, seller, terms) && PaidOnce(w, side, key)
  }

  /** A paying delivery of a deal's row pays for this firm's side. */
  lemma PaysItsSide(rows: Rows, d: Delivery, side: Side, key: Key, buyer: string, seller: string, terms: Terms)
    requires OnDeal(rows, key, buyer, seller, terms) && buyer != seller
    requires d.key == key && d.image == RowAt(rows, key)
    requires Pays(d, if side.Buyer? then buyer else seller).Some?
    ensures Pays(d, if side.Buyer? then buyer else seller).value.id == EntryId(side, key.thread)
  {
  }

  lemma {:induction false} DealRunSpec(steps: seq<Step>, side: Side, dedup: Dedup, key: Key, buyer: string,
                                       seller: string, terms: Terms)
    requires buyer != seller && DealRun(steps, side, dedup, key, buyer, seller, terms)
    ensures var me := if side.Buyer? then buyer else seller;
            DealWorld(RunSteps(World(map[], []), steps, me, dedup), side, key, buyer, seller, terms)
    decreases |steps|
  {
    var me := if side.Buyer? then buyer else seller;
    var w := World(map[], []);
    if steps == [] {
      assert DealRow(RowAt(w.rows, key), buyer, seller, terms, false, false);
    } else {
      var n := |steps| - 1;
      assert forall i :: 0 <= i < n ==> steps[..n][..i] == steps[..i];
      DealRunSpec(steps[..n], side, dedup, key, buyer, seller, terms);
      var before := RunSteps(w, steps[..n], me, dedup);
      StepOnDeal(before, steps[n], me, dedup, key, buyer, seller, terms);
      if steps[n].Deliver? && Pays(steps[n].delivery, me).Some? && steps[n].delivery.key == key {
        PaysItsSide(before.rows, steps[n].delivery, side, key, buyer, seller, terms);
      }
      StepPaidOnce(before, steps[n], me, dedup, side, key);
    }
  }

  /** What a firm on one side of a deal has to show for it. */
  lemma DealPaid(w: World, side: Side, key: Key, buyer: string, seller: string, terms: Terms)
    requires DealWorld(w, side, key, buyer, seller, terms)
    ensures var id := EntryId(side, key.thread);
            if FundsReceipt in RowAt(w.rows, key)
            then Count(w.journal, id) == 1 && TotalValue(terms).Some?
              && Cash(w.journal, id) == CashOf(side, TotalValue(terms).value)
            else Count(w.journal, id) == 0 && Cash(w.journal, id) == 0.0
  {
  }

  /** Each firm has booked one entry if its row has a receipt and none if not; the cash is the total, and
      what left one firm came into the other. */
  ghost predicate Conserved(buyer: World, seller: World, key: Key, total: Option<real>) {
    var outId, inId := EntryId(Buyer, key.thread), EntryId(Seller, key.thread);
    var paid, received := FundsReceipt in RowAt(buyer.rows, key), FundsReceipt in RowAt(seller.rows, key);
    && Count(buyer.journal, outId) == (if paid then 1 else 0)
    && Count(seller.journal, inId) == (if received then 1 else 0)
    && (paid ==> total == Some(-Cash(buyer.journal, outId)))
    && (received ==> total == Some(Cash(seller.journal, inId)))
    && (paid && received ==> Cash(buyer.journal, outId) + Cash(seller.journal, inId) == 0.0)
  }

  /** One current delivery of an agreed, priced deal that lands is enough for this firm to have paid. */
  lemma AgreedIsPaid(w: World, d: Delivery, side: Side, dedup: Dedup, key: Key, buyer: string, seller: string,
                     terms: Terms)
    requires DealWorld(w, side, key, buyer, seller, terms) && buyer != seller
    requires d.key == key && Current(w, Deliver(d)) && d.outcome.Landed? && Due(d)
    requires d.config.value.money == Some(CAPITAL) && TotalValue(terms).Some? && TotalValue(terms).value > 0.0
    ensures FundsReceipt in RowAt(SettleStep(w, d, if side.Buyer? then buyer else seller, dedup).rows, key)
  {
    var me := if side.Buyer? then buyer else seller;
    if FundsReceipt in d.image {
      FinishStays(w.rows, d, me, key);
      assert !Funded(d.image) ==> EntryId(side, key.thread) == "";
    } else {
      assert SideOf(d.image, me) == Some(side);
      assert TotalOf(d.image) == TotalValue(terms);
      assert Pays(d, me).Some?;
      PaysItsSide(w.rows, d, side, key, buyer, seller, terms);
      PayingStep(w, d, me, dedup, side, key);
      ReceiptLands(w.rows, key, Pays(d, me).value);
      FinishStays(Apply(w.rows, key, Receipt(Pays(d, me).value)), d, me, key);
    }
  }

  lemma BothPaid(wb: World, ws: World, key: Key, buyer: string, seller: string, terms: Terms)
    requires DealWorld(wb, Buyer, key, buyer, seller, terms) && DealWorld(ws, Seller, key, buyer, seller, terms)
    ensures Conserved(wb, ws, key, TotalValue(terms))
  {
    DealPaid(wb, Buyer, key, buyer, seller, terms);
    DealPaid(ws, Seller, key, buyer, seller, terms);
  }

  /** Two firms that each touch and settle one deal in their own tables, in any order and any number of
      times: each has moved nothing or the deal's total, in one entry, and once both have paid, what
      left the buyer's cash is what came into the seller's. */
  lemma CashConserved(b: seq<Step>, s: seq<Step>, dedup: Dedup, key: Key, buyer: string, seller: string, terms: Terms)
    requires buyer != seller
    requires DealRun(b, Buyer, dedup, key, buyer, seller, terms) && DealRun(s, Seller, dedup, key, buyer, seller, terms)
    ensures var wb := RunSteps(World(map[], []), b, buyer, dedup);
            var ws := RunSteps(World(map[], []), s, seller, dedup);
            Conserved(wb, ws, key, TotalValue(terms))
  {
    DealRunSpec(b, Buyer, dedup, key, buyer, seller, terms);
    DealRunSpec(s, Seller, dedup, key, buyer, seller, terms);
    BothPaid(RunSteps(World(map[], []), b, buyer, dedup), RunSteps(World(map[], []), s, seller, dedup), key, buyer,
             seller, terms);
  }

  /** A firm on both sides of a row books the buyer's leg alone: its cash falls and nothing comes back. */
  lemma LoopbackPaysOut(thread: string, image: Row, me: string)
    requires Names(image, BuyerName, me) && Names(image, SellerName, me) && PaymentFor(thread, image, me).Some?
    ensures TotalOf(image).Some? && TotalOf(image).value > 0.0
    ensures var p := PaymentFor(thread, image, me).value;
            p.id == EntryId(Buyer, thread) && Rules.Net(p.legs, "CASH") == -TotalOf(image).value
  {
    LegsSpec(Buyer, TotalOf(image).value);
  }

  /** A row this firm declined, or settled, books nothing when delivered as it stands. */
  lemma DeclinedNeverPays(w: World, d: Delivery, me: string, dedup: Dedup)
    requires Current(w, Deliver(d))
    requires Truthy(RowAt(w.rows, d.key), DeclinedTime) || Truthy(RowAt(w.rows, d.key), SettledTime)
    ensures SettleStep(w, d, me, dedup) == w
  {
  }
}
