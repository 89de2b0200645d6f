/** One invoice's history, modules/invoicing/lambdas/manage_invoice/transition_item.py: the rows of all its items
    and of the invoice itself in one append-only stream, and what each item's share of it posts. */
module Histories {
  import opened Common
  import opened Postings
  import Rules
  import opened Transitions

  /** The lines that may move, each under its own id, and the rules the firm wrote. */
  datatype Invoice = Invoice(status: string, lines: map<string, Item>, firm: Firm)

  /** No line's id is empty or the one reserved for the invoice itself. */
  predicate WellNamed(inv: Invoice) {
    forall id :: id in inv.lines ==> OfItem(id)
  }

  /** A row with the state it left and the legs posted with it. */
  datatype Entry = Entry(row: Row, from: string, legs: seq<Rules.Leg>)

  /** An empty item id asks for the invoice itself; an empty transition id asks for a fresh one. */
  datatype Call = Call(itemId: string, state: string, transitionId: string, freshId: string)

  datatype Reply = Moved(id: string) | Duplicate | NoState | NotFound | Already | NotBillable

  function RowsOf(h: seq<Entry>): seq<Row> {
    if h == [] then [] else RowsOf(h[..|h| - 1]) + [h[|h| - 1].row]
  }

  function StateOf(inv: Invoice, h: seq<Entry>, id: string): string {
    var latest := Folded(RowsOf(h));
    if id in latest then latest[id].state else inv.status
  }

  predicate Retried(h: seq<Entry>, call: Call) {
    call.transitionId != "" && exists r :: r in RowsOf(h) && r.transitionId == call.transitionId
  }

  function IdFor(call: Call): string {
    if call.transitionId != "" then call.transitionId else call.freshId
  }

  /** What the handler answers. */
  function Answer(inv: Invoice, h: seq<Entry>, call: Call): Reply {
    if call.state == "" then NoState
    else if call.itemId != "" && call.itemId !in inv.lines then NotFound
    else if Retried(h, call) then Duplicate
    else
      var key := if call.itemId == "" then INVOICE_LEVEL else call.itemId;
      var from := StateOf(inv, h, key);
      if from == call.state then Already
      else if call.itemId != ""
        && !Billable(inv.lines[call.itemId], Posted(inv.firm, inv.lines[call.itemId], from, call.state))
      then NotBillable
      else Moved(IdFor(call))
  }

  predicate Billable(item: Item, legs: seq<Rules.Leg>) {
    legs == [] || (item.account != "" && item.amount > 0.0)
  }

  /** The entry of a call that moves something. */
  function EntryFor(inv: Invoice, h: seq<Entry>, call: Call): Entry {
    var key := if call.itemId == "" then INVOICE_LEVEL else call.itemId;
    var from := StateOf(inv, h, key);
    Entry(Row(key, call.state, IdFor(call)), from,
          if call.itemId in inv.lines then Posted(inv.firm, inv.lines[call.itemId], from, call.state) else [])
  }

  function After(inv: Invoice, h: seq<Entry>, call: Call): seq<Entry> {
    if Answer(inv, h, call).Moved? then h + [EntryFor(inv, h, call)] else h
  }

  class History {
    const invoice: Invoice
    var entries: seq<Entry>

    constructor (invoice: Invoice)
      ensures this.invoice == invoice && entries == []
    {
      this.invoice := invoice;
      entries := [];
    }

    method TransitionItem(call: Call) returns (reply: Reply)
      requires WellNamed(invoice)
      modifies this
      ensures reply == Answer(invoice, old(entries), call)
      ensures entries == After(invoice, old(entries), call)
    {
      if call.state == "" {
        return NoState;
      }
      var key := call.itemId;
      if call.itemId == "" {
        key := INVOICE_LEVEL;
      } else if call.itemId !in invoice.lines {
        return NotFound;
      }
      if call.transitionId != "" && exists r :: r in RowsOf(entries) && r.transitionId == call.transitionId {
        return Duplicate;
      }
      var latest := FoldItems(RowsOf(entries));
      var from := if key in latest then latest[key].state else invoice.status;
      if from == call.state {
        return Already;
      }
      var legs: seq<Rules.Leg> := [];
      if call.itemId != "" {
        var item := invoice.lines[call.itemId];
        legs := RunRules(MoneyInstances(invoice.firm, item.accountType, call.state), item, from);
        if legs != [] && (item.account == "" || item.amount <= 0.0) {
          return NotBillable;
        }
      }
      var id := if call.transitionId != "" then call.transitionId else call.freshId;
      entries := entries + [Entry(Row(key, call.state, id), from, legs)];
      return Moved(id);
    }
  }

  // ----- each item's own stream -----

  /** One item's share of a history. */
  function StreamOf(inv: Invoice, h: seq<Entry>, id: string): Stream {
    if h == [] then Stream(inv.status, [], []) else
      var s, last := StreamOf(inv, h[..|h| - 1], id), h[|h| - 1];
      if last.row.itemId == id
      then Stream(s.first, s.moves + [Move(last.from, last.row.state)], s.entries + [last.legs])
      else s
  }

  lemma StreamAppends(inv: Invoice, h: seq<Entry>, e: Entry, id: string)
    ensures var s := StreamOf(inv, h, id);
            StreamOf(inv, h + [e], id) ==
              if e.row.itemId == id
              then Stream(s.first, s.moves + [Move(e.from, e.row.state)], s.entries + [e.legs])
              else s
  {
    Common.Cut(h, [e]);
  }

  /** The state the fold reports for an item is the one its stream has reached. */
  lemma {:induction false} StateIsCurrent(inv: Invoice, h: seq<Entry>, id: string)
    requires OfItem(id)
    ensures StateOf(inv, h, id) == Current(StreamOf(inv, h, id))
  {
    if h != [] {
      var last := |h| - 1;
      StateIsCurrent(inv, h[..last], id);
      Common.Cut(RowsOf(h[..last]), [h[last].row]);
    }
  }

  /** A call takes the step of its own item's stream, when it is no retry and that step is allowed, and leaves every
      other item's stream as it is. */
  lemma CallSteps(inv: Invoice, h: seq<Entry>, call: Call, id: string)
    requires WellNamed(inv) && id in inv.lines
    ensures var s := StreamOf(inv, h, id);
            var next := Next(inv.firm, inv.lines[id], s, call.state);
            StreamOf(inv, After(inv, h, call), id) ==
              if call.itemId == id && Counted(h, call) && next.Some? then next.value else s
  {
    StateIsCurrent(inv, h, id);
    StreamAppends(inv, h, EntryFor(inv, h, call), id);
  }

  predicate Counted(h: seq<Entry>, call: Call) {
    call.state != "" && !Retried(h, call)
  }

  // ----- runs -----

  function Run(inv: Invoice, calls: seq<Call>): seq<Entry> {
    if calls == [] then [] else After(inv, Run(inv, calls[..|calls| - 1]), calls[|calls| - 1])
  }

  /** The states asked of one item, retries left out. */
  function Asked(inv: Invoice, calls: seq<Call>, id: string): seq<string> {
    if calls == [] then [] else
      var rest, last := calls[..|calls| - 1], calls[|calls| - 1];
      Asked(inv, rest, id) + (if last.itemId == id && Counted(Run(inv, rest), last) then [last.state] else [])
  }

  /** However the calls on an invoice's items and on itself interleave and repeat, each item has walked through the
      states asked of it, as if it were alone: what is proved of a walk holds of every item of every history. */
  lemma {:induction false} ItemWalks(inv: Invoice, calls: seq<Call>, id: string)
    requires WellNamed(inv) && id in inv.lines
    ensures StreamOf(inv, Run(inv, calls), id) == Walk(inv.firm, inv.lines[id], inv.status, Asked(inv, calls, id))
    decreases |calls|
  {
    if calls != [] {
      var rest, last := calls[..|calls| - 1], calls[|calls| - 1];
      var h := Run(inv, rest);
      ItemWalks(inv, rest, id);
      CallSteps(inv, h, last, id);
      if last.itemId == id && Counted(h, last) {
        Common.Cut(Asked(inv, rest, id), [last.state]);
      } else {
        Nothing(Asked(inv, rest, id));
      }
    }
  }

  lemma {:induction false} HistoryGrows(inv: Invoice, calls: seq<Call>, more: seq<Call>)
    ensures Run(inv, calls) <= Run(inv, calls + more)
  {
    if more == [] {
      Nothing(calls);
    } else {
      var last := |more| - 1;
      HistoryGrows(inv, calls, more[..last]);
      Assoc(calls, more[..last], [more[last]]);
      assert more == more[..last] + [more[last]];
      Common.Cut(calls + more[..last], [more[last]]);
    }
  }

  lemma {:induction false} RowIsKept(h: seq<Entry>, i: nat)
    requires i < |h|
    ensures h[i].row in RowsOf(h)
  {
    if i < |h| - 1 {
      RowIsKept(h[..|h| - 1], i);
    }
  }

  /** A call that moved something under its own id, repeated after any later calls, changes nothing. */
  lemma RetryChangesNothing(inv: Invoice, calls: seq<Call>, call: Call, more: seq<Call>)
    requires call.transitionId != "" && Answer(inv, Run(inv, calls), call).Moved?
    ensures var h := Run(inv, calls + [call] + more);
            Answer(inv, h, call) == Duplicate && After(inv, h, call) == h
  {
    var before := Run(inv, calls);
    Common.Cut(calls, [call]);
    HistoryGrows(inv, calls + [call], more);
    var h := Run(inv, calls + [call] + more);
    assert h[|before|] == EntryFor(inv, before, call);
    RowIsKept(h, |before|);
  }

  /** An entry about the invoice itself is recorded unless it names the invoice's own status or is a retry; it posts
      nothing and moves no item. */
  lemma InvoiceLevelPostsNothing(inv: Invoice, h: seq<Entry>, call: Call)
    requires WellNamed(inv) && call.itemId == "" && Counted(h, call)
    ensures Answer(inv, h, call).Moved? <==> call.state != inv.status
    ensures EntryFor(inv, h, call).legs == []
    ensures forall id :: id in inv.lines ==> StreamOf(inv, After(inv, h, call), id) == StreamOf(inv, h, id)
  {
    FoldedIsLast(RowsOf(h), INVOICE_LEVEL);
    forall id | id in inv.lines ensures StreamOf(inv, After(inv, h, call), id) == StreamOf(inv, h, id) {
      StreamAppends(inv, h, EntryFor(inv, h, call), id);
    }
  }

  lemma RetriedSame(h: seq<Entry>, read: seq<Entry>, call: Call)
    requires multiset(RowsOf(read)) == multiset(RowsOf(h))
    ensures Retried(read, call) <==> Retried(h, call)
  {
    forall r ensures r in RowsOf(read) <==> r in RowsOf(h) {
      assert r in RowsOf(read) <==> r in multiset(RowsOf(read));
    }
  }

  /** The handler reads the rows item by item, and answers as if in order of arrival. */
  lemma ReadOrderFree(inv: Invoice, h: seq<Entry>, read: seq<Entry>, call: Call)
    requires multiset(RowsOf(read)) == multiset(RowsOf(h))
    requires forall id :: Of(RowsOf(read), id) == Of(RowsOf(h), id)
    ensures Answer(inv, read, call) == Answer(inv, h, call)
  {
    FoldedPerItem(RowsOf(read), RowsOf(h));
    RetriedSame(h, read, call);
    SameAnswer(inv, h, read, call);
  }

  lemma SameAnswer(inv: Invoice, h: seq<Entry>, read: seq<Entry>, call: Call)
    requires Folded(RowsOf(read)) == Folded(RowsOf(h)) && (Retried(read, call) <==> Retried(h, call))
    ensures Answer(inv, read, call) == Answer(inv, h, call)
  {
  }
}
