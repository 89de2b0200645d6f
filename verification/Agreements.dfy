/** The two-stamp agreement, modules/agreements/agreements.py: a (thread, terms hash) row that every
    touch writes field by field, first write wins. */
module Agreements {
  import opened Common
  import Strings

  // ----- terms and their fingerprint -----

  /** A total as its JSON text and its value: 100 and 100.0 are one amount in two texts. */
  datatype Amount = Amount(json: string, value: real)

  /** An item is its canonical JSON text; keys of the terms other than items and total are `other`. */
  datatype Terms = Terms(items: Option<seq<string>>, total: Option<Amount>, other: map<string, string>)

  const NO_TERMS := Terms(None, None, map[])

  function Items(terms: Terms): seq<string> {
    if terms.items.Some? then terms.items.value else []
  }

  function TotalText(terms: Terms): Option<string> {
    if terms.total.Some? then Some(terms.total.value.json) else None
  }

  function TotalValue(terms: Terms): Option<real> {
    if terms.total.Some? then Some(terms.total.value.value) else None
  }

  datatype Normal = Normal(items: seq<string>, total: Option<string>)

  /** terms_fingerprint() before the digest, which is taken to be injective. */
  function Fingerprint(terms: Terms): Normal {
    Normal(Strings.Sort(Items(terms)), TotalText(terms))
  }

  /** Two sides land on one fingerprint exactly when they name the same items, in any order and counted
      with repetition, and write the same total in the same way. */
  lemma FingerprintIff(a: Terms, b: Terms)
    ensures Fingerprint(a) == Fingerprint(b)
            <==> multiset(Items(a)) == multiset(Items(b)) && TotalText(a) == TotalText(b)
  {
    Strings.SortSpec(Items(a));
    Strings.SortSpec(Items(b));
    if multiset(Items(a)) == multiset(Items(b)) {
      Strings.SortedUnique(Strings.Sort(Items(a)), Strings.Sort(Items(b)));
    }
  }

  /** The same terms with the same amount land apart when one side writes it 100 and the other 100.0. */
  lemma NotationSplits(terms: Terms)
    ensures var whole, point := Amount("100", 100.0), Amount("100.0", 100.0);
            whole.value == point.value
            && Fingerprint(terms.(total := Some(whole))) != Fingerprint(terms.(total := Some(point)))
  {
    assert |"100"| != |"100.0"|;
  }

  // ----- rows and touches -----

  datatype Side = Buyer | Seller

  datatype Field = BuyerStamp | SellerStamp | BuyerName | SellerName | TermsOf | DeclinedBy | DeclinedTime
                 | SettledTime | FundsReceipt | Kind | Named(name: string)

  /** A clock reading in milliseconds, which is never zero. */
  type Clock = t: int | t > 0 witness 1

  datatype Value = Time(at: Clock) | Text(text: string) | Pinned(terms: Terms) | By(side: Side)

  type Row = map<Field, Value>

  datatype Hash = Digest(normal: Normal) | Fixed(name: string)

  datatype Key = Key(thread: string, hash: Hash)

  type Rows = map<Key, Row>

  function RowAt(rows: Rows, key: Key): Row {
    if key in rows then rows[key] else map[]
  }

  function StampOf(side: Side): Field {
    match side case Buyer => BuyerStamp case Seller => SellerStamp
  }

  datatype Op =
    | Touch(side: Side, buyer: string, seller: string, terms: Terms, extra: Row, now: Clock)
    | Note(fields: Row)
    | Decline(who: Side, at: Clock)
    | MarkSettled(settled: Clock)

  /** What an operation offers to write; a decline offers nothing when there is no row. */
  function Offered(op: Op, present: bool): Row {
    match op
    case Touch(side, buyer, seller, terms, extra, now) =>
      map[StampOf(side) := Time(now), BuyerName := Text(buyer), SellerName := Text(seller),
          TermsOf := Pinned(terms)] + extra
    case Note(fields) => fields
    case Decline(who, at) => if present then map[DeclinedBy := By(who), DeclinedTime := Time(at)] else map[]
    case MarkSettled(settled) => map[SettledTime := Time(settled)]
  }

  /** One update_item: every offered field through if_not_exists, in one atomic step. */
  function IfNotExists(row: Row, fields: Row): Row {
    fields + row
  }

  function Write(rows: Rows, key: Key, fields: Row): Rows {
    if fields == map[] then rows else rows[key := IfNotExists(RowAt(rows, key), fields)]
  }

  function Apply(rows: Rows, key: Key, op: Op): Rows {
    Write(rows, key, Offered(op, key in rows))
  }

  class AgreementsTable {
    var rows: Rows

    constructor ()
      ensures rows == map[]
    {
      rows := map[];
    }

    method Stamp(key: Key, side: Side, buyer: string, seller: string, terms: Terms, extra: Row, now: Clock)
      returns (row: Row)
      modifies this
      ensures rows == Apply(old(rows), key, Touch(side, buyer, seller, terms, extra, now))
      ensures row == RowAt(rows, key) && StampOf(side) in row
      ensures key in old(rows) && StampOf(side) in old(rows)[key] ==>
                row[StampOf(side)] == old(rows)[key][StampOf(side)]
    {
      var fields := map[StampOf(side) := Time(now), BuyerName := Text(buyer), SellerName := Text(seller),
                        TermsOf := Pinned(terms)] + extra;
      assert StampOf(side) in fields;
      row := IfNotExists(RowAt(rows, key), fields);
      rows := rows[key := row];
    }

    /** request(): terms land on their own fingerprint unless the caller names a hash. */
    method Request(thread: string, terms: Terms, side: Side, buyer: string, seller: string, hash: Option<Hash>,
                   extra: Row, now: Clock) returns (th: Hash, row: Row)
      modifies this
      ensures th == if hash.Some? then hash.value else Digest(Fingerprint(terms))
      ensures rows == Apply(old(rows), Key(thread, th), Touch(side, buyer, seller, terms, extra, now))
      ensures row == RowAt(rows, Key(thread, th))
    {
      th := if hash.Some? then hash.value else Digest(Fingerprint(terms));
      row := Stamp(Key(thread, th), side, buyer, seller, terms, extra, now);
    }

    /** accept(): terms may be left out. */
    method Accept(thread: string, hash: Hash, side: Side, buyer: string, seller: string, terms: Option<Terms>,
                  extra: Row, now: Clock) returns (row: Row)
      modifies this
      ensures rows == Apply(old(rows), Key(thread, hash),
                            Touch(side, buyer, seller, if terms.Some? then terms.value else NO_TERMS, extra, now))
      ensures row == RowAt(rows, Key(thread, hash))
    {
      row := Stamp(Key(thread, hash), side, buyer, seller, if terms.Some? then terms.value else NO_TERMS, extra, now);
    }

    method Annotate(key: Key, fields: Row) returns (row: Row)
      modifies this
      ensures rows == Apply(old(rows), key, Note(fields)) && row == RowAt(rows, key)
    {
      if fields == map[] {
        row := RowAt(rows, key);
        return;
      }
      row := IfNotExists(RowAt(rows, key), fields);
      rows := rows[key := row];
    }

    /** decline(): nothing happens when there is no row to decline. */
    method Refuse(key: Key, who: Side, at: Clock) returns (row: Row)
      modifies this
      ensures rows == Apply(old(rows), key, Decline(who, at)) && row == RowAt(rows, key)
      ensures key !in old(rows) ==> rows == old(rows) && row == map[]
      ensures key in old(rows) ==> DeclinedTime in row
    {
      if key !in rows {
        return map[];
      }
      var fields := map[DeclinedBy := By(who), DeclinedTime := Time(at)];
      assert DeclinedTime in fields;
      row := Annotate(key, fields);
    }

    method MarkAgreementSettled(key: Key, at: Clock)
      modifies this
      ensures rows == Apply(old(rows), key, MarkSettled(at)) && SettledTime in RowAt(rows, key)
    {
      var fields := map[SettledTime := Time(at)];
      assert SettledTime in fields;
      rows := rows[key := IfNotExists(RowAt(rows, key), fields)];
    }
  }

  // ----- runs -----

  datatype Event = Event(key: Key, op: Op)

  function Run(rows: Rows, events: seq<Event>): Rows {
    if events == [] then rows else
      var last := events[|events| - 1];
      Apply(Run(rows, events[..|events| - 1]), last.key, last.op)
  }

  /** Fields and their values only ever accumulate. */
  ghost predicate Keeps(before: Rows, after: Rows) {
    forall key, f :: key in before && f in before[key] ==>
      key in after && f in after[key] && after[key][f] == before[key][f]
  }

  /** Whatever is done to the table, a field once written is never lost or changed, on any row: a row
      once agreed stays agreed, once declined stays declined, once settled stays settled. */
  lemma {:induction false} NeverReverts(rows: Rows, events: seq<Event>)
    ensures Keeps(rows, Run(rows, events))
  {
    if events != [] {
      NeverReverts(rows, events[..|events| - 1]);
    }
  }

  /** An operation changes nothing exactly when the row already has every field it offers; so any repeat,
      at whatever time, changes nothing. */
  lemma RepeatIff(rows: Rows, key: Key, op: Op)
    ensures Apply(rows, key, op) == rows <==> Offered(op, key in rows).Keys <= RowAt(rows, key).Keys
  {
    var fields, row := Offered(op, key in rows), RowAt(rows, key);
    if fields != map[] {
      assert (fields + row).Keys == fields.Keys + row.Keys;
      if fields.Keys <= row.Keys {
        assert exists f :: f in fields;
        assert key in rows;
        assert fields + row == row;
      } else {
        assert RowAt(Apply(rows, key, op), key) == fields + row;
      }
    }
  }

  /** The i-th event offers v for the field f of the row. */
  ghost predicate Offers(events: seq<Event>, i: nat, key: Key, f: Field, v: Value) {
    i < |events| && events[i].key == key
    && var fields := Offered(events[i].op, key in Run(map[], events[..i]));
       f in fields && fields[f] == v
  }

  ghost predicate FirstOffer(events: seq<Event>, i: nat, key: Key, f: Field, v: Value) {
    Offers(events, i, key, f, v) && forall j: nat, w :: j < i ==> !Offers(events, j, key, f, w)
  }

  predicate Holds(rows: Rows, key: Key, f: Field, v: Value) {
    key in rows && f in rows[key] && rows[key][f] == v
  }

  lemma OffersFront(events: seq<Event>, i: nat, key: Key, f: Field, v: Value)
    requires i + 1 < |events|
    ensures Offers(events, i, key, f, v) <==> Offers(events[..|events| - 1], i, key, f, v)
  {
    assert events[..|events| - 1][..i] == events[..i];
  }

  lemma OffersLast(events: seq<Event>, key: Key, f: Field, v: Value)
    requires events != []
    ensures var n := |events| - 1;
            var before := Run(map[], events[..n]);
            Holds(Run(map[], events), key, f, v)
            <==> Holds(before, key, f, v)
                 || (Offers(events, n, key, f, v) && forall w :: !Holds(before, key, f, w))
  {
    var n := |events| - 1;
    var before := Run(map[], events[..n]);
    WriteHolds(before, events[n].key, Offered(events[n].op, events[n].key in before), key, f, v);
  }

  /** What a write adds to a row: what it offers, where the row has nothing yet. */
  lemma WriteHolds(before: Rows, at: Key, fields: Row, key: Key, f: Field, v: Value)
    ensures Holds(Write(before, at, fields), key, f, v)
            <==> Holds(before, key, f, v)
                 || (at == key && f in fields && fields[f] == v && forall w :: !Holds(before, key, f, w))
  {
    NoneHeld(before, key, f);
  }

  lemma NoneHeld(rows: Rows, key: Key, f: Field)
    ensures (forall w :: !Holds(rows, key, f, w)) <==> !(key in rows && f in rows[key])
  {
    assert key in rows && f in rows[key] ==> Holds(rows, key, f, rows[key][f]);
  }

  /** First write wins: from an empty table, a row holds v for a field exactly when the earliest event
      that offers anything for it offers v. */
  lemma {:induction false} FirstWriteWins(events: seq<Event>, key: Key, f: Field, v: Value)
    ensures Holds(Run(map[], events), key, f, v) <==> exists i: nat :: FirstOffer(events, i, key, f, v)
  {
    if events != [] {
      var n := |events| - 1;
      var front := events[..n];
      forall w ensures Holds(Run(map[], front), key, f, w) <==> exists i: nat :: FirstOffer(front, i, key, f, w) {
        FirstWriteWins(front, key, f, w);
      }
      OffersLast(events, key, f, v);
      FirstFront(events, key, f);
      if Holds(Run(map[], front), key, f, v) {
        var i: nat :| FirstOffer(front, i, key, f, v);
        assert FirstOffer(events, i, key, f, v);
      } else if Holds(Run(map[], events), key, f, v) {
        forall j: nat, w | j < n ensures !Offers(events, j, key, f, w) {
          if Offers(events, j, key, f, w) {
            OffersFront(events, j, key, f, w);
            OfferedHeld(front, j, key, f, w);
          }
        }
        assert FirstOffer(events, n, key, f, v);
      }
      if i: nat :| FirstOffer(events, i, key, f, v) {
        FirstHeld(events, front, i, key, f, v);
      }
    }
  }

  lemma FirstHeld(events: seq<Event>, front: seq<Event>, i: nat, key: Key, f: Field, v: Value)
    requires FirstOffer(events, i, key, f, v) && front == events[..|events| - 1]
    requires forall w :: Holds(Run(map[], front), key, f, w) <==> exists j: nat :: FirstOffer(front, j, key, f, w)
    ensures Holds(Run(map[], events), key, f, v)
  {
    FirstFront(events, key, f);
    OffersLast(events, key, f, v);
    if i < |front| {
      assert FirstOffer(front, i, key, f, v);
    } else {
      forall w ensures !Holds(Run(map[], front), key, f, w) {
        if Holds(Run(map[], front), key, f, w) {
          var j: nat :| FirstOffer(front, j, key, f, w);
          OffersFront(events, j, key, f, w);
        }
      }
    }
  }

  lemma {:induction false} OfferedHeld(events: seq<Event>, i: nat, key: Key, f: Field, v: Value)
    requires Offers(events, i, key, f, v)
    ensures exists w :: Holds(Run(map[], events), key, f, w)
  {
    var front := events[..|events| - 1];
    if i == |events| - 1 {
      OffersLast(events, key, f, v);
      if w: Value :| Holds(Run(map[], front), key, f, w) {
        OffersLast(events, key, f, w);
      }
    } else {
      OffersFront(events, i, key, f, v);
      OfferedHeld(front, i, key, f, v);
      var w :| Holds(Run(map[], front), key, f, w);
      OffersLast(events, key, f, w);
    }
  }

  /** The first offer of a run is the first offer of its front, or the last event when the front has none. */
  lemma FirstFront(events: seq<Event>, key: Key, f: Field)
    requires events != []
    ensures forall i: nat, v :: i < |events| - 1 ==>
              (FirstOffer(events, i, key, f, v) <==> FirstOffer(events[..|events| - 1], i, key, f, v))
  {
    var front := events[..|events| - 1];
    forall i: nat, v | i < |events| - 1 ensures FirstOffer(events, i, key, f, v) <==> FirstOffer(front, i, key, f, v) {
      OffersFront(events, i, key, f, v);
      forall j: nat, w | j < i ensures Offers(events, j, key, f, w) <==> Offers(front, j, key, f, w) {
        OffersFront(events, j, key, f, w);
      }
      assert (forall j: nat, w :: j < i ==> !Offers(events, j, key, f, w))
         <==> (forall j: nat, w :: j < i ==> !Offers(front, j, key, f, w));
    }
  }

  // ----- tables that saw the same touches -----

  /** The clock readings, which each table takes for itself. */
  predicate Timed(f: Field) {
    f == BuyerStamp || f == SellerStamp || f == DeclinedTime || f == SettledTime
  }

  ghost predicate IsOffered(events: seq<Event>, key: Key, f: Field) {
    exists i: nat, v :: Offers(events, i, key, f, v)
  }

  /** Both runs offer the same fields, and one value for each field that is not a clock reading. */
  ghost predicate SameOffers(a: seq<Event>, b: seq<Event>, key: Key) {
    && (forall f :: IsOffered(a, key, f) <==> IsOffered(b, key, f))
    && forall i: nat, j: nat, f, v, w :: Offers(a, i, key, f, v) && Offers(b, j, key, f, w) && !Timed(f) ==> v == w
  }

  lemma HeldOffered(events: seq<Event>, key: Key, f: Field)
    ensures f in RowAt(Run(map[], events), key) <==> IsOffered(events, key, f)
    ensures f in RowAt(Run(map[], events), key) ==>
              exists i: nat :: Offers(events, i, key, f, RowAt(Run(map[], events), key)[f])
  {
    var row := RowAt(Run(map[], events), key);
    if f in row {
      FirstWriteWins(events, key, f, row[f]);
      var i: nat :| FirstOffer(events, i, key, f, row[f]);
    }
    if i: nat, v :| Offers(events, i, key, f, v) {
      OfferedHeld(events, i, key, f, v);
    }
  }

  /** Order, repetition and who was told first do not matter: two tables that were offered the same
      values hold the same row, but for the times. */
  lemma MirroredTables(a: seq<Event>, b: seq<Event>, key: Key)
    requires SameOffers(a, b, key)
    ensures var rowA, rowB := RowAt(Run(map[], a), key), RowAt(Run(map[], b), key);
            && (forall f :: f in rowA <==> f in rowB)
            && forall f :: f in rowA && !Timed(f) ==> rowA[f] == rowB[f]
  {
    var rowA, rowB := RowAt(Run(map[], a), key), RowAt(Run(map[], b), key);
    forall f ensures (f in rowA <==> f in rowB) && (f in rowA && !Timed(f) ==> rowA[f] == rowB[f]) {
      HeldOffered(a, key, f);
      HeldOffered(b, key, f);
    }
  }

  // ----- one deal -----

  const CORE: set<Field> := {BuyerStamp, SellerStamp, BuyerName, SellerName, TermsOf}

  /** Extra fields and notes keep off the fields of the protocol itself. */
  predicate KeepsOff(op: Op) {
    match op
    case Touch(_, _, _, _, extra, _) => extra.Keys !! CORE
    case Note(fields) => fields.Keys !! CORE
    case _ => true
  }

  predicate Carries(op: Op, buyer: string, seller: string, terms: Terms) {
    op.Touch? ==> op.buyer == buyer && op.seller == seller && op.terms == terms
  }

  ghost predicate AllOn(events: seq<Event>, key: Key, p: Op -> bool) {
    forall i :: 0 <= i < |events| && events[i].key == key ==> p(events[i].op)
  }

  predicate TouchedBy(events: seq<Event>, key: Key, side: Side) {
    exists i :: 0 <= i < |events| && events[i].key == key && events[i].op.Touch? && events[i].op.side == side
  }

  /** The row of a deal after some sides have touched it. */
  predicate DealRow(row: Row, buyer: string, seller: string, terms: Terms, byBuyer: bool, bySeller: bool) {
    && (BuyerStamp in row <==> byBuyer)
    && (SellerStamp in row <==> bySeller)
    && (BuyerName in row <==> byBuyer || bySeller)
    && (SellerName in row <==> byBuyer || bySeller)
    && (TermsOf in row <==> byBuyer || bySeller)
    && (BuyerName in row ==> row[BuyerName] == Text(buyer))
    && (SellerName in row ==> row[SellerName] == Text(seller))
    && (TermsOf in row ==> row[TermsOf] == Pinned(terms))
  }

  lemma DealStep(row: Row, op: Op, present: bool, buyer: string, seller: string, terms: Terms, byBuyer: bool,
                 bySeller: bool)
    requires DealRow(row, buyer, seller, terms, byBuyer, bySeller) && KeepsOff(op) && Carries(op, buyer, seller, terms)
    ensures DealRow(IfNotExists(row, Offered(op, present)), buyer, seller, terms,
                    byBuyer || (op.Touch? && op.side.Buyer?), bySeller || (op.Touch? && op.side.Seller?))
  {
    var fields := Offered(op, present);
    assert op.Touch? ==> BuyerStamp !in op.extra && SellerStamp !in op.extra && BuyerName !in op.extra
                         && SellerName !in op.extra && TermsOf !in op.extra;
    assert op.Note? ==> BuyerStamp !in op.fields && SellerStamp !in op.fields && BuyerName !in op.fields
                        && SellerName !in op.fields && TermsOf !in op.fields;
  }

  /** However often and in whatever order the two sides touch a deal, and whatever else is noted on it or
      done to other rows, its row holds their parties, their terms, and the stamps of exactly the sides
      that touched it: it is agreed exactly when both did. */
  lemma {:induction false} DealSpec(events: seq<Event>, key: Key, buyer: string, seller: string, terms: Terms)
    requires AllOn(events, key, KeepsOff) && AllOn(events, key, op => Carries(op, buyer, seller, terms))
    ensures DealRow(RowAt(Run(map[], events), key), buyer, seller, terms,
                    TouchedBy(events, key, Buyer), TouchedBy(events, key, Seller))
  {
    if events != [] {
      var n := |events| - 1;
      var front := events[..n];
      DealSpec(front, key, buyer, seller, terms);
      TouchedLast(events, key, Buyer);
      TouchedLast(events, key, Seller);
      if events[n].key == key {
        var before := Run(map[], front);
        DealStep(RowAt(before, key), events[n].op, key in before, buyer, seller, terms,
                 TouchedBy(front, key, Buyer), TouchedBy(front, key, Seller));
      }
    }
  }

  lemma TouchedLast(events: seq<Event>, key: Key, side: Side)
    requires events != []
    ensures var last := events[|events| - 1];
            TouchedBy(events, key, side)
            <==> (TouchedBy(events[..|events| - 1], key, side)
                  || (last.key == key && last.op.Touch? && last.op.side == side))
  {
    var front := events[..|events| - 1];
    if i :| 0 <= i < |front| && front[i].key == key && front[i].op.Touch? && front[i].op.side == side {
      assert events[i] == front[i];
    }
    if i :| 0 <= i < |events| && events[i].key == key && events[i].op.Touch? && events[i].op.side == side {
      assert i < |front| ==> front[i] == events[i];
    }
  }

  // ----- which terms a row pins -----

  ghost predicate FirstTouch(events: seq<Event>, i: nat, key: Key) {
    && i < |events| && events[i].key == key && events[i].op.Touch?
    && forall j :: 0 <= j < i && events[j].key == key ==> !events[j].op.Touch?
  }

  lemma OffersTerms(events: seq<Event>, i: nat, key: Key, v: Value)
    requires AllOn(events, key, KeepsOff)
    ensures Offers(events, i, key, TermsOf, v)
            <==> i < |events| && events[i].key == key && events[i].op.Touch? && v == Pinned(events[i].op.terms)
  {
    if i < |events| && events[i].key == key {
      var op := events[i].op;
      assert KeepsOff(op);
      assert op.Touch? ==> TermsOf !in op.extra;
      assert op.Note? ==> TermsOf !in op.fields;
    }
  }

  lemma TouchOffers(events: seq<Event>, i: nat, key: Key)
    requires AllOn(events, key, KeepsOff) && i < |events| && events[i].key == key
    ensures events[i].op.Touch? <==> exists v :: Offers(events, i, key, TermsOf, v)
  {
    forall v ensures Offers(events, i, key, TermsOf, v) <==> events[i].op.Touch? && v == Pinned(events[i].op.terms) {
      OffersTerms(events, i, key, v);
    }
    if events[i].op.Touch? {
      assert Offers(events, i, key, TermsOf, Pinned(events[i].op.terms));
    }
  }

  /** The terms of a row are those of the touch that landed first, for good: an accept that leaves them
      out and lands before the request pins empty terms. */
  lemma PinnedIff(events: seq<Event>, key: Key, terms: Terms)
    requires AllOn(events, key, KeepsOff)
    ensures Holds(Run(map[], events), key, TermsOf, Pinned(terms))
            <==> exists i: nat :: FirstTouch(events, i, key) && events[i].op.terms == terms
  {
    FirstWriteWins(events, key, TermsOf, Pinned(terms));
    forall i: nat, v ensures Offers(events, i, key, TermsOf, v)
        <==> i < |events| && events[i].key == key && events[i].op.Touch? && v == Pinned(events[i].op.terms)
    {
      OffersTerms(events, i, key, v);
    }
    if i: nat :| FirstOffer(events, i, key, TermsOf, Pinned(terms)) {
      forall j | 0 <= j < i && events[j].key == key ensures !events[j].op.Touch? {
        TouchOffers(events, j, key);
      }
      assert FirstTouch(events, i, key);
    }
    if i: nat :| FirstTouch(events, i, key) && events[i].op.terms == terms {
      assert FirstOffer(events, i, key, TermsOf, Pinned(terms));
    }
  }

  /** While every touch lands on the fingerprint of the terms it carries, so does the row. */
  lemma {:induction false} PinnedFingerprint(events: seq<Event>, thread: string, normal: Normal)
    requires AllOn(events, Key(thread, Digest(normal)), KeepsOff)
    requires AllOn(events, Key(thread, Digest(normal)), (op: Op) => op.Touch? ==> Fingerprint(op.terms) == normal)
    ensures var row := RowAt(Run(map[], events), Key(thread, Digest(normal)));
            TermsOf in row ==> row[TermsOf].Pinned? && Fingerprint(row[TermsOf].terms) == normal
  {
    var key := Key(thread, Digest(normal));
    var row := RowAt(Run(map[], events), key);
    if TermsOf in row {
      HeldOffered(events, key, TermsOf);
      var i: nat :| Offers(events, i, key, TermsOf, row[TermsOf]);
      OffersTerms(events, i, key, row[TermsOf]);
    }
  }

  /** A note that lands before any touch creates the row it has nothing to annotate in, without parties
      or terms, and the row can then be declined. */
  lemma NoteCreates(rows: Rows, key: Key, fields: Row, who: Side, at: Clock)
    requires key !in rows && fields != map[]
    ensures RowAt(Apply(rows, key, Note(fields)), key) == fields
    ensures Apply(rows, key, Decline(who, at)) == rows
    ensures DeclinedTime in RowAt(Apply(Apply(rows, key, Note(fields)), key, Decline(who, at)), key)
  {
    var row := RowAt(Apply(rows, key, Note(fields)), key);
    assert row == fields + map[];
    assert DeclinedTime in Offered(Decline(who, at), true);
  }
}
