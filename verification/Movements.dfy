/** The movement log, modules/inventory/movements.py: an append-only log of point and period
    movements, folded into on-hand counts and into the interval a capacity item is booked over. */
module Movements {
  import opened Common
  import opened Intervals
  import Strings

  const MICROS := 1_000_000

  /** A recurrence stands for the occurrences its rule opens from its start. */
  datatype Rule = Rule(occurrences: seq<int>, duration: int)

  datatype When = At(at: int) | During(start: int, end: int, rule: Option<Rule>)

  datatype Movement = Movement(item: string, movementId: Option<string>, delta: real,
                               source: string, when: When, unitCost: Option<real>)

  // ----- serialize -----

  /** A stored duration counts whole seconds. */
  datatype StoredRule = StoredRule(occurrences: seq<int>, seconds: int)

  datatype StoredWhen = StoredAt(at: int) | StoredDuring(start: int, end: int, rule: Option<StoredRule>)

  /** The sort key mv_sk is the effective time, then the movement id. */
  datatype Row = Row(itemId: string, sort: int, movementId: string, delta: real,
                     source: string, when: StoredWhen, unitCost: Option<real>)

  /** Python's int() truncates toward zero. */
  function WholeSeconds(micros: int): int {
    if micros >= 0 then micros / MICROS else -((-micros) / MICROS)
  }

  function ToRow(mv: Movement, id: string): Row {
    match mv.when
    case At(at) => Row(mv.item, at, id, mv.delta, mv.source, StoredAt(at), mv.unitCost)
    case During(start, end, rule) =>
      var stored := match rule
        case None => None
        case Some(r) => Some(StoredRule(r.occurrences, WholeSeconds(r.duration)));
      Row(mv.item, start, id, mv.delta, mv.source, StoredDuring(start, end, stored), mv.unitCost)
  }

  function FromRow(row: Row): Movement {
    var when := match row.when
      case StoredAt(at) => At(at)
      case StoredDuring(start, end, None) => During(start, end, None)
      case StoredDuring(start, end, Some(r)) =>
        During(start, end, Some(Rule(r.occurrences, r.seconds * MICROS)));
    Movement(row.itemId, Some(row.movementId), row.delta, row.source, when, row.unitCost)
  }

  predicate WholeDuration(mv: Movement) {
    mv.when.During? && mv.when.rule.Some? ==> mv.when.rule.value.duration % MICROS == 0
  }

  /** A movement reads back as it was written exactly when its rule, if it has one, lasts a whole
      number of seconds: the row keeps no fraction. */
  lemma RowRoundTrip(mv: Movement, id: string)
    ensures FromRow(ToRow(mv, id)) == mv.(movementId := Some(id)) <==> WholeDuration(mv)
  {
    if mv.when.During? && mv.when.rule.Some? {
      var d := mv.when.rule.value.duration;
      if d < 0 {
        assert d % MICROS == 0 <==> (-d) % MICROS == 0;
      }
      assert WholeSeconds(d) * MICROS == d <==> d % MICROS == 0;
    }
  }

  // ----- the stock fold -----

  predicate Counts(mv: Movement, at: Option<int>) {
    mv.when.At? && (at.None? || mv.when.at <= at.value)
  }

  function StockSum(log: seq<Movement>, at: Option<int>): real {
    if log == [] then 0.0 else
      var last := log[|log| - 1];
      StockSum(log[..|log| - 1], at) + (if Counts(last, at) then last.delta else 0.0)
  }

  method OnHand(log: seq<Movement>, at: Option<int>) returns (total: real)
    ensures total == StockSum(log, at)
  {
    total := 0.0;
    for k := 0 to |log|
      invariant total == StockSum(log[..k], at)
    {
      assert log[..k + 1][..k] == log[..k];
      if log[k].when.At? {
        if at.None? || log[k].when.at <= at.value {
          total := total + log[k].delta;
        }
      }
    }
    assert log[..|log|] == log;
  }

  lemma {:induction false} StockSumDrop(log: seq<Movement>, i: nat, at: Option<int>)
    requires i < |log|
    ensures StockSum(log, at) == StockSum(Without(log, i), at) + (if Counts(log[i], at) then log[i].delta else 0.0)
    decreases |log|
  {
    var last := |log| - 1;
    var rest := Without(log, i);
    if i == last {
      assert rest == log[..last];
    } else {
      StockSumDrop(log[..last], i, at);
      assert rest[..|rest| - 1] == Without(log[..last], i);
      assert rest[|rest| - 1] == log[last];
    }
  }

  /** On-hand depends on which movements the log holds, not on the order they are read in. */
  lemma {:induction false} StockOrderFree(x: seq<Movement>, y: seq<Movement>, at: Option<int>)
    requires multiset(x) == multiset(y)
    ensures StockSum(x, at) == StockSum(y, at)
    decreases |x|
  {
    SameLength(x, y);
    if x != [] {
      var i := MatchLast(x, y);
      StockSumDrop(y, i, at);
      StockOrderFree(x[..|x| - 1], Without(y, i), at);
    }
  }

  // ----- the capacity fold -----

  /** The instants a period movement covers: one span, or every slot its rule opens. */
  function Spans(w: When): (iv: Interval)
    requires w.During?
    ensures Canonical(iv)
  {
    match w.rule
    case None => ClosedOpen(w.start, w.end)
    case Some(r) => OccurrencesInterval(r.occurrences, r.duration, w.start, w.end)
  }

  predicate Books(mv: Movement, t: int) {
    mv.when.During? && mv.delta < 0.0 && Covers(Spans(mv.when), t)
  }

  predicate Cancels(mv: Movement, t: int) {
    mv.when.During? && mv.delta > 0.0 && Covers(Spans(mv.when), t)
  }

  function Booked(log: seq<Movement>): Interval {
    if log == [] then [] else
      var rest, last := log[..|log| - 1], log[|log| - 1];
      if last.when.During? && last.delta < 0.0 then Union(Booked(rest), Spans(last.when)) else Booked(rest)
  }

  function Cancelled(log: seq<Movement>): Interval {
    if log == [] then [] else
      var rest, last := log[..|log| - 1], log[|log| - 1];
      if last.when.During? && last.delta > 0.0 then Union(Cancelled(rest), Spans(last.when)) else Cancelled(rest)
  }

  function Consumed(log: seq<Movement>): Interval {
    Difference(Booked(log), Cancelled(log))
  }

  method FoldConsumed(log: seq<Movement>) returns (out: Interval)
    ensures out == Consumed(log)
  {
    var booked, cancelled: Interval := [], [];
    for k := 0 to |log|
      invariant booked == Booked(log[..k]) && cancelled == Cancelled(log[..k])
    {
      assert log[..k + 1][..k] == log[..k];
      var m := log[k];
      if !m.when.During? || m.delta == 0.0 {
        continue;
      }
      if m.delta < 0.0 {
        booked := Union(booked, Spans(m.when));
      } else {
        cancelled := Union(cancelled, Spans(m.when));
      }
    }
    assert log[..|log|] == log;
    out := Difference(booked, cancelled);
  }

  ghost predicate SomeBooks(log: seq<Movement>, t: int) {
    exists m :: m in log && Books(m, t)
  }

  ghost predicate SomeCancels(log: seq<Movement>, t: int) {
    exists m :: m in log && Cancels(m, t)
  }

  lemma SomeStep(log: seq<Movement>, t: int)
    requires log != []
    ensures var rest, last := log[..|log| - 1], log[|log| - 1];
            (SomeBooks(log, t) <==> SomeBooks(rest, t) || Books(last, t))
            && (SomeCancels(log, t) <==> SomeCancels(rest, t) || Cancels(last, t))
  {
    var rest, last := log[..|log| - 1], log[|log| - 1];
    assert log == rest + [last];
    assert forall m :: m in log <==> m in rest || m == last;
  }

  lemma {:induction false} SidesCover(log: seq<Movement>)
    ensures Canonical(Booked(log)) && Canonical(Cancelled(log))
    ensures forall t :: Covers(Booked(log), t) <==> SomeBooks(log, t)
    ensures forall t :: Covers(Cancelled(log), t) <==> SomeCancels(log, t)
  {
    if log != [] {
      var rest, last := log[..|log| - 1], log[|log| - 1];
      SidesCover(rest);
      if last.when.During? && last.delta < 0.0 {
        UnionCovers(Booked(rest), Spans(last.when));
      }
      if last.when.During? && last.delta > 0.0 {
        UnionCovers(Cancelled(rest), Spans(last.when));
      }
      forall t
        ensures Covers(Booked(log), t) <==> SomeBooks(log, t)
        ensures Covers(Cancelled(log), t) <==> SomeCancels(log, t)
      {
        SomeStep(log, t);
      }
    }
  }

  /** consumed() is exactly the instants some booking covers and no cancel covers. */
  lemma ConsumedCovers(log: seq<Movement>)
    ensures Canonical(Consumed(log))
    ensures forall t :: Covers(Consumed(log), t) <==> SomeBooks(log, t) && !SomeCancels(log, t)
  {
    SidesCover(log);
    DifferenceCovers(Booked(log), Cancelled(log));
  }

  /** The order the log is read in, and how often a movement is in it, do not matter: two logs that
      hold the same movements are consumed over the same interval, span for span. */
  lemma ConsumedOrderFree(x: seq<Movement>, y: seq<Movement>)
    requires forall m :: m in x <==> m in y
    ensures Consumed(x) == Consumed(y)
  {
    ConsumedCovers(x);
    ConsumedCovers(y);
    assert forall t :: SomeBooks(x, t) <==> SomeBooks(y, t);
    assert forall t :: SomeCancels(x, t) <==> SomeCancels(y, t);
    CanonicalUnique(Consumed(x), Consumed(y));
  }

  // ----- the store -----

  /** Rows of one item, ordered by mv_sk. */
  predicate KeyBefore(a: Row, b: Row) {
    a.sort < b.sort || (a.sort == b.sort && Strings.Leq(a.movementId, b.movementId) && a.movementId != b.movementId)
  }

  predicate SameKey(a: Row, b: Row) {
    a.sort == b.sort && a.movementId == b.movementId
  }

  predicate Ordered(p: seq<Row>) {
    forall i, j :: 0 <= i < j < |p| ==> KeyBefore(p[i], p[j])
  }

  /** A conditional put: nothing happens when the key is taken. */
  function PutNew(p: seq<Row>, row: Row): seq<Row> {
    if p == [] then [row]
    else if SameKey(p[0], row) then p
    else if KeyBefore(row, p[0]) then [row] + p
    else [p[0]] + PutNew(p[1..], row)
  }

  predicate HasKey(p: seq<Row>, row: Row) {
    exists i :: 0 <= i < |p| && SameKey(p[i], row)
  }

  lemma KeyBeforeTransitive(a: Row, b: Row, c: Row)
    requires KeyBefore(a, b) && KeyBefore(b, c)
    ensures KeyBefore(a, c)
  {
    if a.sort == b.sort == c.sort {
      Strings.LeqTransitive(a.movementId, b.movementId, c.movementId);
      if a.movementId == c.movementId {
        Strings.LeqAntisymmetric(a.movementId, b.movementId);
      }
    }
  }

  lemma HasKeyStep(p: seq<Row>, row: Row)
    requires p != []
    ensures HasKey(p, row) <==> SameKey(p[0], row) || HasKey(p[1..], row)
  {
    if HasKey(p, row) {
      var i :| 0 <= i < |p| && SameKey(p[i], row);
      assert i > 0 ==> SameKey(p[1..][i - 1], row);
    }
    if HasKey(p[1..], row) {
      var i :| 0 <= i < |p[1..]| && SameKey(p[1..][i], row);
      assert SameKey(p[i + 1], row);
    }
  }

  lemma ConsOrdered(row: Row, p: seq<Row>)
    requires Ordered(p) && forall m :: m in multiset(p) ==> KeyBefore(row, m)
    ensures Ordered([row] + p)
  {
    assert forall j :: 0 <= j < |p| ==> p[j] in multiset(p);
  }

  lemma BeforeAll(row: Row, p: seq<Row>)
    requires Ordered(p) && p != [] && KeyBefore(row, p[0])
    ensures !HasKey(p, row) && forall m :: m in multiset(p) ==> KeyBefore(row, m)
  {
    forall j | 0 <= j < |p| ensures KeyBefore(row, p[j]) {
      if j > 0 { KeyBeforeTransitive(row, p[0], p[j]); }
    }
  }

  /** append(): a taken key leaves the partition alone; a fresh one adds the row. */
  lemma {:induction false} PutNewElements(p: seq<Row>, row: Row)
    requires Ordered(p)
    ensures HasKey(PutNew(p, row), row)
    ensures HasKey(p, row) ==> PutNew(p, row) == p
    ensures !HasKey(p, row) ==> multiset(PutNew(p, row)) == multiset(p) + multiset{row}
  {
    if p == [] {
      assert SameKey(PutNew(p, row)[0], row);
    } else {
      HasKeyStep(p, row);
      HasKeyStep(PutNew(p, row), row);
      assert p == [p[0]] + p[1..];
      if !SameKey(p[0], row) {
        if KeyBefore(row, p[0]) {
          BeforeAll(row, p);
        } else {
          PutNewElements(p[1..], row);
        }
      }
    }
  }

  /** append() keeps a partition in key order. */
  lemma {:induction false} PutNewOrdered(p: seq<Row>, row: Row)
    requires Ordered(p)
    ensures Ordered(PutNew(p, row))
  {
    if p != [] && !SameKey(p[0], row) {
      if KeyBefore(row, p[0]) {
        BeforeAll(row, p);
        ConsOrdered(row, p);
      } else {
        Strings.LeqTotal(row.movementId, p[0].movementId);
        assert KeyBefore(p[0], row);
        PutNewOrdered(p[1..], row);
        PutNewElements(p[1..], row);
        forall m | m in multiset(p[1..]) ensures KeyBefore(p[0], m) {
          var i := MemberAt(p[1..], m);
          assert p[i + 1] == m;
        }
        ConsOrdered(p[0], PutNew(p[1..], row));
      }
    }
  }

  /** The rows of a run of appends that were not dropped as replays, in arrival order. */
  function Accepted(arrivals: seq<Row>): seq<Row> {
    if arrivals == [] then [] else
      var rest, last := Accepted(arrivals[..|arrivals| - 1]), arrivals[|arrivals| - 1];
      if HasKey(rest, last) then rest else rest + [last]
  }

  function Stored(arrivals: seq<Row>): seq<Row> {
    if arrivals == [] then [] else PutNew(Stored(arrivals[..|arrivals| - 1]), arrivals[|arrivals| - 1])
  }

  lemma SameRowsSameKeys(p: seq<Row>, q: seq<Row>, row: Row)
    requires multiset(p) == multiset(q)
    ensures HasKey(p, row) ==> HasKey(q, row)
  {
    if HasKey(p, row) {
      var i :| 0 <= i < |p| && SameKey(p[i], row);
      assert p[i] in multiset(q);
      var j :| 0 <= j < |q| && q[j] == p[i];
      assert SameKey(q[j], row);
    }
  }

  /** What a run of appends leaves stored is its accepted rows, each once, in key order. */
  lemma {:induction false} StoredIsAccepted(arrivals: seq<Row>)
    ensures Ordered(Stored(arrivals))
    ensures multiset(Stored(arrivals)) == multiset(Accepted(arrivals))
  {
    if arrivals != [] {
      var rest, last := arrivals[..|arrivals| - 1], arrivals[|arrivals| - 1];
      StoredIsAccepted(rest);
      PutNewOrdered(Stored(rest), last);
      PutNewElements(Stored(rest), last);
      SameRowsSameKeys(Stored(rest), Accepted(rest), last);
      SameRowsSameKeys(Accepted(rest), Stored(rest), last);
    }
  }

  function Rebuilt(rows: seq<Row>): seq<Movement> {
    seq(|rows|, i requires 0 <= i < |rows| => FromRow(rows[i]))
  }

  lemma RebuiltHolds(rows: seq<Row>, m: Movement)
    ensures m in Rebuilt(rows) <==> exists r :: r in rows && FromRow(r) == m
  {
    if m in Rebuilt(rows) {
      var i :| 0 <= i < |rows| && Rebuilt(rows)[i] == m;
      assert rows[i] in rows;
    }
    if exists r :: r in rows && FromRow(r) == m {
      var r :| r in rows && FromRow(r) == m;
      var i :| 0 <= i < |rows| && rows[i] == r;
      assert Rebuilt(rows)[i] == m;
    }
  }

  /** Reading a table that any run of appends reached folds to what the accepted movements say:
      replays and the order of arrival leave no trace. */
  lemma ReadIsAccepted(arrivals: seq<Row>)
    ensures Consumed(Rebuilt(Stored(arrivals))) == Consumed(Rebuilt(Accepted(arrivals)))
  {
    StoredIsAccepted(arrivals);
    var x, y := Stored(arrivals), Accepted(arrivals);
    forall m ensures m in Rebuilt(x) <==> m in Rebuilt(y) {
      RebuiltHolds(x, m);
      RebuiltHolds(y, m);
      assert forall r :: r in x <==> r in multiset(x);
      assert forall r :: r in y <==> r in multiset(y);
    }
    ConsumedOrderFree(Rebuilt(x), Rebuilt(y));
  }

  /** The table, one ordered partition an item. */
  class MovementTable {
    var partitions: map<string, seq<Row>>

    ghost predicate Valid() reads this {
      forall item :: item in partitions ==> Ordered(partitions[item])
    }

    function Partition(item: string): seq<Row> reads this {
      if item in partitions then partitions[item] else []
    }

    constructor ()
      ensures Valid() && partitions == map[]
    {
      partitions := map[];
    }

    method Append(mv: Movement, id: string) returns (movementId: string)
      requires Valid()
      modifies this
      ensures Valid() && movementId == id
      ensures partitions == old(partitions)[mv.item := PutNew(old(Partition(mv.item)), ToRow(mv, id))]
      ensures old(HasKey(Partition(mv.item), ToRow(mv, id))) ==> Partition(mv.item) == old(Partition(mv.item))
      ensures !old(HasKey(Partition(mv.item), ToRow(mv, id))) ==>
                multiset(Partition(mv.item)) == multiset(old(Partition(mv.item))) + multiset{ToRow(mv, id)}
    {
      PutNewOrdered(Partition(mv.item), ToRow(mv, id));
      PutNewElements(Partition(mv.item), ToRow(mv, id));
      partitions := partitions[mv.item := PutNew(Partition(mv.item), ToRow(mv, id))];
      movementId := id;
    }

    /** read(): a page at a time, every row once and in key order, whatever the page size. */
    method Read(item: string, pageSize: nat) returns (movements: seq<Movement>)
      requires pageSize > 0
      ensures movements == Rebuilt(Partition(item))
    {
      var all := Partition(item);
      var rows: seq<Row> := [];
      while true
        invariant |rows| <= |all| && rows == all[..|rows|]
        decreases |all| - |rows|
      {
        var next := Min(|rows| + pageSize, |all|);
        var page := all[|rows|..next];
        rows := rows + page;
        if next == |all| {
          break;
        }
      }
      movements := Rebuilt(rows);
    }
  }
}
