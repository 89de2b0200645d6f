/** cancel_by_source of modules/inventory/lambdas/reserve/main.py, which releases a whole job, and runs of the
    lambda: any sequence of bookings, cancels and releases on one item's partition. */
module Release {
  import opened Common
  import opened Intervals
  import opened Movements
  import opened Reserve

  // ----- what is released -----

  /** The movements recorded under one source, in the order they were read. */
  function Under(log: seq<Movement>, source: string): seq<Movement> {
    if log == [] then [] else
      var rest, last := Under(log[..|log| - 1], source), log[|log| - 1];
      if last.source == source then rest + [last] else rest
  }

  lemma {:induction false} UnderHolds(log: seq<Movement>, source: string, m: Movement)
    ensures m in Under(log, source) <==> m in log && m.source == source
  {
    if log != [] {
      var last := |log| - 1;
      UnderHolds(log[..last], source, m);
      assert log == log[..last] + [log[last]];
    }
  }

  function Plus(item: string, source: string, when: When): Movement {
    Movement(item, None, 1.0, source, when, None)
  }

  function SpanReleases(item: string, source: string, spans: Interval): seq<Movement> {
    seq(|spans|, i requires 0 <= i < |spans| =>
      Plus(item, source, During(spans[i].lower, spans[i].upper, None)))
  }

  /** What one booking has standing is released: by one movement with its own rule when that is all of it, span by
      span when a part had been released before, by nothing when everything had. */
  function ReleaseOf(item: string, source: string, mv: Movement, already: Interval): seq<Movement>
  {
    if !mv.when.During? || mv.delta >= 0.0 then [] else
      var mine := Spans(mv.when);
      var standing := Difference(mine, already);
      if standing == [] then []
      else if standing == mine then [Plus(item, source, mv.when)]
      else SpanReleases(item, source, standing)
  }

  function Releases(item: string, source: string, log: seq<Movement>, already: Interval): seq<Movement> {
    if log == [] then [] else
      Releases(item, source, log[..|log| - 1], already) + ReleaseOf(item, source, log[|log| - 1], already)
  }

  /** Every element gives back t, or none does. */
  lemma SpanReleasesCancel(item: string, source: string, spans: Interval, t: int)
    ensures SomeCancels(SpanReleases(item, source, spans), t) <==> Covers(spans, t)
  {
    var rel := SpanReleases(item, source, spans);
    if Covers(spans, t) {
      var i :| 0 <= i < |spans| && Holds(spans[i], t);
      assert rel[i] in rel && Cancels(rel[i], t);
    }
    if SomeCancels(rel, t) {
      var m :| m in rel && Cancels(m, t);
      var i :| 0 <= i < |rel| && rel[i] == m;
      assert Holds(spans[i], t);
    }
  }

  /** One booking's releases cover exactly what it books beyond what is released already. */
  lemma ReleaseOfCancels(item: string, source: string, mv: Movement, already: Interval, t: int)
    requires Canonical(already)
    ensures SomeCancels(ReleaseOf(item, source, mv, already), t) <==> Books(mv, t) && !Covers(already, t)
  {
    if mv.when.During? && mv.delta < 0.0 {
      var mine := Spans(mv.when);
      var standing := Difference(mine, already);
      DifferenceCovers(mine, already);
      if standing == mine && standing != [] {
        OneCancels(Plus(item, source, mv.when), t);
      } else {
        SpanReleasesCancel(item, source, standing, t);
      }
    }
  }

  lemma OneCancels(mv: Movement, t: int)
    ensures SomeCancels([mv], t) <==> Cancels(mv, t)
  {
    assert mv in [mv];
  }

  lemma SomeCancelsConcat(x: seq<Movement>, y: seq<Movement>, t: int)
    ensures SomeCancels(x + y, t) <==> SomeCancels(x, t) || SomeCancels(y, t)
    ensures SomeBooks(x + y, t) <==> SomeBooks(x, t) || SomeBooks(y, t)
  {
    assert forall m :: m in x + y <==> m in x || m in y;
  }

  lemma {:induction false} ReleasesCancel(item: string, source: string, log: seq<Movement>, already: Interval, t: int)
    requires Canonical(already)
    ensures SomeCancels(Releases(item, source, log, already), t) <==> SomeBooks(log, t) && !Covers(already, t)
  {
    if log != [] {
      var rest, last := log[..|log| - 1], log[|log| - 1];
      ReleasesCancel(item, source, rest, already, t);
      ReleaseOfCancels(item, source, last, already, t);
      SomeCancelsConcat(Releases(item, source, rest, already), ReleaseOf(item, source, last, already), t);
      SomeStep(log, t);
    }
  }

  lemma {:induction false} ReleasesArePlus(item: string, source: string, log: seq<Movement>, already: Interval)
    ensures forall m :: m in Releases(item, source, log, already) ==> m.delta == 1.0 && m.source == source
  {
    if log != [] {
      ReleasesArePlus(item, source, log[..|log| - 1], already);
    }
  }

  /** What cancelling by source records for the log read. */
  function SourceReleases(item: string, source: string, log: seq<Movement>): seq<Movement> {
    Releases(item, source, Under(log, source), Cancelled(Under(log, source)))
  }

  /** Releasing a source gives back exactly what was consumed under it, and leaves nothing consumed under it: a
      second call has nothing to cancel. */
  lemma ReleaseClears(item: string, source: string, log: seq<Movement>)
    ensures forall t :: SomeCancels(SourceReleases(item, source, log), t) <==> Covers(Consumed(Under(log, source)), t)
    ensures Consumed(Under(log, source) + SourceReleases(item, source, log)) == []
  {
    var mine, rel := Under(log, source), SourceReleases(item, source, log);
    SidesCover(mine);
    ConsumedCovers(mine);
    ConsumedCovers(mine + rel);
    ReleasesArePlus(item, source, mine, Cancelled(mine));
    forall t
      ensures SomeCancels(rel, t) <==> Covers(Consumed(mine), t)
      ensures !Covers(Consumed(mine + rel), t)
    {
      ReleasesCancel(item, source, mine, Cancelled(mine), t);
      SomeCancelsConcat(mine, rel, t);
    }
    EmptyCoversNothing(Consumed(mine + rel));
  }

  /** Of what the item has consumed, a release gives back what its source had consumed, and no more. */
  lemma ReleaseTakes(item: string, source: string, log: seq<Movement>)
    ensures forall t :: Covers(Consumed(log + SourceReleases(item, source, log)), t)
                        <==> Covers(Consumed(log), t) && !Covers(Consumed(Under(log, source)), t)
  {
    var rel := SourceReleases(item, source, log);
    ReleaseClears(item, source, log);
    ConsumedCovers(log);
    ConsumedCovers(log + rel);
    ReleasesArePlus(item, source, Under(log, source), Cancelled(Under(log, source)));
    forall t
      ensures Covers(Consumed(log + rel), t)
              <==> Covers(Consumed(log), t) && !Covers(Consumed(Under(log, source)), t)
    {
      SomeCancelsConcat(log, rel, t);
    }
  }

  /** What an item has consumed of an instant under a source. */
  ghost predicate Held(log: seq<Movement>, source: string, t: int) {
    Covers(Consumed(log), t) && Covers(Consumed(Under(log, source)), t)
  }

  lemma {:induction false} UnderConcat(log: seq<Movement>, more: seq<Movement>, source: string)
    ensures Under(log + more, source) == Under(log, source) + Under(more, source)
  {
    if more == [] {
      Nothing(log);
      Nothing(Under(log, source));
    } else {
      var front, last := more[..|more| - 1], more[|more| - 1];
      UnderConcat(log, front, source);
      assert more == front + [last];
      Assoc(log, front, [last]);
      Common.Cut(log + front, [last]);
      Assoc(Under(log, source), Under(front, source), [last]);
    }
  }

  lemma {:induction false} UnderOther(more: seq<Movement>, source: string, other: string)
    requires source != other && forall m :: m in more ==> m.source == source
    ensures Under(more, other) == []
  {
    if more != [] {
      assert more[|more| - 1] in more;
      UnderOther(more[..|more| - 1], source, other);
    }
  }

  /** Another source keeps all it held exactly when it held no instant that the released one had consumed too. */
  lemma OthersKeepIff(item: string, source: string, other: string, log: seq<Movement>)
    requires source != other
    ensures (forall t :: Held(log, other, t) ==> Held(log + SourceReleases(item, source, log), other, t))
            <==> (forall t :: Held(log, other, t) ==> !Covers(Consumed(Under(log, source)), t))
  {
    var rel := SourceReleases(item, source, log);
    ReleaseTakes(item, source, log);
    ReleasesArePlus(item, source, Under(log, source), Cancelled(Under(log, source)));
    UnderConcat(log, rel, other);
    UnderOther(rel, source, other);
    Nothing(Under(log, other));
    assert forall t :: Held(log + rel, other, t) <==> Held(log, other, t) && !Covers(Consumed(Under(log, source)), t);
  }

  // ----- the loop -----

  /** Rows that store movements, each under an id of its own. */
  ghost predicate Stores(rows: seq<Row>, ms: seq<Movement>) {
    |rows| == |ms| && forall i :: 0 <= i < |rows| ==> rows[i] == ToRow(ms[i], rows[i].movementId)
  }

  /** No row of the partition has an id drawn at n or later. */
  ghost predicate Unused(p: seq<Row>, ids: nat -> string, n: nat) {
    forall row, k: nat :: row in multiset(p) && n <= k ==> row.movementId != ids(k)
  }

  ghost predicate Distinct(ids: nat -> string) {
    forall i: nat, j: nat :: i != j ==> ids(i) != ids(j)
  }

  /** A partition grew by rows that store the movements, and no id from n on is in it. */
  ghost predicate Grown(before: seq<Row>, after: seq<Row>, rows: seq<Row>, ms: seq<Movement>, ids: nat -> string,
                        n: nat) {
    && Stores(rows, ms)
    && multiset(after) == multiset(before) + multiset(rows)
    && Unused(after, ids, n)
  }

  lemma UnusedKey(p: seq<Row>, ids: nat -> string, n: nat, row: Row)
    requires Unused(p, ids, n) && row.movementId == ids(n)
    ensures !HasKey(p, row)
  {
    forall i | 0 <= i < |p| ensures !SameKey(p[i], row) {
      assert p[i] in multiset(p);
    }
  }

  lemma GrownByOne(before: seq<Row>, mid: seq<Row>, after: seq<Row>, rows: seq<Row>, ms: seq<Movement>, m: Movement,
                   ids: nat -> string, n: nat)
    requires Grown(before, mid, rows, ms, ids, n) && Distinct(ids)
    requires multiset(after) == multiset(mid) + multiset{ToRow(m, ids(n))}
    ensures Grown(before, after, rows + [ToRow(m, ids(n))], ms + [m], ids, n + 1)
  {
  }

  lemma NotGrown(p: seq<Row>, ids: nat -> string, n: nat)
    requires Unused(p, ids, n)
    ensures Grown(p, p, [], [], ids, n)
  {
  }

  lemma GrownTwice(before: seq<Row>, mid: seq<Row>, after: seq<Row>, rows: seq<Row>, ms: seq<Movement>,
                   more: seq<Row>, ns: seq<Movement>, ids: nat -> string, n: nat, last: nat)
    requires Grown(before, mid, rows, ms, ids, n) && Grown(mid, after, more, ns, ids, last)
    ensures Grown(before, after, rows + more, ms + ns, ids, last)
  {
  }

  /** The rows of an item in a store. */
  function PartitionOf(store: map<string, seq<Row>>, item: string): seq<Row> {
    if item in store then store[item] else []
  }

  /** From one store to another, an item's partition grew by rows that store the movements and no other changed. */
  ghost predicate Progress(start: map<string, seq<Row>>, now: map<string, seq<Row>>, item: string, rows: seq<Row>,
                           ms: seq<Movement>, ids: nat -> string, n: nat) {
    && Grown(PartitionOf(start, item), PartitionOf(now, item), rows, ms, ids, n)
    && forall other :: other != item ==> PartitionOf(now, other) == PartitionOf(start, other)
  }

  lemma ProgressByOne(start: map<string, seq<Row>>, mid: map<string, seq<Row>>, now: map<string, seq<Row>>,
                      item: string, rows: seq<Row>, ms: seq<Movement>, m: Movement, ids: nat -> string, n: nat)
    requires Progress(start, mid, item, rows, ms, ids, n) && Distinct(ids)
    requires now == mid[item := PartitionOf(now, item)]
    requires multiset(PartitionOf(now, item)) == multiset(PartitionOf(mid, item)) + multiset{ToRow(m, ids(n))}
    ensures Progress(start, now, item, rows + [ToRow(m, ids(n))], ms + [m], ids, n + 1)
  {
    GrownByOne(PartitionOf(start, item), PartitionOf(mid, item), PartitionOf(now, item), rows, ms, m, ids, n);
  }

  method RecordOne(table: MovementTable, m: Movement, ids: nat -> string, n: nat, ghost start: map<string, seq<Row>>,
                   ghost rows: seq<Row>, ghost ms: seq<Movement>)
    requires table.Valid() && Distinct(ids) && Progress(start, table.partitions, m.item, rows, ms, ids, n)
    modifies table
    ensures table.Valid()
    ensures Progress(start, table.partitions, m.item, rows + [ToRow(m, ids(n))], ms + [m], ids, n + 1)
  {
    ghost var mid := table.partitions;
    UnusedKey(table.Partition(m.item), ids, n, ToRow(m, ids(n)));
    var _ := table.Append(m, ids(n));
    ProgressByOne(start, mid, table.partitions, m.item, rows, ms, m, ids, n);
  }

  /** Recording movements of one item one by one, each under the next id. */
  method Record(table: MovementTable, item: string, ms: seq<Movement>, ids: nat -> string, n: nat)
    returns (ghost rows: seq<Row>)
    requires table.Valid() && Distinct(ids) && Unused(table.Partition(item), ids, n)
    requires forall m :: m in ms ==> m.item == item
    modifies table
    ensures table.Valid()
    ensures Progress(old(table.partitions), table.partitions, item, rows, ms, ids, n + |ms|)
  {
    rows := [];
    NotGrown(table.Partition(item), ids, n);
    for k := 0 to |ms|
      invariant table.Valid()
      invariant Progress(old(table.partitions), table.partitions, item, rows, ms[..k], ids, n + k)
    {
      PrefixStep(ms, k);
      RecordOne(table, ms[k], ids, n + k, old(table.partitions), rows, ms[..k]);
      rows := rows + [ToRow(ms[k], ids(n + k))];
    }
    assert ms[..|ms|] == ms;
  }

  /** What a release makes of a partition: every row of its releases, or nothing at all when nothing is consumed
      under the source. */
  ghost predicate Undone(item: string, source: string, before: seq<Row>, reply: Reply, rows: seq<Row>,
                         after: seq<Row>) {
    var log := Rebuilt(before);
    if Consumed(Under(log, source)) == [] then reply == NothingToCancel && rows == [] && after == before
    else reply == Recorded && Stores(rows, SourceReleases(item, source, log))
         && multiset(after) == multiset(before) + multiset(rows)
  }

  method FilterSource(log: seq<Movement>, source: string) returns (mine: seq<Movement>)
    ensures mine == Under(log, source)
  {
    mine := [];
    for k := 0 to |log|
      invariant mine == Under(log[..k], source)
    {
      PrefixStep(log, k);
      if log[k].source == source {
        mine := mine + [log[k]];
      }
    }
    assert log[..|log|] == log;
  }

  method AlreadyReleased(mine: seq<Movement>) returns (already: Interval)
    ensures already == Cancelled(mine)
  {
    already := [];
    for k := 0 to |mine|
      invariant already == Cancelled(mine[..k])
    {
      PrefixStep(mine, k);
      if mine[k].when.During? && mine[k].delta > 0.0 {
        already := Union(already, Spans(mine[k].when));
      }
    }
    assert mine[..|mine|] == mine;
  }

  lemma ReleaseOfItem(item: string, source: string, mv: Movement, already: Interval)
    ensures forall m :: m in ReleaseOf(item, source, mv, already) ==> m.item == item
  {
  }

  lemma ProgressTwice(start: map<string, seq<Row>>, mid: map<string, seq<Row>>, now: map<string, seq<Row>>,
                      item: string, rows: seq<Row>, ms: seq<Movement>, more: seq<Row>, ns: seq<Movement>,
                      ids: nat -> string, n: nat, last: nat)
    requires Progress(start, mid, item, rows, ms, ids, n) && Progress(mid, now, item, more, ns, ids, last)
    ensures Progress(start, now, item, rows + more, ms + ns, ids, last)
  {
    GrownTwice(PartitionOf(start, item), PartitionOf(mid, item), PartitionOf(now, item), rows, ms, more, ns, ids, n,
               last);
  }

  /** One booking of the loop. */
  method ReleaseBooking(table: MovementTable, item: string, source: string, mv: Movement, already: Interval,
                        ids: nat -> string, n: nat, ghost start: map<string, seq<Row>>, ghost rows: seq<Row>,
                        ghost ms: seq<Movement>)
    returns (recorded: seq<Movement>, ghost more: seq<Row>)
    requires table.Valid() && Distinct(ids) && Progress(start, table.partitions, item, rows, ms, ids, n)
    modifies table
    ensures table.Valid() && recorded == ReleaseOf(item, source, mv, already)
    ensures Progress(start, table.partitions, item, rows + more, ms + recorded, ids, n + |recorded|)
  {
    ghost var mid := table.partitions;
    recorded := ReleaseOf(item, source, mv, already);
    ReleaseOfItem(item, source, mv, already);
    more := Record(table, item, recorded, ids, n);
    ProgressTwice(start, mid, table.partitions, item, rows, ms, more, recorded, ids, n, n + |recorded|);
  }

  /** The loop over the bookings of a source. */
  method ReleaseAll(table: MovementTable, item: string, source: string, mine: seq<Movement>, already: Interval,
                    ids: nat -> string)
    returns (cancelled: seq<Movement>, ghost rows: seq<Row>)
    requires table.Valid() && Distinct(ids) && Unused(table.Partition(item), ids, 0)
    modifies table
    ensures table.Valid() && cancelled == Releases(item, source, mine, already)
    ensures Progress(old(table.partitions), table.partitions, item, rows, cancelled, ids, |cancelled|)
  {
    cancelled, rows := [], [];
    NotGrown(table.Partition(item), ids, 0);
    for k := 0 to |mine|
      invariant table.Valid() && cancelled == Releases(item, source, mine[..k], already)
      invariant Progress(old(table.partitions), table.partitions, item, rows, cancelled, ids, |cancelled|)
    {
      PrefixStep(mine, k);
      var recorded;
      ghost var more;
      recorded, more := ReleaseBooking(table, item, source, mine[k], already, ids, |cancelled|,
                                       old(table.partitions), rows, cancelled);
      cancelled, rows := cancelled + recorded, rows + more;
    }
    assert mine[..|mine|] == mine;
  }

  /** cancel_by_source: the fold under the source, then one release for each booking still standing. */
  method CancelBySource(table: MovementTable, item: string, source: string, ids: nat -> string, pageSize: nat)
    returns (reply: Reply, cancelled: seq<Movement>, ghost rows: seq<Row>)
    requires table.Valid() && pageSize > 0 && Distinct(ids) && Unused(table.Partition(item), ids, 0)
    modifies table
    ensures table.Valid()
    ensures Undone(item, source, old(table.Partition(item)), reply, rows, table.Partition(item))
    ensures reply == Recorded ==> cancelled == SourceReleases(item, source, Rebuilt(old(table.Partition(item))))
    ensures reply != Recorded ==> cancelled == []
    ensures forall other :: other != item ==> table.Partition(other) == old(table.Partition(other))
  {
    var log := table.Read(item, pageSize);
    var mine := FilterSource(log, source);
    var standing := FoldConsumed(mine);
    if standing == [] {
      return NothingToCancel, [], [];
    }
    var already := AlreadyReleased(mine);
    cancelled, rows := ReleaseAll(table, item, source, mine, already, ids);
    assert forall other :: table.Partition(other) == PartitionOf(table.partitions, other);
    assert forall other :: old(table.Partition(other)) == PartitionOf(old(table.partitions), other);
    reply := Recorded;
  }

  // ----- a released source -----

  lemma ReadIsWhole(row: Row)
    ensures WholeDuration(FromRow(row))
  {
  }

  lemma {:induction false} ReleasesWhole(item: string, source: string, log: seq<Movement>, already: Interval)
    requires forall m :: m in log ==> WholeDuration(m)
    ensures forall m :: m in Releases(item, source, log, already) ==> WholeDuration(m)
  {
    if log != [] {
      ReleasesWhole(item, source, log[..|log| - 1], already);
      assert log[|log| - 1] in log;
    }
  }

  lemma UnderWhole(rows: seq<Row>, source: string)
    ensures forall m :: m in Under(Rebuilt(rows), source) ==> WholeDuration(m)
  {
    forall m | m in Under(Rebuilt(rows), source) ensures WholeDuration(m) {
      UnderHolds(Rebuilt(rows), source, m);
      RebuiltHolds(rows, m);
      var row :| row in rows && FromRow(row) == m;
      ReadIsWhole(row);
    }
  }

  lemma RowComesBack(m: Movement, row: Row)
    requires WholeDuration(m) && row == ToRow(m, row.movementId)
    ensures FromRow(row) == m.(movementId := Some(row.movementId))
    ensures forall t :: Cancels(m, t) ==> Cancels(FromRow(row), t)
  {
    RowRoundTrip(m, row.movementId);
  }

  lemma StoredCancels(ms: seq<Movement>, rows: seq<Row>, t: int)
    requires Stores(rows, ms) && SomeCancels(ms, t)
    requires forall m :: m in ms ==> WholeDuration(m)
    ensures SomeCancels(Rebuilt(rows), t)
  {
    var m :| m in ms && Cancels(m, t);
    var i :| 0 <= i < |ms| && ms[i] == m;
    var row := rows[i];
    RowComesBack(m, row);
    assert Rebuilt(rows)[i] == FromRow(row);
  }

  lemma StoredPlus(ms: seq<Movement>, rows: seq<Row>, source: string, r: Movement)
    requires Stores(rows, ms) && r in Rebuilt(rows)
    requires forall m :: m in ms ==> m.delta == 1.0 && m.source == source
    ensures r.delta == 1.0 && r.source == source
  {
    var i :| 0 <= i < |rows| && Rebuilt(rows)[i] == r;
    assert ms[i] in ms;
  }

  /** The releases of a log that was read come back from the table as they were recorded. */
  lemma ReleasesComeBack(item: string, source: string, before: seq<Row>, rows: seq<Row>, t: int)
    requires Stores(rows, SourceReleases(item, source, Rebuilt(before)))
    ensures forall m :: m in Rebuilt(rows) ==> m.delta == 1.0 && m.source == source
    ensures SomeCancels(SourceReleases(item, source, Rebuilt(before)), t) ==> SomeCancels(Rebuilt(rows), t)
  {
    var mine := Under(Rebuilt(before), source);
    var rel := SourceReleases(item, source, Rebuilt(before));
    UnderWhole(before, source);
    ReleasesWhole(item, source, mine, Cancelled(mine));
    ReleasesArePlus(item, source, mine, Cancelled(mine));
    forall m | m in Rebuilt(rows) ensures m.delta == 1.0 && m.source == source {
      StoredPlus(rel, rows, source, m);
    }
    if SomeCancels(rel, t) {
      StoredCancels(rel, rows, t);
    }
  }

  /** The movements of a partition that grew. */
  lemma GrownHolds(before: seq<Row>, rows: seq<Row>, after: seq<Row>, m: Movement)
    requires multiset(after) == multiset(before) + multiset(rows)
    ensures m in Rebuilt(after) <==> m in Rebuilt(before) || m in Rebuilt(rows)
  {
    RebuiltHolds(before, m);
    RebuiltHolds(rows, m);
    RebuiltHolds(after, m);
    assert forall r :: r in after <==> r in multiset(after);
    assert forall r :: r in before <==> r in multiset(before);
    assert forall r :: r in rows <==> r in multiset(rows);
  }

  lemma UndoneAt(item: string, source: string, before: seq<Row>, rows: seq<Row>, after: seq<Row>, t: int)
    requires Stores(rows, SourceReleases(item, source, Rebuilt(before)))
    requires multiset(after) == multiset(before) + multiset(rows)
    requires SomeBooks(Under(Rebuilt(after), source), t)
    ensures SomeCancels(Under(Rebuilt(after), source), t)
  {
    var mine := Under(Rebuilt(before), source);
    ReleasesComeBack(item, source, before, rows, t);
    forall m ensures m in Under(Rebuilt(after), source) <==> m in mine || m in Rebuilt(rows) {
      UnderHolds(Rebuilt(after), source, m);
      UnderHolds(Rebuilt(before), source, m);
      GrownHolds(before, rows, after, m);
    }
    if !SomeCancels(mine, t) {
      ConsumedCovers(mine);
      ReleaseClears(item, source, Rebuilt(before));
    }
  }

  /** After a release the table holds nothing consumed under the source, so another one has nothing to cancel. */
  lemma UndoneClears(item: string, source: string, before: seq<Row>, reply: Reply, rows: seq<Row>, after: seq<Row>)
    requires Undone(item, source, before, reply, rows, after)
    ensures Consumed(Under(Rebuilt(after), source)) == []
  {
    if reply == Recorded {
      var left := Under(Rebuilt(after), source);
      ConsumedCovers(left);
      forall t ensures !Covers(Consumed(left), t) {
        if SomeBooks(left, t) {
          UndoneAt(item, source, before, rows, after, t);
        }
      }
      EmptyCoversNothing(Consumed(left));
    }
  }
}
