/** Runs of modules/inventory/lambdas/reserve/main.py on one item: any number of its invocations, interleaved. Each
    reads the partition at one moment and appends at a later one, when others may have appended in between. */
module Service {
  import opened Common
  import opened Intervals
  import opened Movements
  import opened Reserve
  import opened Release

  /** An append that may take place: a request as it was answered, or one of the rows that a release by source
      records. Each was decided on what the run had left after its first `read` events. */
  datatype Event = Asked(read: nat, req: Request, recorded: bool)
                 | Released(read: nat, source: string, nth: nat, row: Row)

  /** The row an event puts, if it puts one. */
  function Put(item: string, e: Event): seq<Row> {
    match e
    case Asked(_, req, recorded) => if recorded && req.when.During? then [RowFor(item, req)] else []
    case Released(_, _, _, row) => [row]
  }

  function Puts(item: string, run: seq<Event>): seq<Row> {
    if run == [] then [] else Puts(item, run[..|run| - 1]) + Put(item, run[|run| - 1])
  }

  /** The partition a run leaves: puts are conditional on their keys. */
  function State(item: string, run: seq<Event>): seq<Row> {
    Stored(Puts(item, run))
  }

  /** What a run recorded, in the order it arrived; the table itself keeps it in key order. */
  function Arrivals(item: string, run: seq<Event>): seq<Movement> {
    Rebuilt(Accepted(Puts(item, run)))
  }

  /** The lambda decides as it does on the partition it read. */
  ghost predicate Happens(offer: Offer, item: string, run: seq<Event>, e: Event) {
    e.read <= |run|
    && var seen := State(item, run[..e.read]);
       match e
       case Asked(_, req, recorded) => req.when.During? && (recorded <==> Allowed(offer, seen, req))
       case Released(_, source, nth, row) =>
         var releases := SourceReleases(item, source, Rebuilt(seen));
         nth < |releases| && row == ToRow(releases[nth], row.movementId)
  }

  ghost predicate Runs(offer: Offer, item: string, run: seq<Event>) {
    run == [] || (Runs(offer, item, run[..|run| - 1]) && Happens(offer, item, run[..|run| - 1], run[|run| - 1]))
  }

  // ----- what arrives -----

  /** What an event adds to the arrivals of a run: nothing when its key is taken. */
  function New(item: string, run: seq<Event>, e: Event): seq<Movement> {
    var put := Put(item, e);
    if put == [] || HasKey(Accepted(Puts(item, run)), put[0]) then [] else [FromRow(put[0])]
  }

  lemma AcceptedNext(rows: seq<Row>, row: Row)
    ensures Accepted(rows + [row]) ==
              if HasKey(Accepted(rows), row) then Accepted(rows) else Accepted(rows) + [row]
  {
    Common.Cut(rows, [row]);
  }

  lemma RebuiltNext(rows: seq<Row>, row: Row)
    ensures Rebuilt(rows + [row]) == Rebuilt(rows) + [FromRow(row)]
  {
  }

  lemma ArrivalsNext(item: string, run: seq<Event>, e: Event)
    ensures Arrivals(item, run + [e]) == Arrivals(item, run) + New(item, run, e)
  {
    Common.Cut(run, [e]);
    var rows, put := Puts(item, run), Put(item, e);
    Nothing(rows);
    Nothing(Arrivals(item, run));
    if put != [] {
      AcceptedNext(rows, put[0]);
      RebuiltNext(Accepted(rows), put[0]);
      assert put == [put[0]];
    }
  }

  lemma ArrivalsLast(item: string, run: seq<Event>)
    requires run != []
    ensures Arrivals(item, run) ==
              Arrivals(item, run[..|run| - 1]) + New(item, run[..|run| - 1], run[|run| - 1])
  {
    var rest, last := run[..|run| - 1], run[|run| - 1];
    assert run == rest + [last];
    ArrivalsNext(item, rest, last);
  }

  /** The guard, which folds the table in key order, sees what the arrivals consumed and cancelled. */
  lemma SeesArrivals(item: string, run: seq<Event>)
    ensures Consumed(Rebuilt(State(item, run))) == Consumed(Arrivals(item, run))
    ensures forall m :: m in Rebuilt(State(item, run)) <==> m in Arrivals(item, run)
  {
    var puts := Puts(item, run);
    ReadIsAccepted(puts);
    StoredIsAccepted(puts);
    forall m ensures m in Rebuilt(Stored(puts)) <==> m in Rebuilt(Accepted(puts)) {
      SameRowsHold(Stored(puts), Accepted(puts), m);
    }
  }

  lemma SameRowsHold(x: seq<Row>, y: seq<Row>, m: Movement)
    requires multiset(x) == multiset(y)
    ensures m in Rebuilt(x) <==> m in Rebuilt(y)
  {
    RebuiltHolds(x, m);
    RebuiltHolds(y, m);
    assert forall r :: r in x <==> r in multiset(x);
    assert forall r :: r in y <==> r in multiset(y);
  }

  lemma {:induction false} ArrivalsGrow(item: string, run: seq<Event>, n: nat)
    requires n <= |run|
    ensures Arrivals(item, run[..n]) <= Arrivals(item, run)
    decreases |run|
  {
    if n == |run| {
      assert run[..n] == run;
    } else {
      var rest := run[..|run| - 1];
      ArrivalsGrow(item, rest, n);
      assert rest[..n] == run[..n];
      ArrivalsLast(item, run);
    }
  }

  /** What arrived after the event had read. */
  function Since(item: string, run: seq<Event>, read: nat): seq<Movement>
    requires read <= |run|
  {
    ArrivalsGrow(item, run, read);
    Arrivals(item, run)[|Arrivals(item, run[..read])|..]
  }

  lemma SinceSplits(item: string, run: seq<Event>, read: nat)
    requires read <= |run|
    ensures Arrivals(item, run) == Arrivals(item, run[..read]) + Since(item, run, read)
  {
    ArrivalsGrow(item, run, read);
  }

  // ----- what is stored of a booking -----

  /** The row keeps whole seconds of a duration, never more than was asked. */
  lemma Truncated(d: int)
    ensures WholeSeconds(d) * MICROS <= Max(d, 0)
  {
  }

  lemma ShorterSlots(occurrences: seq<int>, asked: int, stored: int, start: int, end: int, t: int)
    requires stored <= Max(asked, 0) && Covers(OccurrencesInterval(occurrences, stored, start, end), t)
    ensures Covers(OccurrencesInterval(occurrences, asked, start, end), t)
  {
    assert SlotHolds(occurrences, stored, start, end, t);
    assert SlotHolds(occurrences, asked, start, end, t);
  }

  lemma StoredWithin(item: string, req: Request, t: int)
    requires req.when.During? && Books(FromRow(RowFor(item, req)), t)
    ensures req.op == Book && Covers(Spans(req.when), t)
  {
    if req.when.rule.Some? {
      var rule := req.when.rule.value;
      Truncated(rule.duration);
      ShorterSlots(rule.occurrences, rule.duration, WholeSeconds(rule.duration) * MICROS,
                   req.when.start, req.when.end, t);
    }
  }

  /** A release gives back. */
  lemma ReleasedGivesBack(item: string, source: string, seen: seq<Row>, nth: nat, row: Row)
    requires nth < |SourceReleases(item, source, Rebuilt(seen))|
    requires row == ToRow(SourceReleases(item, source, Rebuilt(seen))[nth], row.movementId)
    ensures FromRow(row).delta == 1.0
  {
    var mine := Under(Rebuilt(seen), source);
    ReleasesArePlus(item, source, mine, Cancelled(mine));
    assert SourceReleases(item, source, Rebuilt(seen))[nth] in SourceReleases(item, source, Rebuilt(seen));
  }

  /** An event that may book: a booking that was recorded. */
  predicate MayBook(e: Event) {
    e.Asked? && e.recorded && e.req.op == Book && e.req.when.During?
  }

  lemma OthersGiveBack(offer: Offer, item: string, run: seq<Event>, e: Event, m: Movement)
    requires Happens(offer, item, run, e) && !MayBook(e) && m in New(item, run, e)
    ensures m.delta > 0.0
  {
    match e {
      case Asked(_, req, recorded) =>
      case Released(read, source, nth, row) =>
        ReleasedGivesBack(item, source, State(item, run[..read]), nth, row);
    }
  }

  // ----- nothing booked in between -----

  /** Of what an event adds, nothing was booked since it read. */
  ghost predicate Undisturbed(item: string, run: seq<Event>, e: Event) {
    e.read <= |run|
    && forall m, t :: m in New(item, run, e) && Books(m, t) ==> !SomeBooks(Since(item, run, e.read), t)
  }

  ghost predicate EachUndisturbed(item: string, run: seq<Event>) {
    run == [] || (EachUndisturbed(item, run[..|run| - 1])
                  && Undisturbed(item, run[..|run| - 1], run[|run| - 1]))
  }

  /** What was free on the first part of a log, and not booked after it, is free. */
  lemma StillFree(seen: seq<Movement>, since: seq<Movement>, t: int)
    requires !Covers(Consumed(seen), t) && !SomeBooks(since, t)
    ensures !Covers(Consumed(seen + since), t)
  {
    ConsumedCovers(seen);
    ConsumedCovers(seen + since);
    SomeCancelsConcat(seen, since, t);
  }

  /** What an undisturbed event adds is admitted by what had arrived. */
  lemma AddsAdmitted(offer: Offer, item: string, run: seq<Event>, e: Event, m: Movement)
    requires Happens(offer, item, run, e) && Undisturbed(item, run, e) && m in New(item, run, e)
    ensures Admits(Arrivals(item, run), m)
  {
    SinceSplits(item, run, e.read);
    SeesArrivals(item, run[..e.read]);
    forall t | Books(m, t) ensures !Covers(Consumed(Arrivals(item, run)), t) {
      if !MayBook(e) {
        OthersGiveBack(offer, item, run, e, m);
      } else {
        StoredWithin(item, e.req, t);
        StillFree(Arrivals(item, run[..e.read]), Since(item, run, e.read), t);
      }
    }
  }

  /** Whatever the lambda is asked, while no booking arrives between a read and an append over the same instants,
      every booking on record was free of what stood consumed when it arrived. */
  lemma {:induction false} RunGuarded(offer: Offer, item: string, run: seq<Event>)
    requires Runs(offer, item, run) && EachUndisturbed(item, run)
    ensures Guarded(Arrivals(item, run))
  {
    if run != [] {
      var rest, last := run[..|run| - 1], run[|run| - 1];
      RunGuarded(offer, item, rest);
      ArrivalsLast(item, run);
      StepGuarded(offer, item, rest, last);
    }
  }

  lemma StepGuarded(offer: Offer, item: string, rest: seq<Event>, last: Event)
    requires Happens(offer, item, rest, last) && Undisturbed(item, rest, last) && Guarded(Arrivals(item, rest))
    ensures Guarded(Arrivals(item, rest) + New(item, rest, last))
  {
    var log, more := Arrivals(item, rest), New(item, rest, last);
    if more == [] {
      Nothing(log);
    } else {
      AddsAdmitted(offer, item, rest, last, more[0]);
      GuardedNext(log, more[0]);
      assert more == [more[0]];
    }
  }

  // ----- nothing booked over what was cancelled -----

  /** The event books over an instant that the table shows cancelled. */
  ghost predicate Returns(item: string, run: seq<Event>, e: Event) {
    exists m :: m in New(item, run, e) && Booking(m)
                && Overlap(Spans(m.when), Cancelled(Rebuilt(State(item, run))))
  }

  predicate Booking(m: Movement) {
    m.when.During? && m.delta < 0.0
  }

  ghost predicate NeverReturns(item: string, run: seq<Event>) {
    run == [] || (NeverReturns(item, run[..|run| - 1]) && !Returns(item, run[..|run| - 1], run[|run| - 1]))
  }

  /** A movement that books nothing rebooks nothing. */
  lemma QuietNoRebook(log: seq<Movement>, m: Movement)
    requires NoRebook(log) && !Booking(m)
    ensures NoRebook(log + [m])
  {
    var run := log + [m];
    forall i, k, t | 0 <= i < k < |run| && Cancels(run[i], t) ensures !Books(run[k], t) {
      if k < |log| {
        assert Cancels(log[i], t);
      }
    }
  }

  lemma LongerRebooks(log: seq<Movement>, more: seq<Movement>)
    requires NoRebook(log + more)
    ensures NoRebook(log)
  {
    PrefixNoRebook(log + more, |log|);
    Common.Cut(log, more);
  }

  /** The table shows the same instants cancelled as the arrivals do. */
  lemma SeesCancelled(item: string, run: seq<Event>, t: int)
    ensures Covers(Cancelled(Rebuilt(State(item, run))), t) <==> SomeCancels(Arrivals(item, run), t)
  {
    SidesCover(Rebuilt(State(item, run)));
    SeesArrivals(item, run);
  }

  lemma SeesOverlap(item: string, run: seq<Event>, spans: Interval)
    ensures Overlap(spans, Cancelled(Rebuilt(State(item, run)))) <==> Overlap(spans, Cancelled(Arrivals(item, run)))
  {
    SidesCover(Arrivals(item, run));
    forall t ensures Covers(Cancelled(Rebuilt(State(item, run))), t) <==> Covers(Cancelled(Arrivals(item, run)), t) {
      SeesCancelled(item, run, t);
    }
  }

  lemma StepNoRebook(item: string, rest: seq<Event>, last: Event)
    requires NoRebook(Arrivals(item, rest))
    ensures NoRebook(Arrivals(item, rest) + New(item, rest, last)) <==> !Returns(item, rest, last)
  {
    var log, more := Arrivals(item, rest), New(item, rest, last);
    if more == [] {
      Nothing(log);
    } else {
      assert more == [more[0]];
      if Booking(more[0]) {
        RebookCheck(log, more[0]);
        SeesOverlap(item, rest, Spans(more[0].when));
      } else {
        QuietNoRebook(log, more[0]);
      }
    }
  }

  /** What a caller can check before each booking decides whether the run rebooks. */
  lemma {:induction false} NeverReturnsIff(item: string, run: seq<Event>)
    ensures NeverReturns(item, run) <==> NoRebook(Arrivals(item, run))
  {
    if run != [] {
      var rest, last := run[..|run| - 1], run[|run| - 1];
      NeverReturnsIff(item, rest);
      ArrivalsLast(item, run);
      if NoRebook(Arrivals(item, rest)) {
        StepNoRebook(item, rest, last);
      } else if NoRebook(Arrivals(item, run)) {
        LongerRebooks(Arrivals(item, rest), New(item, rest, last));
      }
    }
  }

  // ----- races -----

  lemma HeldBefore(log: seq<Movement>, more: seq<Movement>, i: nat, k: nat, t: int)
    requires k < |log|
    ensures HeldUntil(log + more, i, k, t) <==> HeldUntil(log, i, k, t)
    ensures (log + more)[k] == log[k]
  {
    assert forall j :: 0 <= j <= k ==> (log + more)[j] == log[j];
  }

  lemma StaysDoubleBooked(log: seq<Movement>, more: seq<Movement>)
    requires DoubleBooked(log)
    ensures DoubleBooked(log + more)
  {
    var i: nat, k: nat, t :| HeldUntil(log, i, k, t) && Books(log[k], t);
    HeldBefore(log, more, i, k, t);
  }

  /** On a log that never rebooks, two bookings of one instant collide. */
  lemma BothStand(log: seq<Movement>, earlier: seq<Movement>, m: Movement, t: int)
    requires NoRebook(log + [m]) && SomeBooks(log, t) && Books(m, t)
    ensures DoubleBooked(log + [m])
  {
    var run := log + [m];
    var b :| b in log && Books(b, t);
    var i :| 0 <= i < |log| && log[i] == b;
    assert run[i] == b && run[|log|] == m;
    assert HeldUntil(run, i, |log|, t);
  }

  /** Two appends that crossed. */
  lemma CrossedCollide(item: string, rest: seq<Event>, last: Event)
    requires last.read <= |rest| && !Undisturbed(item, rest, last)
    requires NoRebook(Arrivals(item, rest) + New(item, rest, last))
    ensures DoubleBooked(Arrivals(item, rest) + New(item, rest, last))
  {
    var m, t :| m in New(item, rest, last) && Books(m, t) && SomeBooks(Since(item, rest, last.read), t);
    assert New(item, rest, last) == [m];
    SinceSplits(item, rest, last.read);
    SomeCancelsConcat(Arrivals(item, rest[..last.read]), Since(item, rest, last.read), t);
    BothStand(Arrivals(item, rest), [], m, t);
  }

  /** Among runs that never book over a cancelled instant, those that double book are exactly those in which a
      booking was appended over an instant that another had booked since it read. */
  lemma {:induction false} RaceIff(offer: Offer, item: string, run: seq<Event>)
    requires Runs(offer, item, run) && NeverReturns(item, run)
    ensures !DoubleBooked(Arrivals(item, run)) <==> EachUndisturbed(item, run)
  {
    NeverReturnsIff(item, run);
    if EachUndisturbed(item, run) {
      RunGuarded(offer, item, run);
      NeverDoubleBooked(Arrivals(item, run));
    } else {
      var rest, last := run[..|run| - 1], run[|run| - 1];
      RaceIff(offer, item, rest);
      ArrivalsLast(item, run);
      if EachUndisturbed(item, rest) {
        CrossedCollide(item, rest, last);
      } else {
        StaysDoubleBooked(Arrivals(item, rest), New(item, rest, last));
      }
    }
  }

  /** One booking of the window, under its own id. */
  function Plain(start: int, end: int, id: string, source: string): Request {
    Request(Book, During(start, end, None), None, id, source)
  }

  lemma PlainBooks(item: string, start: int, end: int, id: string, source: string, t: int)
    ensures var m := FromRow(RowFor(item, Plain(start, end, id, source)));
            m.delta < 0.0 && m.when == During(start, end, None) && (Books(m, t) <==> start <= t < end)
  {
  }

  lemma PlainAllowed(offer: Offer, start: int, end: int, id: string, source: string)
    requires start < end && forall t :: start <= t < end ==> Covers(offer(start, end), t)
    ensures Allowed(offer, [], Plain(start, end, id, source))
  {
    var spans := Spans(During(start, end, None));
    assert Rebuilt([]) == [];
    assert Covers(spans, start);
    assert forall t :: Covers(spans, t) ==> start <= t < end;
  }

  lemma NewOne(item: string, run: seq<Event>, e: Event, row: Row)
    requires Put(item, e) == [row] && !HasKey(Accepted(Puts(item, run)), row)
    ensures New(item, run, e) == [FromRow(row)]
  {
  }

  lemma RunsNext(offer: Offer, item: string, run: seq<Event>, e: Event)
    requires Runs(offer, item, run) && Happens(offer, item, run, e)
    ensures Runs(offer, item, run + [e])
  {
    Common.Cut(run, [e]);
  }

  /** A request decided on the empty partition, whenever it is appended. */
  lemma EarlyHappens(offer: Offer, item: string, run: seq<Event>, req: Request)
    requires Allowed(offer, [], req)
    ensures Happens(offer, item, run, Asked(0, req, true))
  {
    assert run[..0] == [];
    assert State(item, []) == [];
  }

  lemma FirstArrives(item: string, req: Request)
    requires req.when.During?
    ensures New(item, [], Asked(0, req, true)) == [FromRow(RowFor(item, req))]
    ensures Accepted(Puts(item, [] + [Asked(0, req, true)])) == [RowFor(item, req)]
  {
    var e := Asked(0, req, true);
    Common.Cut([], [e]);
    Nothing([RowFor(item, req)]);
    AcceptedNext([], RowFor(item, req));
  }

  lemma CrossingRuns(offer: Offer, item: string, x: Request, y: Request)
    requires Allowed(offer, [], x) && Allowed(offer, [], y)
    ensures Runs(offer, item, [] + [Asked(0, x, true)] + [Asked(0, y, true)])
  {
    var one := [] + [Asked(0, x, true)];
    EarlyHappens(offer, item, [], x);
    RunsNext(offer, item, [], Asked(0, x, true));
    EarlyHappens(offer, item, one, y);
    RunsNext(offer, item, one, Asked(0, y, true));
  }

  lemma CrossingArrives(item: string, x: Request, y: Request)
    requires x.when.During? && y.when.During? && RowFor(item, x).movementId != RowFor(item, y).movementId
    ensures Arrivals(item, [] + [Asked(0, x, true)] + [Asked(0, y, true)]) ==
              [FromRow(RowFor(item, x))] + [FromRow(RowFor(item, y))]
  {
    var one := [] + [Asked(0, x, true)];
    FirstArrives(item, x);
    assert Arrivals(item, one) == [FromRow(RowFor(item, x))];
    NewOne(item, one, Asked(0, y, true), RowFor(item, y));
    ArrivalsNext(item, one, Asked(0, y, true));
  }

  lemma NoneCancelled(first: Movement, second: Movement)
    requires first.delta < 0.0 && second.delta < 0.0
    ensures NoRebook([first] + [second])
  {
  }

  /** Two requests for one window that both read the partition before either appends are both recorded, and its
      instants are booked twice. */
  lemma CrossedBookings(offer: Offer, item: string, start: int, end: int, x: string, y: string, source: string)
    requires start < end && forall t :: start <= t < end ==> Covers(offer(start, end), t)
    requires x != y
    ensures var run := [] + [Asked(0, Plain(start, end, x, source), true)]
                          + [Asked(0, Plain(start, end, y, source), true)];
            Runs(offer, item, run) && NeverReturns(item, run) && DoubleBooked(Arrivals(item, run))
  {
    var a, b := Plain(start, end, x, source), Plain(start, end, y, source);
    var first, second := FromRow(RowFor(item, a)), FromRow(RowFor(item, b));
    PlainAllowed(offer, start, end, x, source);
    PlainAllowed(offer, start, end, y, source);
    PlainBooks(item, start, end, x, source, start);
    PlainBooks(item, start, end, y, source, start);
    CrossingRuns(offer, item, a, b);
    CrossingArrives(item, a, b);
    BooksTwice([first], first, second, start);
    NoneCancelled(first, second);
    NeverReturnsIff(item, [] + [Asked(0, a, true)] + [Asked(0, b, true)]);
  }

  /** What one call of the handler does, reading and appending at once, is an event of a run. */
  lemma HandledHappens(offer: Offer, item: string, run: seq<Event>, req: Request, reply: Reply, after: seq<Row>)
    requires Handled(offer, item, State(item, run), req, reply, after)
    ensures var e := Asked(|run|, req, reply == Recorded);
            Happens(offer, item, run, e) && Undisturbed(item, run, e) && State(item, run + [e]) == after
  {
    var e := Asked(|run|, req, reply == Recorded);
    assert run[..|run|] == run;
    NowUndisturbed(item, run, e);
    Common.Cut(run, [e]);
    Nothing(Puts(item, run));
    if reply == Recorded {
      Common.Cut(Puts(item, run), [RowFor(item, req)]);
    }
  }

  // ----- whatever is asked next -----

  /** Nothing the lambda may be asked next double books, unless another booking comes between. */
  ghost predicate SafeNext(offer: Offer, item: string, run: seq<Event>) {
    forall e :: Happens(offer, item, run, e) && Undisturbed(item, run, e) ==>
      !DoubleBooked(Arrivals(item, run) + New(item, run, e))
  }

  ghost predicate SafeAllAlong(offer: Offer, item: string, run: seq<Event>) {
    SafeNext(offer, item, run) && (run == [] || SafeAllAlong(offer, item, run[..|run| - 1]))
  }

  /** A movement that covers the whole of each second it touches, as all do whose times are given in seconds: the
      occurrences of a rule are, and its stored duration. */
  ghost predicate InSeconds(m: Movement) {
    m.when.During? ==> forall t, u :: t / MICROS == u / MICROS && Covers(Spans(m.when), t) ==> Covers(Spans(m.when), u)
  }

  ghost predicate AllInSeconds(log: seq<Movement>) {
    forall m :: m in log ==> InSeconds(m)
  }

  lemma OneMoreNeverClashes(log: seq<Movement>, mv: Movement)
    requires NoRebook(log) && Guarded(log) && Admits(log, mv)
    ensures !DoubleBooked(log + [mv])
  {
    var run := log + [mv];
    NeverDoubleBooked(log);
    forall i: nat, k: nat, t | HeldUntil(run, i, k, t) ensures !Books(run[k], t) {
      if k < |log| {
        HeldBefore(log, [mv], i, k, t);
      } else {
        StandsAcross(run, i, k, t);
        assert run[..k] == log;
        NotAdmitted(log, mv, t);
      }
    }
  }

  lemma NeverReturnsSafe(offer: Offer, item: string, run: seq<Event>)
    requires Runs(offer, item, run) && EachUndisturbed(item, run) && NeverReturns(item, run)
    ensures SafeNext(offer, item, run)
  {
    var log := Arrivals(item, run);
    RunGuarded(offer, item, run);
    NeverReturnsIff(item, run);
    forall e | Happens(offer, item, run, e) && Undisturbed(item, run, e)
      ensures !DoubleBooked(log + New(item, run, e))
    {
      var more := New(item, run, e);
      if more == [] {
        Nothing(log);
        NeverDoubleBooked(log);
      } else {
        assert more == [more[0]];
        AddsAdmitted(offer, item, run, e, more[0]);
        OneMoreNeverClashes(log, more[0]);
      }
    }
  }

  /** An id no row has: longer than any. */
  function LongId(rows: seq<Row>): (id: string)
    ensures forall i :: 0 <= i < |rows| ==> |rows[i].movementId| < |id|
  {
    if rows == [] then "x" else LongId(rows[..|rows| - 1]) + rows[|rows| - 1].movementId
  }

  /** A booking, over the window from start to end, of the second that t is in. */
  function SecondRequest(start: int, end: int, t: int, id: string): Request {
    Request(Book, During(start, end, Some(Rule([t / MICROS * MICROS], MICROS))), Some(id), id, "")
  }

  /** It covers that second as far as the window has it, asked and stored. */
  lemma SecondCovers(item: string, start: int, end: int, t: int, id: string, u: int)
    ensures var req := SecondRequest(start, end, t, id);
            && (Covers(Spans(req.when), u) <==> start <= u < end && u / MICROS == t / MICROS)
            && (Books(FromRow(RowFor(item, req)), u) <==> start <= u < end && u / MICROS == t / MICROS)
  {
    var s := t / MICROS * MICROS;
    SameSecond(t, u);
    assert SlotHolds([s], MICROS, start, end, u) <==> start <= u < end && [s][0] <= u < [s][0] + MICROS;
  }

  lemma SameSecond(t: int, u: int)
    ensures t / MICROS * MICROS <= u < t / MICROS * MICROS + MICROS <==> u / MICROS == t / MICROS
  {
  }

  lemma SameSecondToo(m: Movement, t: int, u: int)
    requires InSeconds(m) && t / MICROS == u / MICROS
    ensures Books(m, t) ==> Books(m, u)
    ensures Cancels(m, t) ==> Cancels(m, u)
  {
  }

  lemma WithinWindow(when: When, t: int)
    requires when.During? && Covers(Spans(when), t)
    ensures when.start <= t < when.end
  {
    if when.rule.Some? {
      assert SlotHolds(when.rule.value.occurrences, when.rule.value.duration, when.start, when.end, t);
    }
  }

  /** The second that t is in is hidden from the guard: it was offered over the window, and it is not consumed. */
  ghost predicate HiddenSecond(offer: Offer, log: seq<Movement>, start: int, end: int, t: int) {
    start <= t < end
    && forall u :: u / MICROS == t / MICROS && start <= u < end ==>
         Covers(offer(start, end), u) && !Covers(Consumed(log), u)
  }

  /** A booking over a cancelled instant, in a run in whole seconds, hides the second it is in. */
  lemma ReturnHides(offer: Offer, item: string, rest: seq<Event>, e: Event, mv: Movement, t: int)
    requires Happens(offer, item, rest, e) && MayBook(e) && New(item, rest, e) == [mv]
    requires Books(mv, t) && SomeCancels(Arrivals(item, rest), t)
    requires AllInSeconds(Arrivals(item, rest)) && InSeconds(mv)
    ensures HiddenSecond(offer, Arrivals(item, rest) + [mv], e.req.when.start, e.req.when.end, t)
  {
    var log, w := Arrivals(item, rest) + [mv], e.req.when;
    var cancel :| cancel in Arrivals(item, rest) && Cancels(cancel, t);
    StoredWithin(item, e.req, t);
    WithinWindow(w, t);
    forall u | u / MICROS == t / MICROS && w.start <= u < w.end
      ensures Covers(offer(w.start, w.end), u) && !Covers(Consumed(log), u)
    {
      SameSecondToo(mv, t, u);
      SameSecondToo(cancel, t, u);
      StoredWithin(item, e.req, u);
      CancelHides(log, cancel, u);
    }
  }

  lemma FreshId(item: string, run: seq<Event>, id: string)
    requires id == LongId(Accepted(Puts(item, run)))
    ensures forall m :: m in Rebuilt(State(item, run)) ==> m.movementId != Some(id)
    ensures forall row: Row :: row.movementId == id ==> !HasKey(Accepted(Puts(item, run)), row)
  {
    SeesArrivals(item, run);
    var rows := Accepted(Puts(item, run));
    forall m | m in Rebuilt(rows) ensures m.movementId != Some(id) {
      var i :| 0 <= i < |rows| && Rebuilt(rows)[i] == m;
    }
  }

  /** A request for a hidden second is recorded. */
  lemma HiddenIsAllowed(offer: Offer, item: string, run: seq<Event>, start: int, end: int, t: int, id: string)
    requires HiddenSecond(offer, Arrivals(item, run), start, end, t) && id == LongId(Accepted(Puts(item, run)))
    ensures Allowed(offer, State(item, run), SecondRequest(start, end, t, id))
  {
    var req := SecondRequest(start, end, t, id);
    FreshId(item, run, id);
    SeesArrivals(item, run);
    forall u ensures Covers(Spans(req.when), u) <==> start <= u < end && u / MICROS == t / MICROS {
      SecondCovers(item, start, end, t, id, u);
    }
    assert Covers(Spans(req.when), t);
  }

  lemma NowUndisturbed(item: string, run: seq<Event>, e: Event)
    requires e.read == |run|
    ensures Undisturbed(item, run, e)
  {
    assert run[..|run|] == run;
    SinceSplits(item, run, |run|);
    assert Since(item, run, |run|) == [];
  }

  /** The request for a hidden second, made now. */
  lemma HiddenEvent(offer: Offer, item: string, run: seq<Event>, start: int, end: int, t: int)
    returns (e: Event, again: Movement)
    requires HiddenSecond(offer, Arrivals(item, run), start, end, t)
    ensures Happens(offer, item, run, e) && Undisturbed(item, run, e)
    ensures New(item, run, e) == [again] && Books(again, t)
  {
    var id := LongId(Accepted(Puts(item, run)));
    var req := SecondRequest(start, end, t, id);
    e, again := Asked(|run|, req, true), FromRow(RowFor(item, req));
    HiddenIsAllowed(offer, item, run, start, end, t, id);
    assert run[..|run|] == run;
    NowUndisturbed(item, run, e);
    FreshId(item, run, id);
    NewOne(item, run, e, RowFor(item, req));
    SecondCovers(item, start, end, t, id, t);
  }

  /** It double books what the last movement booked. */
  lemma HiddenClashes(offer: Offer, item: string, run: seq<Event>, last: Movement, start: int, end: int, t: int)
    requires HiddenSecond(offer, Arrivals(item, run), start, end, t)
    requires Arrivals(item, run) != [] && Arrivals(item, run)[|Arrivals(item, run)| - 1] == last && Books(last, t)
    ensures !SafeNext(offer, item, run)
  {
    var e, again := HiddenEvent(offer, item, run, start, end, t);
    BooksTwice(Arrivals(item, run), last, again, t);
  }

  lemma ReturnedAt(item: string, rest: seq<Event>, e: Event) returns (mv: Movement, t: int)
    requires Returns(item, rest, e)
    ensures mv in New(item, rest, e) && Books(mv, t) && SomeCancels(Arrivals(item, rest), t)
  {
    mv :| mv in New(item, rest, e) && Booking(mv)
          && Overlap(Spans(mv.when), Cancelled(Rebuilt(State(item, rest))));
    t :| Covers(Spans(mv.when), t) && Covers(Cancelled(Rebuilt(State(item, rest))), t);
    SeesCancelled(item, rest, t);
  }

  lemma ReturnedBooking(offer: Offer, item: string, rest: seq<Event>, e: Event) returns (mv: Movement, t: int)
    requires Happens(offer, item, rest, e) && Returns(item, rest, e)
    ensures MayBook(e) && New(item, rest, e) == [mv]
    ensures Books(mv, t) && SomeCancels(Arrivals(item, rest), t)
  {
    mv, t := ReturnedAt(item, rest, e);
    if !MayBook(e) {
      OthersGiveBack(offer, item, rest, e, mv);
    }
  }

  lemma ReturnCollides(offer: Offer, item: string, rest: seq<Event>, e: Event, mv: Movement, t: int, run: seq<Event>)
    requires Happens(offer, item, rest, e) && MayBook(e) && New(item, rest, e) == [mv]
    requires Books(mv, t) && SomeCancels(Arrivals(item, rest), t)
    requires Arrivals(item, run) == Arrivals(item, rest) + [mv] && AllInSeconds(Arrivals(item, run))
    ensures !SafeNext(offer, item, run)
  {
    ShorterInSeconds(Arrivals(item, rest), [mv]);
    ReturnHides(offer, item, rest, e, mv, t);
    HiddenClashes(offer, item, run, mv, e.req.when.start, e.req.when.end, t);
  }

  /** After a booking over a cancelled instant, some request is recorded and double books. */
  lemma ReturnClashes(offer: Offer, item: string, run: seq<Event>)
    requires run != [] && AllInSeconds(Arrivals(item, run))
    requires Happens(offer, item, run[..|run| - 1], run[|run| - 1])
    requires Returns(item, run[..|run| - 1], run[|run| - 1])
    ensures !SafeNext(offer, item, run)
  {
    var rest, e := run[..|run| - 1], run[|run| - 1];
    ArrivalsLast(item, run);
    var mv, t := ReturnedBooking(offer, item, rest, e);
    ReturnCollides(offer, item, rest, e, mv, t, run);
  }

  lemma ShorterInSeconds(log: seq<Movement>, more: seq<Movement>)
    requires AllInSeconds(log + more)
    ensures AllInSeconds(log) && forall m :: m in more ==> InSeconds(m)
  {
    assert forall m :: m in log || m in more ==> m in log + more;
  }

  lemma FrontInSeconds(item: string, run: seq<Event>)
    requires run != [] && AllInSeconds(Arrivals(item, run))
    ensures AllInSeconds(Arrivals(item, run[..|run| - 1]))
  {
    ArrivalsLast(item, run);
    ShorterInSeconds(Arrivals(item, run[..|run| - 1]), New(item, run[..|run| - 1], run[|run| - 1]));
  }

  lemma SafeHere(offer: Offer, item: string, run: seq<Event>)
    requires Runs(offer, item, run) && EachUndisturbed(item, run) && AllInSeconds(Arrivals(item, run))
    ensures NeverReturns(item, run) ==> SafeNext(offer, item, run)
    ensures run != [] && Returns(item, run[..|run| - 1], run[|run| - 1]) ==> !SafeNext(offer, item, run)
  {
    if NeverReturns(item, run) {
      NeverReturnsSafe(offer, item, run);
    } else if run != [] && Returns(item, run[..|run| - 1], run[|run| - 1]) {
      ReturnClashes(offer, item, run);
    }
  }

  /** Whatever the item offers, over a run in whole seconds in which no two appends crossed: at every point the lambda
      was safe, whatever it was asked next, exactly when the run never booked over an instant it had cancelled. */
  lemma {:induction false} SafeIff(offer: Offer, item: string, run: seq<Event>)
    requires Runs(offer, item, run) && EachUndisturbed(item, run) && AllInSeconds(Arrivals(item, run))
    ensures SafeAllAlong(offer, item, run) <==> NeverReturns(item, run)
  {
    if run != [] {
      FrontInSeconds(item, run);
      SafeIff(offer, item, run[..|run| - 1]);
    }
    SafeHere(offer, item, run);
  }
}
