/** Booking and cancelling capacity, modules/inventory/lambdas/reserve/main.py, and what its guard is
    worth over whole runs of the movement log. */
module Reserve {
  import opened Common
  import opened Intervals
  import opened Movements

  // ----- what stands -----

  /** t is booked since it was last cancelled; the log is read in order of arrival. */
  predicate StandingAt(log: seq<Movement>, t: int) {
    log != []
    && var rest, last := log[..|log| - 1], log[|log| - 1];
       Books(last, t) || (!Cancels(last, t) && StandingAt(rest, t))
  }

  /** The bookings still standing, as an interval: a booking adds its spans, a cancel takes them out. */
  function Standing(log: seq<Movement>): Interval {
    if log == [] then [] else
      var rest, last := log[..|log| - 1], log[|log| - 1];
      if last.when.At? || last.delta == 0.0 then Standing(rest)
      else if last.delta < 0.0 then Union(Standing(rest), Spans(last.when))
      else Difference(Standing(rest), Spans(last.when))
  }

  lemma {:induction false} StandingCovers(log: seq<Movement>)
    ensures Canonical(Standing(log))
    ensures forall t :: Covers(Standing(log), t) <==> StandingAt(log, t)
  {
    if log != [] {
      var rest, last := log[..|log| - 1], log[|log| - 1];
      StandingCovers(rest);
      if last.when.During? {
        UnionCovers(Standing(rest), Spans(last.when));
        DifferenceCovers(Standing(rest), Spans(last.when));
      }
    }
  }

  /** Movement i books t and none after it cancels it. */
  ghost predicate StandsBy(log: seq<Movement>, i: nat, t: int) {
    i < |log| && Books(log[i], t) && forall k :: i < k < |log| ==> !Cancels(log[k], t)
  }

  lemma StandsByFront(log: seq<Movement>, i: nat, t: int)
    requires i + 1 < |log|
    ensures StandsBy(log, i, t) <==> StandsBy(log[..|log| - 1], i, t) && !Cancels(log[|log| - 1], t)
  {
    var last := |log| - 1;
    var rest := log[..last];
    assert rest[i] == log[i] && forall k :: i < k < last ==> rest[k] == log[k];
  }

  lemma {:induction false} StandingFrom(log: seq<Movement>, i: nat, t: int)
    requires StandsBy(log, i, t)
    ensures StandingAt(log, t)
  {
    var last := |log| - 1;
    if i < last {
      StandsByFront(log, i, t);
      StandingFrom(log[..last], i, t);
    }
  }

  lemma {:induction false} StandingWitness(log: seq<Movement>, t: int) returns (i: nat)
    requires StandingAt(log, t)
    ensures StandsBy(log, i, t)
  {
    var last := |log| - 1;
    if Books(log[last], t) {
      i := last;
    } else {
      i := StandingWitness(log[..last], t);
      StandsByFront(log, i, t);
    }
  }

  /** The fold says what it should: t stands exactly when some booking of t has no later cancel. */
  lemma StandingIff(log: seq<Movement>, t: int)
    ensures StandingAt(log, t) <==> exists i: nat :: StandsBy(log, i, t)
  {
    if StandingAt(log, t) {
      var i := StandingWitness(log, t);
    }
    if i: nat :| StandsBy(log, i, t) {
      StandingFrom(log, i, t);
    }
  }

  // ----- when the guard can be trusted -----

  /** No movement books an instant that an earlier one cancelled. A caller can ask this of a request
      before making it: it is that the request and everything cancelled so far do not overlap. */
  ghost predicate NoRebook(log: seq<Movement>) {
    forall i, k, t :: 0 <= i < k < |log| && Cancels(log[i], t) ==> !Books(log[k], t)
  }

  /** Whatever is offered, a request the guard calls free collides with no standing booking. */
  ghost predicate SoundGuard(log: seq<Movement>)
  {
    ConsumedCovers(log);
    StandingCovers(log);
    forall offered: Interval, start, end ::
      Canonical(offered) && IsFree(offered, Consumed(log), start, end) ==> !DoubleBook(Standing(log), start, end)
  }

  /** consumed never reports an instant that no standing booking covers. */
  lemma {:induction false} ConsumedStands(log: seq<Movement>, t: int)
    requires SomeBooks(log, t) && !SomeCancels(log, t)
    ensures StandingAt(log, t)
  {
    SomeStep(log, t);
    if !Books(log[|log| - 1], t) {
      ConsumedStands(log[..|log| - 1], t);
    }
  }

  lemma PrefixNoRebook(log: seq<Movement>, n: nat)
    requires n <= |log| && NoRebook(log)
    ensures NoRebook(log[..n])
  {
  }

  lemma {:induction false} StandingIsConsumed(log: seq<Movement>, t: int)
    requires NoRebook(log) && StandingAt(log, t)
    ensures SomeBooks(log, t) && !SomeCancels(log, t)
  {
    var last := |log| - 1;
    SomeStep(log, t);
    if Books(log[last], t) {
      forall m | m in log[..last] ensures !Cancels(m, t) {
        var i :| 0 <= i < last && log[..last][i] == m;
        assert log[i] == m;
      }
    } else {
      PrefixNoRebook(log, last);
      StandingIsConsumed(log[..last], t);
    }
  }

  lemma NoRebookSound(log: seq<Movement>)
    requires NoRebook(log)
    ensures SoundGuard(log)
    ensures Consumed(log) == Standing(log)
  {
    ConsumedCovers(log);
    StandingCovers(log);
    forall t ensures Covers(Consumed(log), t) <==> Covers(Standing(log), t) {
      if SomeBooks(log, t) && !SomeCancels(log, t) { ConsumedStands(log, t); }
      if StandingAt(log, t) { StandingIsConsumed(log, t); }
    }
    CanonicalUnique(Consumed(log), Standing(log));
  }

  /** An instant that stands and was once cancelled looks free. */
  lemma HiddenInstant(log: seq<Movement>, t: int)
    requires StandingAt(log, t) && SomeCancels(log, t)
    ensures !SoundGuard(log) && !Covers(Consumed(log), t)
  {
    ConsumedCovers(log);
    StandingCovers(log);
    var offered := ClosedOpen(t, t + 1);
    assert Covers(offered, t);
    assert IsFree(offered, Consumed(log), t, t + 1);
    assert DoubleBook(Standing(log), t, t + 1);
  }

  /** A rebooked instant looks free although its booking stands. */
  lemma RebookHides(log: seq<Movement>, i: nat, k: nat, t: int)
    requires i < k < |log| && Cancels(log[i], t) && Books(log[k], t)
    ensures !SoundGuard(log[..k + 1])
    ensures !Covers(Consumed(log[..k + 1]), t)
  {
    var seen := log[..k + 1];
    assert seen[k] == log[k] && seen[i] in seen;
    HiddenInstant(seen, t);
  }

  /** The guard can be trusted all along a log exactly when the log never rebooks a cancelled
      instant: consumed() is an unordered fold, so one cancel releases later bookings too. */
  lemma GuardIff(log: seq<Movement>)
    ensures (forall n :: 0 <= n <= |log| ==> SoundGuard(log[..n])) <==> NoRebook(log)
  {
    if NoRebook(log) {
      forall n | 0 <= n <= |log| ensures SoundGuard(log[..n]) {
        PrefixNoRebook(log, n);
        NoRebookSound(log[..n]);
      }
    } else {
      var i, k, t :| 0 <= i < k < |log| && Cancels(log[i], t) && Books(log[k], t);
      RebookHides(log, i, k, t);
    }
  }

  // ----- runs -----

  /** A movement books nothing that the log has consumed. */
  ghost predicate Admits(log: seq<Movement>, mv: Movement) {
    forall t :: Books(mv, t) ==> !Covers(Consumed(log), t)
  }

  /** Every booking of the log was free, over what the log consumed, when it was made. */
  ghost predicate Guarded(log: seq<Movement>) {
    log == [] || (Guarded(log[..|log| - 1]) && Admits(log[..|log| - 1], log[|log| - 1]))
  }

  lemma GuardedNext(log: seq<Movement>, mv: Movement)
    requires Guarded(log) && Admits(log, mv)
    ensures Guarded(log + [mv])
  {
    var run := log + [mv];
    assert run[..|run| - 1] == log && run[|run| - 1] == mv;
  }

  /** Every prefix of a guarded log is guarded, and each movement was admitted by the log before it. */
  lemma {:induction false} GuardedPrefix(log: seq<Movement>, n: nat)
    requires Guarded(log) && n <= |log|
    ensures Guarded(log[..n])
    ensures n < |log| ==> Admits(log[..n], log[n])
    decreases |log|
  {
    if n == |log| {
      assert log[..n] == log;
    } else if n < |log| - 1 {
      GuardedPrefix(log[..|log| - 1], n);
      assert log[..|log| - 1][..n] == log[..n];
    }
  }

  /** What stands on a log without rebooking, its guard admits no more. */
  lemma NotAdmitted(log: seq<Movement>, mv: Movement, t: int)
    requires NoRebook(log) && Admits(log, mv) && StandingAt(log, t)
    ensures !Books(mv, t)
  {
    ConsumedCovers(log);
    StandingIsConsumed(log, t);
  }

  /** Movement i books t and nothing between i and k cancels it. */
  ghost predicate HeldUntil(log: seq<Movement>, i: nat, k: nat, t: int) {
    i < k < |log| && Books(log[i], t) && forall j :: i < j < k ==> !Cancels(log[j], t)
  }

  lemma StandsAcross(log: seq<Movement>, i: nat, k: nat, t: int)
    requires HeldUntil(log, i, k, t)
    ensures StandingAt(log[..k], t)
  {
    var seen := log[..k];
    assert seen[i] == log[i] && forall j :: i < j < k ==> seen[j] == log[j];
    StandingFrom(seen, i, t);
  }

  /** Two bookings cover one instant and nothing between them cancelled it. */
  ghost predicate DoubleBooked(log: seq<Movement>) {
    exists i: nat, k: nat, t :: HeldUntil(log, i, k, t) && Books(log[k], t)
  }

  /** A guarded run that never rebooks a cancelled instant leaves standing bookings disjoint. */
  lemma NeverDoubleBooked(log: seq<Movement>)
    requires Guarded(log) && NoRebook(log)
    ensures !DoubleBooked(log)
  {
    forall i: nat, k: nat, t | HeldUntil(log, i, k, t) ensures !Books(log[k], t) {
      StandsAcross(log, i, k, t);
      if Books(log[k], t) {
        GuardedPrefix(log, k);
        PrefixNoRebook(log, k);
        NotAdmitted(log[..k], log[k], t);
      }
    }
  }

  /** The question to ask before a booking: it keeps the run free of rebooking exactly when its spans
      and everything the log has cancelled do not overlap. */
  lemma RebookCheck(log: seq<Movement>, mv: Movement)
    requires mv.when.During? && mv.delta < 0.0 && NoRebook(log)
    ensures NoRebook(log + [mv]) <==> !Overlap(Spans(mv.when), Cancelled(log))
  {
    var run := log + [mv];
    SidesCover(log);
    assert forall k :: 0 <= k < |log| ==> run[k] == log[k];
    if Overlap(Spans(mv.when), Cancelled(log)) {
      var t :| Covers(Spans(mv.when), t) && Covers(Cancelled(log), t);
      var m :| m in log && Cancels(m, t);
      var i :| 0 <= i < |log| && log[i] == m;
      assert Cancels(run[i], t) && Books(run[|log|], t);
    } else {
      forall i, k, t | 0 <= i < k < |run| && Cancels(run[i], t) ensures !Books(run[k], t) {
        if k == |log| {
          assert log[i] in log && SomeCancels(log, t);
        }
      }
    }
  }

  /** What the log has cancelled, consumed() does not cover. */
  lemma CancelHides(log: seq<Movement>, cancel: Movement, t: int)
    requires cancel in log && Cancels(cancel, t)
    ensures !Covers(Consumed(log), t)
  {
    ConsumedCovers(log);
    assert SomeCancels(log, t);
  }

  /** Every booking passed the guard, and yet two collide. */
  ghost predicate GuardedClash(log: seq<Movement>) {
    Guarded(log) && DoubleBooked(log)
  }

  lemma BothClash(log: seq<Movement>)
    requires Guarded(log) && DoubleBooked(log)
    ensures GuardedClash(log)
  {
  }

  /** The hypothesis is needed: wherever a guarded run rebooks an instant it had cancelled, one more booking of
      that instant passes the guard and collides with the second. */
  lemma RebookCollides(log: seq<Movement>, i: nat, k: nat, t: int, again: Movement)
    requires Guarded(log) && i < k < |log| && Cancels(log[i], t) && Books(log[k], t)
    requires again.when == During(t, t + 1, None) && again.delta < 0.0
    ensures GuardedClash(log[..k + 1] + [again])
  {
    PrefixGuarded(log, k + 1);
    PrefixHolds(log, i, k + 1);
    PrefixHolds(log, k, k + 1);
    SeenRebooked(log[..k + 1], i, t, again);
  }

  lemma PrefixGuarded(log: seq<Movement>, n: nat)
    requires Guarded(log) && n <= |log|
    ensures Guarded(log[..n])
  {
    GuardedPrefix(log, n);
  }

  lemma SeenRebooked(seen: seq<Movement>, i: nat, t: int, again: Movement)
    requires Guarded(seen) && i < |seen| - 1 && Cancels(seen[i], t) && Books(seen[|seen| - 1], t)
    requires again.when == During(t, t + 1, None) && again.delta < 0.0
    ensures GuardedClash(seen + [again])
  {
    LastRebooked(seen, seen[i], seen[|seen| - 1], t, again);
  }

  lemma LastRebooked(log: seq<Movement>, cancel: Movement, last: Movement, t: int, again: Movement)
    requires Guarded(log) && cancel in log && Cancels(cancel, t)
    requires log != [] && log[|log| - 1] == last && Books(last, t)
    requires again.when == During(t, t + 1, None) && again.delta < 0.0
    ensures GuardedClash(log + [again])
  {
    GuardedAgain(log, cancel, again, t);
    BooksTwice(log, last, again, t);
    BothClash(log + [again]);
  }

  /** A booking that follows the last of a log at once, on an instant it books. */
  lemma BooksTwice(log: seq<Movement>, last: Movement, again: Movement, t: int)
    requires log != [] && log[|log| - 1] == last && Books(last, t) && Books(again, t)
    ensures DoubleBooked(log + [again])
  {
    var run := log + [again];
    assert run[|log| - 1] == last && run[|log|] == again;
    assert HeldUntil(run, |log| - 1, |log|, t);
  }

  /** A booking of one instant that the log has cancelled is admitted. */
  lemma GuardedAgain(log: seq<Movement>, cancel: Movement, again: Movement, t: int)
    requires Guarded(log) && cancel in log && Cancels(cancel, t)
    requires again.when == During(t, t + 1, None) && again.delta < 0.0
    ensures Guarded(log + [again]) && Books(again, t)
  {
    CancelHides(log, cancel, t);
    AgainGuarded(log, t, again);
  }

  /** A booking of one instant that consumed() hides is admitted. */
  lemma AgainGuarded(log: seq<Movement>, t: int, again: Movement)
    requires Guarded(log) && !Covers(Consumed(log), t)
    requires again.when == During(t, t + 1, None) && again.delta < 0.0
    ensures Guarded(log + [again]) && Books(again, t)
  {
    OneInstant(again, t);
    GuardedNext(log, again);
  }

  lemma OneInstant(mv: Movement, t: int)
    requires mv.when == During(t, t + 1, None)
    ensures mv.delta < 0.0 ==> Books(mv, t) && forall u :: Books(mv, u) ==> u == t
    ensures mv.delta > 0.0 ==> Cancels(mv, t)
  {
  }

  /** Booking, cancelling, booking and booking one hour is such a run. */
  lemma BookCancelBookBook(booking: Movement, cancel: Movement, t: int)
    requires booking.when == cancel.when == During(t, t + 1, None)
    requires booking.delta == -1.0 && cancel.delta == 1.0
    ensures GuardedClash([booking, cancel, booking, booking])
  {
    ThreeGuarded(booking, cancel, t);
    OneInstant(booking, t);
    OneInstant(cancel, t);
    RebookCollides([booking, cancel, booking], 1, 2, t, booking);
    FourOf(booking, cancel);
  }

  lemma FourOf<T>(x: T, y: T)
    ensures [x, y, x][..3] + [x] == [x, y, x, x]
  {
  }

  lemma ThreeGuarded(booking: Movement, cancel: Movement, t: int)
    requires booking.when == cancel.when == During(t, t + 1, None)
    requires booking.delta == -1.0 && cancel.delta == 1.0
    ensures Guarded([booking, cancel, booking])
  {
    var one, two := [booking], [booking, cancel];
    GuardedNext([], booking);
    assert [] + [booking] == one;
    GuardedNext(one, cancel);
    assert one + [cancel] == two;
    OneInstant(cancel, t);
    GuardedAgain(two, cancel, booking, t);
    assert two + [booking] == [booking, cancel, booking];
  }

  // ----- the handler -----

  datatype Op = Book | Cancel

  datatype Reply = Recorded | Duplicate | NoOccurrence | Clash(occurrence: Span) | NotOffered(occurrence: Span)
                 | NothingToCancel

  ghost predicate AllFree(offered: Interval, scheduled: Interval, wanted: Interval) {
    forall t :: Covers(wanted, t) ==> Covers(offered, t) && !Covers(scheduled, t)
  }

  ghost predicate Overlap(x: Interval, y: Interval) {
    exists t :: Covers(x, t) && Covers(y, t)
  }

  lemma AllFreeBySpan(offered: Interval, scheduled: Interval, wanted: Interval)
    requires Canonical(offered) && Canonical(scheduled)
    ensures AllFree(offered, scheduled, wanted) <==>
              forall i :: 0 <= i < |wanted| ==> IsFree(offered, scheduled, wanted[i].lower, wanted[i].upper)
  {
    if AllFree(offered, scheduled, wanted) {
      forall i | 0 <= i < |wanted| ensures IsFree(offered, scheduled, wanted[i].lower, wanted[i].upper) {
        assert forall t :: wanted[i].lower <= t < wanted[i].upper ==> Holds(wanted[i], t) && Covers(wanted, t);
      }
    }
  }

  /** The reply names an occurrence and why it cannot be booked: someone holds part of it, or part of
      it is not offered. */
  ghost predicate Justified(offered: Interval, scheduled: Interval, refusal: Reply) {
    match refusal
    case Clash(occ) => exists t :: Holds(occ, t) && Covers(scheduled, t)
    case NotOffered(occ) => exists t :: Holds(occ, t) && !Covers(offered, t)
    case _ => false
  }

  lemma WhyNotFree(offered: Interval, scheduled: Interval, occ: Span)
    requires Canonical(offered) && Canonical(scheduled)
    requires !IsFree(offered, scheduled, occ.lower, occ.upper)
    ensures Justified(offered, scheduled,
                      if DoubleBook(scheduled, occ.lower, occ.upper) then Clash(occ) else NotOffered(occ))
  {
    if DoubleBook(scheduled, occ.lower, occ.upper) {
      var t :| occ.lower <= t < occ.upper && Covers(scheduled, t);
      assert Holds(occ, t);
    } else {
      var t :| occ.lower <= t < occ.upper && !Covers(offered, t);
      assert Holds(occ, t);
    }
  }

  /** The guard runs per occurrence and stops at the first that fails. */
  method CheckOccurrences(offered: Interval, scheduled: Interval, wanted: Interval) returns (refusal: Option<Reply>)
    requires Canonical(offered) && Canonical(scheduled)
    ensures refusal.None? <==> AllFree(offered, scheduled, wanted)
    ensures refusal.Some? ==> Justified(offered, scheduled, refusal.value)
  {
    AllFreeBySpan(offered, scheduled, wanted);
    var n := FirstBusy(offered, scheduled, wanted);
    if n == |wanted| {
      return None;
    }
    WhyNotFree(offered, scheduled, wanted[n]);
    return Some(if DoubleBook(scheduled, wanted[n].lower, wanted[n].upper) then Clash(wanted[n])
                else NotOffered(wanted[n]));
  }

  method FirstBusy(offered: Interval, scheduled: Interval, wanted: Interval) returns (n: nat)
    requires Canonical(offered) && Canonical(scheduled)
    ensures n <= |wanted| && forall k :: 0 <= k < n ==> IsFree(offered, scheduled, wanted[k].lower, wanted[k].upper)
    ensures n < |wanted| ==> !IsFree(offered, scheduled, wanted[n].lower, wanted[n].upper)
  {
    n := 0;
    while n < |wanted| && IsFree(offered, scheduled, wanted[n].lower, wanted[n].upper)
      invariant n <= |wanted|
      invariant forall k :: 0 <= k < n ==> IsFree(offered, scheduled, wanted[k].lower, wanted[k].upper)
    {
      n := n + 1;
    }
  }

  /** What the handler asks of a request before it records it. */
  ghost predicate Admissible(log: seq<Movement>, offered: Interval, op: Op, wanted: Interval, id: Option<string>) {
    && (id.None? || forall m :: m in log ==> m.movementId != id)
    && wanted != []
    && match op
       case Book => AllFree(offered, Consumed(log), wanted)
       case Cancel => Overlap(wanted, Consumed(log))
  }

  function MovementFor(item: string, op: Op, when: When, source: string): Movement {
    Movement(item, None, if op == Book then -1.0 else 1.0, source, when, None)
  }

  /** The handler's decision: no refusal exactly for an admissible request, and a refused booking names
      an occurrence that failed. */
  method Decide(log: seq<Movement>, offered: Interval, op: Op, when: When, id: Option<string>)
    returns (refusal: Option<Reply>)
    requires Canonical(offered) && when.During?
    ensures refusal.None? <==> Admissible(log, offered, op, Spans(when), id)
    ensures refusal.Some? ==> refusal.value != Recorded
    ensures refusal.Some? && (refusal.value.Clash? || refusal.value.NotOffered?) ==>
              op == Book && Justified(offered, Consumed(log), refusal.value)
  {
    if id.Some? && exists m :: m in log && m.movementId == id {
      return Some(Duplicate);
    }
    ConsumedCovers(log);
    var scheduled := FoldConsumed(log);
    var wanted := Spans(when);
    if wanted == [] {
      return Some(NoOccurrence);
    }
    match op {
      case Book =>
        refusal := CheckOccurrences(offered, scheduled, wanted);
      case Cancel =>
        IntersectionCovers(wanted, scheduled);
        EmptyCoversNothing(Intersection(wanted, scheduled));
        refusal := if Intersection(wanted, scheduled) == [] then Some(NothingToCancel) else None;
    }
  }

  /** A request, with the id it was given, if any, beside the fresh one that would stand in for it. */
  datatype Request = Request(op: Op, when: When, id: Option<string>, freshId: string, source: string)

  function RowFor(item: string, req: Request): Row {
    ToRow(MovementFor(item, req.op, req.when, req.source), if req.id.Some? then req.id.value else req.freshId)
  }

  /** What the item's rule opens over a window, from its start to its end. */
  type Offer = (int, int) -> Interval

  /** The handler's question of a request: is it new, does it open an occurrence, and is it free in every occurrence
      (a booking) or does it touch what is booked (a cancel)? */
  ghost predicate Allowed(offer: Offer, seen: seq<Row>, req: Request) {
    req.when.During?
    && Admissible(Rebuilt(seen), offer(req.when.start, req.when.end), req.op, Spans(req.when), req.id)
  }

  /** What a request may make of a partition: a new row exactly when it is allowed, and any other reply leaves the
      partition as it was. */
  ghost predicate Handled(offer: Offer, item: string, before: seq<Row>, req: Request, reply: Reply, after: seq<Row>) {
    && req.when.During?
    && (reply == Recorded <==> Allowed(offer, before, req))
    && (reply == Recorded ==> !HasKey(before, RowFor(item, req)) && after == PutNew(before, RowFor(item, req)))
    && (reply != Recorded ==> after == before)
    && (reply.Clash? || reply.NotOffered? ==>
          req.op == Book
          && Justified(offer(req.when.start, req.when.end), Consumed(Rebuilt(before)), reply))
  }

  /** book and cancel, with an interval or a rule. */
  method HandleReserve(table: MovementTable, item: string, offer: Offer, req: Request, pageSize: nat)
    returns (reply: Reply)
    requires table.Valid() && pageSize > 0 && req.when.During? && Canonical(offer(req.when.start, req.when.end))
    requires forall m :: m in Rebuilt(table.Partition(item)) ==> m.movementId != Some(req.freshId)
    modifies table
    ensures table.Valid()
    ensures Handled(offer, item, old(table.Partition(item)), req, reply, table.Partition(item))
    ensures forall other :: other != item ==> table.Partition(other) == old(table.Partition(other))
  {
    var log := table.Read(item, pageSize);
    var refusal := Decide(log, offer(req.when.start, req.when.end), req.op, req.when, req.id);
    if refusal.Some? {
      return refusal.value;
    }
    var mv := MovementFor(item, req.op, req.when, req.source);
    var newId := if req.id.Some? then req.id.value else req.freshId;
    IdIsNew(table.Partition(item), ToRow(mv, newId));
    var _ := table.Append(mv, newId);
    reply := Recorded;
  }

  lemma IdIsNew(p: seq<Row>, row: Row)
    requires forall m :: m in Rebuilt(p) ==> m.movementId != Some(row.movementId)
    ensures !HasKey(p, row)
  {
    forall i | 0 <= i < |p| ensures !SameKey(p[i], row) {
      assert Rebuilt(p)[i] in Rebuilt(p);
    }
  }
}
