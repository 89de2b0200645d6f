/** The one-shot review ticket, modules/automation/lambdas/_reviews.py, and the approvers that race for it,
    modules/automation/lambdas/approve_automation/main.py. */
module Reviews {
  import opened Common

  const PASS := "approve"

  datatype Review = Review(kind: string, version: string, verdict: string, createdAt: int,
                           spendableUntil: Option<int>, consumedAt: Option<int>)

  /** One review of one script. */
  datatype Key = Key(script: string, ticket: string)

  type Table = map<Key, Review>

  function Recorded(kind: string, version: string, verdict: string, now: int, window: int): Review {
    Review(kind, version, verdict, now, if verdict == PASS then Some(now + window) else None, None)
  }

  /** The condition of the spend's update. */
  predicate Spendable(table: Table, key: Key, kind: string, version: string, now: int) {
    key in table
    && var r := table[key];
       r.consumedAt.None? && r.verdict == PASS && r.kind == kind && r.version == version
       && r.spendableUntil.Some? && r.spendableUntil.value > now
  }

  function Spent(table: Table, key: Key, now: int): Table
    requires key in table
  {
    table[key := table[key].(consumedAt := Some(now))]
  }

  function Released(table: Table, key: Key): Table {
    if key in table then table[key := table[key].(consumedAt := None)] else table
  }

  class ReviewTable {
    const window: int
    var rows: Table

    constructor (window: int)
      ensures rows == map[] && this.window == window
    {
      this.window := window;
      rows := map[];
    }

    /** record(): every review is kept, and only a pass is a ticket. */
    method Record(script: string, id: string, kind: string, version: string, verdict: string, now: int)
      returns (ticket: Option<string>)
      modifies this
      ensures rows == old(rows)[Key(script, id) := Recorded(kind, version, verdict, now, window)]
      ensures ticket == if verdict == PASS then Some(id) else None
    {
      rows := rows[Key(script, id) := Recorded(kind, version, verdict, now, window)];
      ticket := if verdict == PASS then Some(id) else None;
    }

    /** spend(): one conditional update. */
    method Spend(script: string, ticket: string, kind: string, version: string, now: int) returns (ok: bool)
      modifies this
      ensures ok == (ticket != "" && Spendable(old(rows), Key(script, ticket), kind, version, now))
      ensures rows == if ok then Spent(old(rows), Key(script, ticket), now) else old(rows)
      ensures ok ==> !Spendable(rows, Key(script, ticket), kind, version, now)
    {
      var key := Key(script, ticket);
      if ticket == "" || !Spendable(rows, key, kind, version, now) {
        return false;
      }
      rows := Spent(rows, key, now);
      return true;
    }

    /** release(): the binding is left as it was. */
    method Release(script: string, ticket: string)
      modifies this
      ensures rows == Released(old(rows), Key(script, ticket))
    {
      if Key(script, ticket) in rows {
        rows := rows[Key(script, ticket) := rows[Key(script, ticket)].(consumedAt := None)];
      }
    }
  }

  // ----- approvers -----

  /** Where an approval stands: the staged version read, the ticket spent, and then the copy done, failed
      with the ticket to give back, or nothing left to copy. */
  datatype Phase = Idle | Seen(version: string) | Holding(version: string, at: int) | Finished(version: string, at: int)
                 | Failing(version: string, at: int) | Missing(version: string, at: int) | Over

  datatype Approver = Approver(key: Key, kind: string, phase: Phase)

  /** A script written under the approved prefix: who wrote it, the version whose bytes they are, and whether the
      write was seen to go through. */
  datatype Approval = Approval(author: nat, key: Key, kind: string, copied: string, completed: bool)

  datatype World = World(table: Table, staged: map<string, string>, approvers: seq<Approver>, approvals: seq<Approval>)

  datatype Step =
    | Record(key: Key, kind: string, version: string, verdict: string, now: int)
    | Stage(script: string, version: string)
    | Head(who: nat)
    | Spend(who: nat, now: int)
    | Copy(who: nat)
    | CopyFails(who: nat, wrote: bool)
    | CopyMissing(who: nat)
    | Release(who: nat)

  function Enter(w: World, i: nat, phase: Phase): World
    requires i < |w.approvers|
  {
    w.(approvers := w.approvers[i := w.approvers[i].(phase := phase)])
  }

  function Written(w: World, i: nat, completed: bool): Approval
    requires i < |w.approvers| && w.approvers[i].key.script in w.staged
  {
    var p := w.approvers[i];
    Approval(i, p.key, p.kind, w.staged[p.key.script], completed)
  }

  /** One atomic step of one approver, or of a review or an author beside them; a step that is not due
      changes nothing. Review ids and version ids are fresh. */
  function Perform(w: World, step: Step, window: int): World {
    match step
    case Record(key, kind, version, verdict, now) =>
      if key in w.table then w else w.(table := w.table[key := Recorded(kind, version, verdict, now, window)])
    case Stage(script, version) => w.(staged := w.staged[script := version])
    case Head(i) =>
      if i < |w.approvers| && w.approvers[i].phase.Idle?
      then Enter(w, i, if w.approvers[i].key.script in w.staged then Seen(w.staged[w.approvers[i].key.script])
                 else Over)
      else w
    case Spend(i, now) =>
      if i < |w.approvers| && w.approvers[i].phase.Seen? then
        var p := w.approvers[i];
        if p.key.ticket != "" && Spendable(w.table, p.key, p.kind, p.phase.version, now)
        then Enter(w, i, Holding(p.phase.version, now)).(table := Spent(w.table, p.key, now))
        else Enter(w, i, Over)
      else w
    case Copy(i) =>
      if i < |w.approvers| && w.approvers[i].phase.Holding? && w.approvers[i].key.script in w.staged then
        var finished := Enter(w, i, Finished(w.approvers[i].phase.version, w.approvers[i].phase.at));
        finished.(approvals := w.approvals + [Written(w, i, true)])
      else w
    case CopyFails(i, wrote) =>
      if i < |w.approvers| && w.approvers[i].phase.Holding? then
        var failing := Enter(w, i, Failing(w.approvers[i].phase.version, w.approvers[i].phase.at));
        if wrote && w.approvers[i].key.script in w.staged
          then failing.(approvals := w.approvals + [Written(w, i, false)]) else failing
      else w
    case CopyMissing(i) =>
      if i < |w.approvers| && w.approvers[i].phase.Holding?
      then Enter(w, i, Missing(w.approvers[i].phase.version, w.approvers[i].phase.at)) else w
    case Release(i) =>
      if i < |w.approvers| && w.approvers[i].phase.Failing?
      then Enter(w, i, Over).(table := Released(w.table, w.approvers[i].key)) else w
  }

  function Run(w: World, steps: seq<Step>, window: int): World {
    if steps == [] then w else Perform(Run(w, steps[..|steps| - 1], window), steps[|steps| - 1], window)
  }

  // ----- the invariant -----

  /** The approver has spent the ticket and not given it back. */
  predicate Holds(p: Approver) {
    p.phase.Holding? || p.phase.Finished? || p.phase.Failing? || p.phase.Missing?
  }

  /** The review is consumed, was a pass of this kind and of the version seen, and was spent in its window. */
  predicate Bound(table: Table, p: Approver)
    requires Holds(p)
  {
    p.key in table
    && var r := table[p.key];
       r.verdict == PASS && r.kind == p.kind && r.version == p.phase.version && r.consumedAt == Some(p.phase.at)
       && r.spendableUntil.Some? && p.phase.at < r.spendableUntil.value
  }

  ghost predicate HoldersBound(w: World) {
    forall i :: 0 <= i < |w.approvers| && Holds(w.approvers[i]) ==> Bound(w.table, w.approvers[i])
  }

  ghost predicate HoldersApart(w: World) {
    forall i, j :: 0 <= i < j < |w.approvers| && Holds(w.approvers[i]) && Holds(w.approvers[j]) ==>
      w.approvers[i].key != w.approvers[j].key
  }

  /** Every completed approval was written by an approver that finished, one each. */
  ghost predicate Finishers(w: World) {
    && (forall k :: 0 <= k < |w.approvals| && w.approvals[k].completed ==>
          var a := w.approvals[k];
          a.author < |w.approvers| && w.approvers[a.author].phase.Finished?
          && a.key == w.approvers[a.author].key && a.kind == w.approvers[a.author].kind)
    && (forall k, l :: 0 <= k < l < |w.approvals| && w.approvals[k].completed && w.approvals[l].completed ==>
          w.approvals[k].author != w.approvals[l].author)
  }

  ghost predicate Safe(w: World) {
    HoldersBound(w) && HoldersApart(w) && Finishers(w)
  }

  lemma SpendSafe(w: World, i: nat, now: int, window: int)
    requires Safe(w)
    ensures Safe(Perform(w, Spend(i, now), window))
  {
    if i < |w.approvers| && w.approvers[i].phase.Seen? {
      var p := w.approvers[i];
      if p.key.ticket != "" && Spendable(w.table, p.key, p.kind, p.phase.version, now) {
        assert forall j :: 0 <= j < |w.approvers| && Holds(w.approvers[j]) ==> w.approvers[j].key != p.key;
      }
    }
  }

  lemma ReleaseSafe(w: World, i: nat, window: int)
    requires Safe(w)
    ensures Safe(Perform(w, Release(i), window))
  {
    if i < |w.approvers| && w.approvers[i].phase.Failing? {
      assert forall j :: 0 <= j < |w.approvers| && j != i && Holds(w.approvers[j]) ==>
        w.approvers[j].key != w.approvers[i].key;
    }
  }

  lemma CopySafe(w: World, i: nat, window: int)
    requires Safe(w)
    ensures Safe(Perform(w, Copy(i), window))
  {
    if i < |w.approvers| && w.approvers[i].phase.Holding? && w.approvers[i].key.script in w.staged {
      var next := Perform(w, Copy(i), window);
      assert forall k :: 0 <= k < |w.approvals| ==> next.approvals[k] == w.approvals[k];
    }
  }

  lemma CopyFailsSafe(w: World, i: nat, wrote: bool, window: int)
    requires Safe(w)
    ensures Safe(Perform(w, CopyFails(i, wrote), window))
  {
    if i < |w.approvers| && w.approvers[i].phase.Holding? {
      var next := Perform(w, CopyFails(i, wrote), window);
      assert forall k :: 0 <= k < |w.approvals| ==> next.approvals[k] == w.approvals[k];
    }
  }

  lemma RecordSafe(w: World, key: Key, kind: string, version: string, verdict: string, now: int, window: int)
    requires Safe(w)
    ensures Safe(Perform(w, Record(key, kind, version, verdict, now), window))
  {
  }

  lemma EnterSafe(w: World, step: Step, window: int)
    requires Safe(w)
    requires step.Stage? || step.Head? || step.CopyMissing?
    ensures Safe(Perform(w, step, window))
  {
  }

  lemma StepSafe(w: World, step: Step, window: int)
    requires Safe(w)
    ensures Safe(Perform(w, step, window))
  {
    match step
    case Spend(i, now) => SpendSafe(w, i, now, window);
    case Release(i) => ReleaseSafe(w, i, window);
    case Copy(i) => CopySafe(w, i, window);
    case CopyFails(i, wrote) => CopyFailsSafe(w, i, wrote, window);
    case Record(key, kind, version, verdict, now) => RecordSafe(w, key, kind, version, verdict, now, window);
    case _ => EnterSafe(w, step, window);
  }

  /** No approver has begun, whatever reviews and staged scripts there are. */
  predicate Starting(w: World) {
    w.approvals == [] && forall i :: 0 <= i < |w.approvers| ==> w.approvers[i].phase.Idle?
  }

  lemma {:induction false} RunSafe(w: World, steps: seq<Step>, window: int)
    requires Starting(w)
    ensures Safe(Run(w, steps, window))
  {
    if steps != [] {
      RunSafe(w, steps[..|steps| - 1], window);
      StepSafe(Run(w, steps[..|steps| - 1], window), steps[|steps| - 1], window);
    }
  }

  /** The review of an approval, as the table has it. */
  ghost predicate Justified(w: World, a: Approval) {
    a.author < |w.approvers| && a.key in w.table && w.approvers[a.author].phase.Finished?
    && var p, r := w.approvers[a.author], w.table[a.key];
       && p.key == a.key && r.verdict == PASS && r.kind == p.kind == a.kind && r.version == p.phase.version
       && r.consumedAt == Some(p.phase.at) && r.spendableUntil.Some? && p.phase.at < r.spendableUntil.value
  }

  ghost predicate CompletedJustified(w: World) {
    forall k :: 0 <= k < |w.approvals| && w.approvals[k].completed ==> Justified(w, w.approvals[k])
  }

  /** Of two approvals on one ticket, one was by a copy that failed. */
  ghost predicate OneCompletedEach(w: World) {
    forall k, l :: 0 <= k < l < |w.approvals| && w.approvals[k].completed && w.approvals[l].completed ==>
      w.approvals[k].key != w.approvals[l].key
  }

  lemma SafeJustifies(w: World)
    requires Safe(w)
    ensures OneCompletedEach(w) && CompletedJustified(w)
  {
    forall k, l | 0 <= k < l < |w.approvals| && w.approvals[k].completed && w.approvals[l].completed
      ensures w.approvals[k].key != w.approvals[l].key
    {
      var x, y := w.approvals[k].author, w.approvals[l].author;
      assert x != y && Holds(w.approvers[x]) && Holds(w.approvers[y]);
    }
  }

  /** Under any interleaving of reviews, staged writes and approvers, whose copies finish, fail before or after
      writing, or find nothing, a ticket is behind at most one completed approval, and that one matches a review
      that passed, of its script and kind and of the version the approver saw, spent inside its window. */
  lemma OneApprovalPerTicket(w: World, steps: seq<Step>, window: int)
    requires Starting(w)
    ensures OneCompletedEach(Run(w, steps, window)) && CompletedJustified(Run(w, steps, window))
  {
    RunSafe(w, steps, window);
    SafeJustifies(Run(w, steps, window));
  }

  /** The step writes under the approved prefix. */
  predicate Writes(w: World, step: Step) {
    (step.Copy? || (step.CopyFails? && step.wrote)) && step.who < |w.approvers|
    && w.approvers[step.who].phase.Holding? && w.approvers[step.who].key.script in w.staged
  }

  /** A step appends the approval it writes, if it writes one. */
  lemma WritesOne(w: World, step: Step, window: int)
    ensures Perform(w, step, window).approvals ==
              w.approvals + (if Writes(w, step) then [Written(w, step.who, step.Copy?)] else [])
  {
    Nothing(w.approvals);
  }

  /** The step is a copy that fails after it wrote. */
  predicate Dirties(w: World, step: Step) {
    step.CopyFails? && Writes(w, step)
  }

  ghost predicate EachClean(w: World, steps: seq<Step>, window: int) {
    steps == [] || (EachClean(w, steps[..|steps| - 1], window)
                    && !Dirties(Run(w, steps[..|steps| - 1], window), steps[|steps| - 1]))
  }

  predicate GivesUp(p: Approver) {
    p.phase.Failing? || p.phase.Over?
  }

  /** Who wrote an approval that was not seen to go through gives its ticket back, and never finishes. */
  ghost predicate OthersGiveUp(w: World) {
    forall k :: 0 <= k < |w.approvals| && !w.approvals[k].completed ==>
      w.approvals[k].author < |w.approvers| && GivesUp(w.approvers[w.approvals[k].author])
  }

  ghost predicate AllCompleted(w: World) {
    forall k :: 0 <= k < |w.approvals| ==> w.approvals[k].completed
  }

  lemma GivenUpForGood(w: World, step: Step, window: int, i: nat)
    requires i < |w.approvers| && (GivesUp(w.approvers[i]) || (Dirties(w, step) && step.who == i))
    ensures var next := Perform(w, step, window); i < |next.approvers| && GivesUp(next.approvers[i])
  {
  }

  lemma StepGivesUp(w: World, step: Step, window: int)
    requires OthersGiveUp(w)
    ensures OthersGiveUp(Perform(w, step, window))
  {
    var next := Perform(w, step, window);
    WritesOne(w, step, window);
    forall k | 0 <= k < |next.approvals| && !next.approvals[k].completed
      ensures next.approvals[k].author < |next.approvers| && GivesUp(next.approvers[next.approvals[k].author])
    {
      GivenUpForGood(w, step, window, next.approvals[k].author);
    }
  }

  lemma StepCompletes(w: World, step: Step, window: int)
    ensures AllCompleted(Perform(w, step, window)) <==> AllCompleted(w) && !Dirties(w, step)
  {
    var next := Perform(w, step, window);
    WritesOne(w, step, window);
    assert forall k :: 0 <= k < |w.approvals| ==> next.approvals[k] == w.approvals[k];
    if Dirties(w, step) {
      assert !next.approvals[|w.approvals|].completed;
    }
  }

  lemma {:induction false} RunCompletes(w: World, steps: seq<Step>, window: int)
    requires Starting(w)
    ensures OthersGiveUp(Run(w, steps, window))
    ensures AllCompleted(Run(w, steps, window)) <==> EachClean(w, steps, window)
  {
    if steps != [] {
      RunCompletes(w, steps[..|steps| - 1], window);
      StepGivesUp(Run(w, steps[..|steps| - 1], window), steps[|steps| - 1], window);
      StepCompletes(Run(w, steps[..|steps| - 1], window), steps[|steps| - 1], window);
    }
  }

  /** No ticket is behind two approvals. */
  ghost predicate OneEach(w: World) {
    forall k, l :: 0 <= k < l < |w.approvals| ==> w.approvals[k].key != w.approvals[l].key
  }

  ghost predicate AllJustified(w: World) {
    forall k :: 0 <= k < |w.approvals| ==> Justified(w, w.approvals[k])
  }

  lemma JustifiedAreCompleted(w: World)
    requires OthersGiveUp(w) && CompletedJustified(w)
    ensures AllJustified(w) <==> AllCompleted(w)
  {
  }

  /** Every approval there is, completed or not, is the one of its ticket and answers to a review spent for it
      exactly when no copy of the run failed after it wrote. */
  lemma CleanIff(w: World, steps: seq<Step>, window: int)
    requires Starting(w)
    ensures AllJustified(Run(w, steps, window)) <==> EachClean(w, steps, window)
    ensures EachClean(w, steps, window) ==> OneEach(Run(w, steps, window))
  {
    OneApprovalPerTicket(w, steps, window);
    RunCompletes(w, steps, window);
    JustifiedAreCompleted(Run(w, steps, window));
  }

  /** A recorded review keeps its verdict, kind, version and window for good. */
  lemma {:induction false} ReviewsStand(w: World, steps: seq<Step>, window: int, key: Key)
    requires key in w.table
    ensures var end := Run(w, steps, window);
            key in end.table && end.table[key] == w.table[key].(consumedAt := end.table[key].consumedAt)
  {
    if steps != [] {
      ReviewsStand(w, steps[..|steps| - 1], window, key);
    }
  }

  // ----- a failed copy that wrote -----

  lemma RunSnoc(w: World, steps: seq<Step>, step: Step, window: int)
    ensures Run(w, steps + [step], window) == Perform(Run(w, steps, window), step, window)
  {
    Cut(steps, [step]);
  }

  /** Two approvers see a script; the first spends the ticket, and its copy fails after writing. */
  function Rivals(): seq<Step> {
    [Head(0), Head(1), Spend(0, 0)] + [CopyFails(0, true)] + [Release(0)]
  }

  predicate Rivalry(w: World) {
    && Starting(w) && |w.approvers| == 2
    && w.approvers[0].key == w.approvers[1].key && w.approvers[0].kind == w.approvers[1].kind
    && var p := w.approvers[0];
       p.key.ticket != "" && p.key.script in w.staged && Spendable(w.table, p.key, p.kind, w.staged[p.key.script], 0)
  }

  /** Both have seen the staged version and the first holds the ticket. */
  lemma FirstHolds(w: World, window: int) returns (b: World)
    requires Rivalry(w)
    ensures var p := w.approvers[0];
            var seen := w.staged[p.key.script];
            && Run(w, [Head(0), Head(1), Spend(0, 0)], window) == b
            && b == World(Spent(w.table, p.key, 0), w.staged,
                          [p.(phase := Holding(seen, 0)), w.approvers[1].(phase := Seen(seen))], [])
  {
    var a := Perform(Perform(w, Head(0), window), Head(1), window);
    b := Perform(a, Spend(0, 0), window);
    RunThree(w, Head(0), Head(1), Spend(0, 0), window);
  }

  lemma FailsAndReleases(b: World, i: nat, window: int)
    requires i < |b.approvers| && b.approvers[i].phase.Holding? && b.approvers[i].key.script in b.staged
    ensures var d := Perform(Perform(b, CopyFails(i, true), window), Release(i), window);
            && d.staged == b.staged && d.approvals == b.approvals + [Written(b, i, false)]
            && d.approvers == b.approvers[i := b.approvers[i].(phase := Over)]
            && d.table == Released(b.table, b.approvers[i].key)
  {
  }

  lemma RivalsRun(w: World, window: int)
    requires Rivalry(w)
    ensures var c := Run(w, Rivals(), window);
            var p := w.approvers[0];
            && |c.approvers| == 2 && c.staged == w.staged && c.approvers[1].key == p.key
              && c.approvers[1].kind == p.kind
            && c.approvers[1].phase == Seen(w.staged[p.key.script]) && |c.approvals| == 1 && c.approvals[0].key == p.key
            && Spendable(c.table, p.key, p.kind, w.staged[p.key.script], 0)
  {
    var b := FirstHolds(w, window);
    FailsAndReleases(b, 0, window);
    RunSnoc(w, [Head(0), Head(1), Spend(0, 0)], CopyFails(0, true), window);
    RunSnoc(w, [Head(0), Head(1), Spend(0, 0)] + [CopyFails(0, true)], Release(0), window);
  }

  /** The hypothesis is needed: when a copy fails after it wrote, the ticket is given back all the same and a
      second approver completes on it. */
  lemma WroteThenFailed(w: World, window: int)
    requires Rivalry(w)
    ensures var end := Run(w, Rivals() + [Spend(1, 0)] + [Copy(1)], window);
            |end.approvals| == 2 && end.approvals[0].key == end.approvals[1].key
  {
    RivalsRun(w, window);
    RunSnoc(w, Rivals(), Spend(1, 0), window);
    RunSnoc(w, Rivals() + [Spend(1, 0)], Copy(1), window);
  }

  lemma RunThree(w: World, x: Step, y: Step, z: Step, window: int)
    ensures Run(w, [x, y, z], window) == Perform(Perform(Perform(w, x, window), y, window), z, window)
  {
    RunSnoc(w, [], x, window);
    RunSnoc(w, [x], y, window);
    RunSnoc(w, [x, y], z, window);
    assert [] + [x] == [x] && [x] + [y] == [x, y] && [x, y] + [z] == [x, y, z];
  }

  // ----- the bytes that are copied -----

  /** A copy finds staged what its approver saw: the comparison that a caller could make before it, and the
      approver does not. */
  predicate CopiesSeen(w: World, step: Step) {
    Writes(w, step) ==> w.staged[w.approvers[step.who].key.script] == w.approvers[step.who].phase.version
  }

  ghost predicate EachSeen(w: World, steps: seq<Step>, window: int) {
    steps == [] || (EachSeen(w, steps[..|steps| - 1], window)
                    && CopiesSeen(Run(w, steps[..|steps| - 1], window), steps[|steps| - 1]))
  }

  /** The bytes of an approval are those of the version that its review is of. */
  predicate OfReviewed(table: Table, a: Approval) {
    a.key in table && a.copied == table[a.key].version
  }

  ghost predicate AsReviewed(w: World) {
    forall k :: 0 <= k < |w.approvals| ==> OfReviewed(w.table, w.approvals[k])
  }

  ghost predicate KeysKept(w: World) {
    forall k :: 0 <= k < |w.approvals| ==> w.approvals[k].key in w.table
  }

  /** A step keeps the reviews there are, with their versions. */
  lemma VersionsStand(w: World, step: Step, window: int)
    ensures var next := Perform(w, step, window);
            forall key :: key in w.table ==> key in next.table && next.table[key].version == w.table[key].version
  {
  }

  /** What a holder writes is of the version reviewed exactly when it is of the version it saw. */
  lemma WritesReviewed(w: World, step: Step, window: int)
    requires HoldersBound(w) && Writes(w, step)
    ensures w.approvers[step.who].key in w.table
    ensures OfReviewed(w.table, Written(w, step.who, step.Copy?)) <==> CopiesSeen(w, step)
  {
    assert Bound(w.table, w.approvers[step.who]);
  }

  lemma SameVersions(before: Table, after: Table, a: Approval)
    requires a.key in before && a.key in after && after[a.key].version == before[a.key].version
    ensures OfReviewed(after, a) <==> OfReviewed(before, a)
  {
  }

  lemma AllOfReviewed(before: Table, after: Table, approvals: seq<Approval>)
    requires forall key :: key in before ==> key in after && after[key].version == before[key].version
    requires forall k :: 0 <= k < |approvals| ==> approvals[k].key in before
    ensures forall k :: 0 <= k < |approvals| ==>
              approvals[k].key in after && (OfReviewed(after, approvals[k]) <==> OfReviewed(before, approvals[k]))
  {
    forall k | 0 <= k < |approvals|
      ensures approvals[k].key in after && (OfReviewed(after, approvals[k]) <==> OfReviewed(before, approvals[k]))
    {
      SameVersions(before, after, approvals[k]);
    }
  }

  lemma StepReviewed(w: World, step: Step, window: int)
    requires HoldersBound(w) && KeysKept(w)
    ensures KeysKept(Perform(w, step, window))
    ensures AsReviewed(Perform(w, step, window)) <==> AsReviewed(w) && CopiesSeen(w, step)
  {
    var next := Perform(w, step, window);
    VersionsStand(w, step, window);
    WritesOne(w, step, window);
    AllOfReviewed(w.table, next.table, w.approvals);
    assert forall k :: 0 <= k < |w.approvals| ==> next.approvals[k] == w.approvals[k];
    if Writes(w, step) {
      var a := Written(w, step.who, step.Copy?);
      WritesReviewed(w, step, window);
      SameVersions(w.table, next.table, a);
      assert next.approvals[|w.approvals|] == a;
    }
  }

  lemma {:induction false} RunReviewed(w: World, steps: seq<Step>, window: int)
    requires Starting(w)
    ensures KeysKept(Run(w, steps, window))
    ensures AsReviewed(Run(w, steps, window)) <==> EachSeen(w, steps, window)
  {
    if steps != [] {
      RunReviewed(w, steps[..|steps| - 1], window);
      RunSafe(w, steps[..|steps| - 1], window);
      StepReviewed(Run(w, steps[..|steps| - 1], window), steps[|steps| - 1], window);
    }
  }

  /** Whatever is reviewed, staged, spent, copied or given back in between, the bytes approved are all of the versions
      reviewed exactly when every copy found staged what its approver had seen. */
  lemma ApprovedIff(w: World, steps: seq<Step>, window: int)
    requires Starting(w)
    ensures AsReviewed(Run(w, steps, window)) <==> EachSeen(w, steps, window)
  {
    RunReviewed(w, steps, window);
  }

  /** Another version staged after the ticket is spent is the one that is approved. */
  lemma StagedInBetween(w: World, version: string, window: int)
    requires Starting(w) && |w.approvers| == 1
    requires var p := w.approvers[0];
             p.key.ticket != "" && p.key.script in w.staged && version != w.staged[p.key.script]
             && Spendable(w.table, p.key, p.kind, w.staged[p.key.script], 0)
    ensures var script := w.approvers[0].key.script;
            !AsReviewed(Run(w, [Head(0), Spend(0, 0), Stage(script, version)] + [Copy(0)], window))
  {
    var script := w.approvers[0].key.script;
    var steps := [Head(0), Spend(0, 0), Stage(script, version)];
    RunThree(w, Head(0), Spend(0, 0), Stage(script, version), window);
    Cut(steps, [Copy(0)]);
    ApprovedIff(w, steps + [Copy(0)], window);
  }
}
