/** The task store, modules/tasks/lambdas/_helpers.py: the parent-cycle check, the structure it keeps
    acyclic, and the delivery ratchet. */
module Tasks {
  import opened Common

  type TaskId = string

  /** The parents each stored task names; a task with no header has none. */
  type Parents = map<TaskId, seq<TaskId>>

  function ParentsOf(store: Parents, t: TaskId): seq<TaskId> {
    if t in store then store[t] else []
  }

  // ----- paths of stored parent edges -----

  ghost predicate IsPath(store: Parents, path: seq<TaskId>) {
    && path != []
    && forall i :: 0 <= i < |path| - 1 ==> path[i + 1] in ParentsOf(store, path[i])
  }

  /** A path of n edges leads from one of the starts to t. */
  ghost predicate Leads(store: Parents, starts: seq<TaskId>, t: TaskId, n: nat) {
    exists path :: IsPath(store, path) && |path| == n + 1 && path[0] in starts && path[n] == t
  }

  ghost predicate Reaches(store: Parents, starts: seq<TaskId>, t: TaskId) {
    exists n: nat :: Leads(store, starts, t, n)
  }

  /** No path of one or more edges returns to where it began. */
  ghost predicate Acyclic(store: Parents) {
    forall path :: IsPath(store, path) && |path| >= 2 ==> path[0] != path[|path| - 1]
  }

  /** A set of tasks closed under taking parents is never left by a path that begins in it. */
  lemma {:induction false} ClosedHolds(store: Parents, s: set<TaskId>, path: seq<TaskId>, i: nat)
    requires IsPath(store, path) && i < |path| && path[0] in s
    requires forall t, p :: t in s && p in ParentsOf(store, t) ==> p in s
    ensures path[i] in s
  {
    if i > 0 {
      ClosedHolds(store, s, path, i - 1);
    }
  }

  lemma LeadsStep(store: Parents, starts: seq<TaskId>, t: TaskId, p: TaskId, n: nat)
    requires Leads(store, starts, t, n) && p in ParentsOf(store, t)
    ensures Leads(store, starts, p, n + 1)
  {
    var path :| IsPath(store, path) && |path| == n + 1 && path[0] in starts && path[n] == t;
    var longer := path + [p];
    assert forall i :: 0 <= i < |longer| - 1 ==> longer[i + 1] in ParentsOf(store, longer[i]);
    assert IsPath(store, longer);
  }

  // ----- check_parent_cycle -----

  datatype Verdict = Clear | Cycle(through: TaskId) | TooDeep

  const DEPTH := 20

  /** The parents of every seen task are seen or still to be visited. */
  ghost predicate Explored(store: Parents, seen: set<TaskId>, open: seq<TaskId>) {
    forall t, p :: t in seen && p in ParentsOf(store, t) ==> p in seen || p in open
  }

  lemma Explore(store: Parents, seen: set<TaskId>, p: TaskId, rest: seq<TaskId>, nxt: seq<TaskId>)
    requires Explored(store, seen, [p] + rest + nxt)
    ensures Explored(store, seen + {p}, rest + (nxt + ParentsOf(store, p)))
    ensures p in seen ==> Explored(store, seen, rest + nxt)
  {
  }

  ghost predicate AllLead(store: Parents, starts: seq<TaskId>, ts: seq<TaskId>, n: nat) {
    forall t :: t in ts ==> Leads(store, starts, t, n)
  }

  /** One level of the walk: every task of the frontier is seen, its parents make the next frontier.
      It stops when it meets the task itself. */
  method Expand(store: Parents, task: TaskId, frontier: seq<TaskId>, was: set<TaskId>, ghost starts: seq<TaskId>,
                ghost n: nat)
    returns (seen: set<TaskId>, nxt: seq<TaskId>, met: bool)
    requires task !in was && Explored(store, was, frontier) && AllLead(store, starts, frontier, n)
    ensures met <==> task in frontier
    ensures !met ==> was <= seen && task !in seen && forall t :: t in frontier ==> t in seen
    ensures !met ==> Explored(store, seen, nxt) && AllLead(store, starts, nxt, n + 1)
  {
    seen, nxt, met := was, [], false;
    assert frontier[0..] + nxt == frontier;
    for k := 0 to |frontier|
      invariant was <= seen && task !in seen
      invariant forall i :: 0 <= i < k ==> frontier[i] in seen
      invariant Explored(store, seen, frontier[k..] + nxt)
      invariant AllLead(store, starts, nxt, n + 1)
    {
      var p := frontier[k];
      assert frontier[k..] == [p] + frontier[k + 1..];
      if p == task {
        met := true;
        return;
      }
      Explore(store, seen, p, frontier[k + 1..], nxt);
      if p in seen {
        continue;
      }
      LeadOn(store, starts, p, n);
      seen := seen + {p};
      nxt := nxt + ParentsOf(store, p);
    }
    assert frontier[|frontier|..] + nxt == nxt;
  }

  lemma LeadOn(store: Parents, starts: seq<TaskId>, p: TaskId, n: nat)
    requires Leads(store, starts, p, n)
    ensures AllLead(store, starts, ParentsOf(store, p), n + 1)
  {
    forall q | q in ParentsOf(store, p) ensures Leads(store, starts, q, n + 1) {
      LeadsStep(store, starts, p, q, n);
    }
  }

  lemma NothingLeads(store: Parents, starts: seq<TaskId>, task: TaskId, seen: set<TaskId>)
    requires (forall t :: t in starts ==> t in seen) && task !in seen && Explored(store, seen, [])
    ensures !Reaches(store, starts, task)
  {
    forall n: nat, path | IsPath(store, path) && |path| == n + 1 && path[0] in starts ensures path[n] != task {
      ClosedHolds(store, seen, path, n);
    }
  }

  lemma StartsLead(store: Parents, starts: seq<TaskId>)
    ensures AllLead(store, starts, starts, 0)
  {
    forall t | t in starts ensures Leads(store, starts, t, 0) {
      assert IsPath(store, [t]);
    }
  }

  lemma LeadsBack(store: Parents, starts: seq<TaskId>, t: TaskId, n: nat) returns (p: TaskId)
    requires Leads(store, starts, t, n + 1)
    ensures Leads(store, starts, p, n) && t in ParentsOf(store, p)
  {
    var path :| IsPath(store, path) && |path| == n + 2 && path[0] in starts && path[n + 1] == t;
    p := path[n];
    assert IsPath(store, path[..n + 1]) && path[..n + 1][n] == p;
  }

  /** Every task that a path of fewer than n edges leads to is seen, and one of n edges is seen or in the frontier. */
  ghost predicate Level(store: Parents, starts: seq<TaskId>, seen: set<TaskId>, frontier: seq<TaskId>, n: nat) {
    forall t, k: nat :: k <= n && Leads(store, starts, t, k) ==> t in seen || (k == n && t in frontier)
  }

  ghost predicate LeadsWithin(store: Parents, starts: seq<TaskId>, t: TaskId, depth: nat) {
    exists n: nat :: n < depth && Leads(store, starts, t, n)
  }

  lemma NotWithin(store: Parents, starts: seq<TaskId>, seen: set<TaskId>, frontier: seq<TaskId>, n: nat, t: TaskId)
    requires Level(store, starts, seen, frontier, n) && t !in seen
    ensures !LeadsWithin(store, starts, t, n)
  {
  }

  lemma NeverWithin(store: Parents, starts: seq<TaskId>, t: TaskId, depth: nat)
    requires !Reaches(store, starts, t)
    ensures !LeadsWithin(store, starts, t, depth)
  {
  }

  lemma FirstLevel(store: Parents, starts: seq<TaskId>)
    ensures Level(store, starts, {}, starts, 0)
  {
  }

  lemma NextLevel(store: Parents, starts: seq<TaskId>, was: set<TaskId>, frontier: seq<TaskId>, seen: set<TaskId>,
                  nxt: seq<TaskId>, n: nat)
    requires Level(store, starts, was, frontier, n) && Explored(store, seen, nxt)
    requires was <= seen && forall t :: t in frontier ==> t in seen
    ensures Level(store, starts, seen, nxt, n + 1)
  {
    forall t, k: nat | k <= n + 1 && Leads(store, starts, t, k) ensures t in seen || (k == n + 1 && t in nxt) {
      if k == n + 1 {
        var p := LeadsBack(store, starts, t, n);
      }
    }
  }

  /** The walk after n levels. */
  ghost predicate Walked(store: Parents, starts: seq<TaskId>, task: TaskId, seen: set<TaskId>, frontier: seq<TaskId>,
                         n: nat) {
    && task !in seen
    && (forall t :: t in starts ==> t in seen || t in frontier)
    && Explored(store, seen, frontier)
    && AllLead(store, starts, frontier, n)
    && Level(store, starts, seen, frontier, n)
  }

  lemma WalkBegins(store: Parents, starts: seq<TaskId>, task: TaskId)
    ensures Walked(store, starts, task, {}, starts, 0)
  {
    StartsLead(store, starts);
    FirstLevel(store, starts);
  }

  lemma WalkEnds(store: Parents, starts: seq<TaskId>, task: TaskId, seen: set<TaskId>, n: nat, depth: nat)
    requires Walked(store, starts, task, seen, [], n)
    ensures !Reaches(store, starts, task) && !LeadsWithin(store, starts, task, depth)
  {
    NothingLeads(store, starts, task, seen);
    NeverWithin(store, starts, task, depth);
  }

  lemma WalkStops(store: Parents, starts: seq<TaskId>, task: TaskId, seen: set<TaskId>, frontier: seq<TaskId>,
                  depth: nat)
    requires Walked(store, starts, task, seen, frontier, depth) && frontier != []
    ensures (exists t :: Leads(store, starts, t, depth)) && !LeadsWithin(store, starts, task, depth)
  {
    assert frontier[0] in frontier && Leads(store, starts, frontier[0], depth);
    NotWithin(store, starts, seen, frontier, depth, task);
  }

  /** One level, unless it meets the task. */
  method Climb(store: Parents, task: TaskId, parents: seq<TaskId>, frontier: seq<TaskId>, was: set<TaskId>,
               ghost n: nat)
    returns (seen: set<TaskId>, nxt: seq<TaskId>, met: bool)
    requires Walked(store, parents, task, was, frontier, n)
    ensures met ==> Leads(store, parents, task, n)
    ensures !met ==> Walked(store, parents, task, seen, nxt, n + 1)
  {
    seen, nxt, met := Expand(store, task, frontier, was, parents, n);
    if !met {
      NextLevel(store, parents, was, frontier, seen, nxt, n);
    }
  }

  /** The bounded breadth-first walk up the parent chains. Cycle means that a stored path of fewer edges than the
      bound leads from the proposed parents to the task, Clear that none of any length does, and TooDeep that none
      so short does but some chain goes on as long as the bound. */
  method CheckParentCycle(store: Parents, task: TaskId, parents: seq<TaskId>, depth: nat) returns (v: Verdict)
    ensures v.Clear? ==> !Reaches(store, parents, task)
    ensures v.Cycle? <==> LeadsWithin(store, parents, task, depth)
    ensures v.Cycle? ==> v.through == task
    ensures v.TooDeep? ==> exists t :: Leads(store, parents, t, depth)
  {
    var frontier := parents;
    var seen: set<TaskId> := {};
    var left := depth;
    WalkBegins(store, parents, task);
    while frontier != [] && left > 0
      invariant 0 <= left <= depth && Walked(store, parents, task, seen, frontier, depth - left)
      decreases left
    {
      var wider, nxt, met := Climb(store, task, parents, frontier, seen, depth - left);
      if met {
        assert LeadsWithin(store, parents, task, depth);
        return Cycle(task);
      }
      left := left - 1;
      seen, frontier := wider, nxt;
    }
    if frontier != [] {
      WalkStops(store, parents, task, seen, frontier, depth);
      return TooDeep;
    }
    WalkEnds(store, parents, task, seen, depth - left, depth);
    v := Clear;
  }

  // ----- checked updates -----

  /** Giving a task new parents that do not lead back to it cannot close a cycle. */
  lemma UpdateStaysAcyclic(store: Parents, task: TaskId, parents: seq<TaskId>)
    requires Acyclic(store) && !Reaches(store, parents, task)
    ensures Acyclic(store[task := parents])
  {
    var after := store[task := parents];
    forall path | IsPath(after, path) && |path| >= 2 ensures path[0] != path[|path| - 1] {
      if i :| 0 <= i < |path| - 1 && path[i] == task {
        ThroughTask(store, task, parents, path, i);
      } else {
        assert IsPath(store, path);
      }
    }
  }

  /** A path of the updated store through the task does not come back to where it began. */
  lemma ThroughTask(store: Parents, task: TaskId, parents: seq<TaskId>, path: seq<TaskId>, i: nat)
    requires !Reaches(store, parents, task) && IsPath(store[task := parents], path)
    requires i < |path| - 1 && path[i] == task
    ensures path[0] != path[|path| - 1]
  {
    BeyondTask(store, task, parents, path, i, |path| - 1);
    if Reaches(store, parents, path[0]) {
      WithinReach(store, task, parents, path, i);
    }
  }

  /** After the task, a path of the updated store stays among what the new parents reach. */
  lemma {:induction false} BeyondTask(store: Parents, task: TaskId, parents: seq<TaskId>, path: seq<TaskId>, i: nat,
                                      j: nat)
    requires !Reaches(store, parents, task)
    requires IsPath(store[task := parents], path) && i < j < |path| && path[i] == task
    ensures Reaches(store, parents, path[j])
    decreases j
  {
    if j == i + 1 {
      assert IsPath(store, [path[j]]);
      assert Leads(store, parents, path[j], 0);
    } else {
      BeyondTask(store, task, parents, path, i, j - 1);
      ReachesParent(store, task, parents, path[j - 1], path[j]);
    }
  }

  /** A path of the updated store that begins within reach stays there, and so avoids the task. */
  lemma {:induction false} WithinReach(store: Parents, task: TaskId, parents: seq<TaskId>, path: seq<TaskId>, j: nat)
    requires !Reaches(store, parents, task)
    requires IsPath(store[task := parents], path) && j < |path| && Reaches(store, parents, path[0])
    ensures Reaches(store, parents, path[j])
  {
    if j > 0 {
      WithinReach(store, task, parents, path, j - 1);
      ReachesParent(store, task, parents, path[j - 1], path[j]);
    }
  }

  lemma ReachesParent(store: Parents, task: TaskId, parents: seq<TaskId>, t: TaskId, p: TaskId)
    requires !Reaches(store, parents, task) && Reaches(store, parents, t)
    requires p in ParentsOf(store[task := parents], t)
    ensures Reaches(store, parents, p)
  {
    var n: nat :| Leads(store, parents, t, n);
    assert t != task;
    LeadsStep(store, parents, t, p, n);
  }

  /** The check asks exactly what is needed: an update keeps an acyclic store acyclic if and only if its
      new parents do not lead back to the task. */
  lemma UpdateIff(store: Parents, task: TaskId, parents: seq<TaskId>)
    requires Acyclic(store)
    ensures Acyclic(store[task := parents]) <==> !Reaches(store, parents, task)
  {
    if Reaches(store, parents, task) {
      var n: nat :| Leads(store, parents, task, n);
      ShortestLead(store, task, parents, n);
    } else {
      UpdateStaysAcyclic(store, task, parents);
    }
  }

  /** A lead to the task, cut at its first visit, survives the update and closes a cycle. */
  lemma {:induction false} ShortestLead(store: Parents, task: TaskId, parents: seq<TaskId>, n: nat)
    requires Leads(store, parents, task, n)
    ensures !Acyclic(store[task := parents])
  {
    var path :| IsPath(store, path) && |path| == n + 1 && path[0] in parents && path[n] == task;
    if exists i :: 0 <= i < n && path[i] == task {
      var i :| 0 <= i < n && path[i] == task;
      var cut := path[..i + 1];
      assert IsPath(store, cut);
      assert Leads(store, parents, task, i);
      ShortestLead(store, task, parents, i);
    } else {
      LoopCloses(store, task, parents, path);
    }
  }

  lemma LoopCloses(store: Parents, task: TaskId, parents: seq<TaskId>, path: seq<TaskId>)
    requires IsPath(store, path) && path[0] in parents && path[|path| - 1] == task
    requires forall i :: 0 <= i < |path| - 1 ==> path[i] != task
    ensures !Acyclic(store[task := parents])
  {
    var after := store[task := parents];
    var loop := [task] + path;
    forall i | 0 <= i < |loop| - 1 ensures loop[i + 1] in ParentsOf(after, loop[i]) {
      if i > 0 {
        assert path[i] in ParentsOf(store, path[i - 1]);
      }
    }
    assert IsPath(after, loop) && loop[0] == loop[|loop| - 1];
  }

  // ----- writes that read earlier -----

  /** One header written: the parents it gets, decided on what the run had left after its first `read` writes. */
  datatype Write = Write(read: nat, task: TaskId, parents: seq<TaskId>)

  function After(run: seq<Write>): Parents {
    if run == [] then map[] else After(run[..|run| - 1])[run[|run| - 1].task := run[|run| - 1].parents]
  }

  /** The check passed on what was read, or the parents are written back as they were read, unchecked, with some
      other field. */
  ghost predicate Decided(seen: Parents, w: Write) {
    !Reaches(seen, w.parents, w.task) || w.parents == ParentsOf(seen, w.task)
  }

  ghost predicate Runs(run: seq<Write>) {
    run == [] || var rest, last := run[..|run| - 1], run[|run| - 1];
                 Runs(rest) && last.read <= |rest| && Decided(After(rest[..last.read]), last)
  }

  ghost predicate AcyclicAllAlong(run: seq<Write>) {
    Acyclic(After(run)) && (run == [] || AcyclicAllAlong(run[..|run| - 1]))
  }

  /** The check would still pass at each write. */
  ghost predicate EachStillClear(run: seq<Write>) {
    run == [] || var rest, last := run[..|run| - 1], run[|run| - 1];
                 EachStillClear(rest) && !Reaches(After(rest), last.parents, last.task)
  }

  lemma EmptyIsAcyclic()
    ensures Acyclic(map[])
  {
    forall path | IsPath(map[], path) ensures |path| < 2 {
      assert |path| >= 2 ==> path[0 + 1] in ParentsOf(map[], path[0]);
    }
  }

  /** Of interleaved writes, whatever each had read: the store was acyclic all along exactly when each write's
      parents did not lead back to its task when it was written. */
  lemma {:induction false} StillClearIff(run: seq<Write>)
    ensures AcyclicAllAlong(run) <==> EachStillClear(run)
  {
    if run == [] {
      EmptyIsAcyclic();
    } else {
      var rest, last := run[..|run| - 1], run[|run| - 1];
      StillClearIff(rest);
      if Acyclic(After(rest)) {
        UpdateIff(After(rest), last.task, last.parents);
      }
    }
  }

  /** No parents have changed of any task that the starts led to. */
  ghost predicate Unmoved(seen: Parents, now: Parents, starts: seq<TaskId>) {
    forall t :: Reaches(seen, starts, t) ==> ParentsOf(now, t) == ParentsOf(seen, t)
  }

  lemma {:induction false} UnmovedReaches(seen: Parents, now: Parents, starts: seq<TaskId>, t: TaskId, n: nat)
    requires Unmoved(seen, now, starts) && Leads(now, starts, t, n)
    ensures Reaches(seen, starts, t)
    decreases n
  {
    if n == 0 {
      assert IsPath(seen, [t]);
      assert Leads(seen, starts, t, 0);
    } else {
      var p := LeadsBack(now, starts, t, n - 1);
      UnmovedReaches(seen, now, starts, p, n - 1);
      var k: nat :| Leads(seen, starts, p, k);
      LeadsStep(seen, starts, p, t, k);
    }
  }

  /** Each write finds the tasks above its parents as it read them. */
  ghost predicate EachUndisturbed(run: seq<Write>) {
    run == [] || var rest, last := run[..|run| - 1], run[|run| - 1];
                 EachUndisturbed(rest) && last.read <= |rest|
                 && Unmoved(After(rest[..last.read]), After(rest), last.parents)
  }

  lemma {:induction false} AcyclicBefore(run: seq<Write>, n: nat)
    requires AcyclicAllAlong(run) && n <= |run|
    ensures Acyclic(After(run[..n]))
    decreases |run|
  {
    if n == |run| {
      assert run[..n] == run;
    } else {
      AcyclicBefore(run[..|run| - 1], n);
      assert run[..|run| - 1][..n] == run[..n];
    }
  }

  /** Parents written back as they are do not lead back, in an acyclic store. */
  lemma OwnParentsAreClear(store: Parents, task: TaskId)
    requires Acyclic(store)
    ensures !Reaches(store, ParentsOf(store, task), task)
  {
    if task in store {
      assert store[task := store[task]] == store;
      UpdateIff(store, task, store[task]);
    }
  }

  lemma UndisturbedStaysClear(seen: Parents, now: Parents, w: Write)
    requires Acyclic(seen) && Decided(seen, w) && Unmoved(seen, now, w.parents)
    ensures !Reaches(now, w.parents, w.task)
  {
    if w.parents == ParentsOf(seen, w.task) {
      OwnParentsAreClear(seen, w.task);
    }
    if Reaches(now, w.parents, w.task) {
      var n: nat :| Leads(now, w.parents, w.task, n);
      UnmovedReaches(seen, now, w.parents, w.task, n);
    }
  }

  /** While no write in between moves a task above the parents that were checked, the store stays acyclic, whether a
      write was checked or puts its parents back as it read them. */
  lemma {:induction false} UndisturbedStaysAcyclic(run: seq<Write>)
    requires Runs(run) && EachUndisturbed(run)
    ensures AcyclicAllAlong(run)
  {
    if run == [] {
      EmptyIsAcyclic();
    } else {
      var rest, last := run[..|run| - 1], run[|run| - 1];
      UndisturbedStaysAcyclic(rest);
      AcyclicBefore(rest, last.read);
      UndisturbedStaysClear(After(rest[..last.read]), After(rest), last);
      StillClearIff(rest);
      StillClearIff(run);
    }
  }

  lemma AfterNext(run: seq<Write>, w: Write)
    ensures After(run + [w]) == After(run)[w.task := w.parents]
    ensures Runs(run) && w.read <= |run| && Decided(After(run[..w.read]), w) ==> Runs(run + [w])
  {
    Cut(run, [w]);
  }

  lemma NothingStored(x: TaskId, y: TaskId)
    requires x != y
    ensures !Reaches(map[], [y], x)
  {
    forall n: nat, path | IsPath(map[], path) && |path| == n + 1 && path[0] in [y] ensures path[n] != x {
      assert |path| >= 2 ==> path[0 + 1] in ParentsOf(map[], path[0]);
    }
  }

  /** Two updates that both check before either writes close a cycle. */
  lemma CrossedUpdates(x: TaskId, y: TaskId)
    requires x != y
    ensures var run := [] + [Write(0, x, [y])] + [Write(0, y, [x])]; Runs(run) && !Acyclic(After(run))
  {
    var one := [] + [Write(0, x, [y])];
    NothingStored(x, y);
    NothingStored(y, x);
    AfterNext([], Write(0, x, [y]));
    assert one[..0] == [];
    AfterNext(one, Write(0, y, [x]));
    var store: Parents := map[][x := [y]][y := [x]];
    assert store[x] == [y] && store[y] == [x];
    assert IsPath(store, [x, y, x]);
  }

  // ----- the table -----

  /** A header row; open mirrors the sparse open_flag. */
  datatype Header = Header(parents: seq<TaskId>, delivery: Option<int>, open: bool)

  function Structure(headers: map<TaskId, Header>): Parents {
    map t | t in headers :: headers[t].parents
  }

  class TaskTable {
    var headers: map<TaskId, Header>

    /** The stored structure is acyclic, and a task is open exactly while it is not delivered. */
    ghost predicate Valid() reads this {
      && Acyclic(Structure(headers))
      && forall t :: t in headers ==> (headers[t].open <==> headers[t].delivery.None?)
    }

    constructor ()
      ensures Valid() && headers == map[]
    {
      headers := map[];
      new;
      forall path | IsPath(Structure(headers), path) ensures |path| < 2 {
        assert |path| >= 2 ==> path[0 + 1] in ParentsOf(Structure(headers), path[0]);
      }
    }

    /** put: a whole header, checked before it is written. */
    method Put(task: TaskId, parents: seq<TaskId>, delivery: Option<int>) returns (v: Verdict)
      requires Valid()
      modifies this
      ensures Valid()
      ensures !v.Clear? ==> headers == old(headers)
      ensures v.Clear? ==> headers == old(headers)[task := Header(parents, delivery, delivery.None?)]
      ensures Reaches(Structure(old(headers)), parents, task) ==> !v.Clear?
    {
      v := CheckParentCycle(Structure(headers), task, parents, DEPTH);
      if v.Clear? {
        UpdateStaysAcyclic(Structure(headers), task, parents);
        ghost var before := headers;
        headers := headers[task := Header(parents, delivery, delivery.None?)];
        assert Structure(headers) == Structure(before)[task := parents];
      }
    }

    /** update: only the parents of a stored header change. */
    method UpdateParents(task: TaskId, parents: seq<TaskId>) returns (v: Verdict)
      requires Valid() && task in headers
      modifies this
      ensures Valid()
      ensures !v.Clear? ==> headers == old(headers)
      ensures v.Clear? ==> headers == old(headers)[task := old(headers)[task].(parents := parents)]
      ensures Reaches(Structure(old(headers)), parents, task) ==> !v.Clear?
    {
      v := CheckParentCycle(Structure(headers), task, parents, DEPTH);
      if v.Clear? {
        UpdateStaysAcyclic(Structure(headers), task, parents);
        ghost var before := headers;
        headers := headers[task := headers[task].(parents := parents)];
        assert Structure(headers) == Structure(before)[task := parents];
      }
    }

    /** deliver_header(): the first delivery wins; later ones, and one with no header, change nothing. */
    method Deliver(task: TaskId, at: int) returns (delivered: bool)
      requires Valid()
      modifies this
      ensures Valid()
      ensures delivered <==> task in old(headers) && old(headers)[task].delivery.None?
      ensures delivered ==> headers == old(headers)[task := Header(old(headers)[task].parents, Some(at), false)]
      ensures !delivered ==> headers == old(headers)
    {
      delivered := task in headers && headers[task].delivery.None?;
      if delivered {
        ghost var before := headers;
        headers := headers[task := Header(headers[task].parents, Some(at), false)];
        assert Structure(headers) == Structure(before);
      }
    }
  }
}
