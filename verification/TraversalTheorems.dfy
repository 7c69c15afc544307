/** What every run of the parallel search does: nothing twice, nothing forgotten, no deadlock while
    it is running, a bounded amount of work, and at most one worker missing the shutdown call. */
module TraversalTheorems {
  import opened Sequences
  import opened Wrappers
  import opened DirectoryTree
  import opened Traversal

  // --- the invariants hold throughout every run ---

  lemma InitInv(root: Dir, n: nat)
    requires n > 0
    ensures Inv(root, Init(root, n))
  {
    var s := Init(root, n);
    IdleSum(Weight, s.workers);
    assert Seeking(s.workers[0]);
    forall ev ensures Count(s.log, ev) + ItemsOwe(s.queue, ev) + SumBy(Owing(ev), s.workers) == RootOwes(root, ev) {
      IdleSum(Owing(ev), s.workers);
      assert s.log[..0] == [] && s.queue[1..] == [];
    }
  }

  lemma {:induction false} IdleSum(f: Worker -> nat, ws: seq<Worker>)
    requires forall i :: 0 <= i < |ws| ==> f(ws[i]) == 0
    ensures SumBy(f, ws) == 0
  {
    if ws != [] { IdleSum(f, ws[1..]); }
  }

  lemma StepInv(root: Dir, s: State, l: Label)
    requires Inv(root, s) && Enabled(s, l)
    ensures Inv(root, Apply(s, l))
  {
    StructureKept(s, l);
    CountedKept(s, l);
    ConservedKept(root, s, l);
    AttendedKept(s, l);
  }

  lemma {:induction false} RunInv(root: Dir, s: State, labels: seq<Label>)
    requires Inv(root, s) && Possible(s, labels)
    ensures Inv(root, Run(s, labels))
    decreases labels
  {
    if labels != [] {
      StepInv(root, s, labels[0]);
      RunInv(root, Apply(s, labels[0]), labels[1..]);
    }
  }

  // States some interleaving of `n` workers reaches.
  ghost predicate Reachable(root: Dir, n: nat, s: State)
    requires n > 0
  {
    exists labels :: Possible(Init(root, n), labels) && s == Run(Init(root, n), labels)
  }

  lemma ReachableInv(root: Dir, n: nat, s: State)
    requires n > 0 && Reachable(root, n, s)
    ensures Inv(root, s)
  {
    var labels :| Possible(Init(root, n), labels) && s == Run(Init(root, n), labels);
    InitInv(root, n);
    RunInv(root, Init(root, n), labels);
  }

  // --- exactly once ---

  /** At no point has anything happened more often than the tree calls for: no directory is opened,
      enumerated or closed twice and no file searched twice, under any interleaving. */
  lemma NeverTwice(root: Dir, n: nat, s: State, ev: Event)
    requires n > 0 && Reachable(root, n, s)
    ensures Count(s.log, ev) <= Due(root, ev)
  {
    ReachableInv(root, n, s);
    RootOwesDue(root, ev);
    assert Count(s.log, ev) + ItemsOwe(s.queue, ev) + SumBy(Owing(ev), s.workers) == RootOwes(root, ev);
  }

  /** From the moment `running` is false, every openable directory reachable from the root has been
      opened, enumerated and closed exactly once, every openable file in them searched exactly once,
      and nothing else happened; the queue is empty and nobody holds a directory. */
  lemma SearchComplete(root: Dir, n: nat, s: State)
    requires n > 0 && Reachable(root, n, s) && !s.running
    ensures forall ev :: Count(s.log, ev) == Due(root, ev)
    ensures s.queue == [] && forall i :: 0 <= i < |s.workers| ==> Weight(s.workers[i]) == 0
  {
    ReachableInv(root, n, s);
    forall i | 0 <= i < |s.workers| ensures Weight(s.workers[i]) == 0 { SumByAtLeast(Weight, s.workers, i); }
    forall ev ensures Count(s.log, ev) == Due(root, ev) {
      NobodyOwes(s.workers, ev);
      RootOwesDue(root, ev);
      assert Count(s.log, ev) + ItemsOwe(s.queue, ev) + SumBy(Owing(ev), s.workers) == RootOwes(root, ev);
    }
  }

  // A worker leaves its loop only when the search is over, so the same holds once anybody has left.
  lemma LeavingMeansComplete(root: Dir, n: nat, s: State, i: nat)
    requires n > 0 && Reachable(root, n, s)
    requires i < |s.workers| && (s.workers[i].Left? || s.workers[i].Gone?)
    ensures forall ev :: Count(s.log, ev) == Due(root, ev)
  {
    ReachableInv(root, n, s);
    assert WorkerOk(s, i);
    SearchComplete(root, n, s);
  }

  lemma {:induction false} SumByTwo(f: Worker -> nat, ws: seq<Worker>, i: nat, j: nat)
    requires i < j < |ws|
    ensures SumBy(f, ws) >= f(ws[i]) + f(ws[j])
  {
    if i == 0 { SumByAtLeast(f, ws[1..], j - 1); } else { SumByTwo(f, ws[1..], i - 1, j - 1); }
  }

  /** A directory in a worker's hand is still open, and no other worker holds the same one. */
  lemma HeldDirectoryIsOpenAndExclusive(root: Dir, n: nat, s: State, i: nat)
    requires n > 0 && Reachable(root, n, s)
    requires i < |s.workers| && s.workers[i].Busy?
    ensures Count(s.log, Event(Closed, s.workers[i].item.path)) == 0
    ensures forall j :: 0 <= j < |s.workers| && j != i && s.workers[j].Busy? ==> s.workers[j].item.path != s.workers[i].item.path
  {
    var ev := Event(Closed, s.workers[i].item.path);
    ReachableInv(root, n, s);
    RootOwesDue(root, ev);
    assert Count(s.log, ev) + ItemsOwe(s.queue, ev) + SumBy(Owing(ev), s.workers) == RootOwes(root, ev);
    assert Owing(ev)(s.workers[i]) >= 1;
    SumByAtLeast(Owing(ev), s.workers, i);
    forall j | 0 <= j < |s.workers| && j != i && s.workers[j].Busy? ensures s.workers[j].item.path != s.workers[i].item.path {
      SumByTwo(Owing(ev), s.workers, if i < j then i else j, if i < j then j else i);
    }
  }

  // --- the termination detector ---

  /** `pending` is the number of queued directories, plus those held by a worker and not yet subtracted,
      plus those added to the count and not yet appended to the queue. */
  lemma PendingIsExact(root: Dir, n: nat, s: State)
    requires n > 0 && Reachable(root, n, s)
    ensures s.pending == |s.queue| + SumBy(Weight, s.workers)
  {
    ReachableInv(root, n, s);
  }

  /** The subtraction that finds `pending` at one happens with the queue empty and nobody else
      holding a directory. */
  lemma LastSubtractionFindsNothingLeft(root: Dir, n: nat, s: State, i: nat)
    requires n > 0 && Reachable(root, n, s)
    requires i < |s.workers| && s.workers[i] == Subtracting && s.pending == 1
    ensures s.queue == [] && forall j :: 0 <= j < |s.workers| && j != i ==> Weight(s.workers[j]) == 0
  {
    ReachableInv(root, n, s);
    SumByAtLeast(Weight, s.workers, i);
    forall j | 0 <= j < |s.workers| && j != i ensures Weight(s.workers[j]) == 0 {
      SumByTwo(Weight, s.workers, if i < j then i else j, if i < j then j else i);
    }
  }

  predicate LastSubtraction(s: State, l: Label) {
    Enabled(s, l) && s.workers[l.worker] == Subtracting && s.pending == 1
  }

  /** ... and it happens at most once in a run. */
  lemma {:induction false} LastSubtractionOnce(root: Dir, s: State, l: Label, between: seq<Label>, m: Label)
    requires Inv(root, s) && LastSubtraction(s, l)
    requires Possible(Apply(s, l), between)
    ensures !LastSubtraction(Run(Apply(s, l), between), m)
  {
    StepInv(root, s, l);
    StaysAtZero(root, Apply(s, l), between);
  }

  lemma {:induction false} StaysAtZero(root: Dir, s: State, labels: seq<Label>)
    requires Inv(root, s) && s.pending == 0 && Possible(s, labels)
    ensures Run(s, labels).pending == 0
    decreases labels
  {
    if labels != [] {
      StepInv(root, s, labels[0]);
      SumByAtLeast(Weight, s.workers, labels[0].worker);
      StaysAtZero(root, Apply(s, labels[0]), labels[1..]);
    }
  }

  // --- no deadlock while running ---

  lemma {:induction false} SomebodyWeighs(ws: seq<Worker>) returns (i: nat)
    requires SumBy(Weight, ws) > 0
    ensures i < |ws| && Weight(ws[i]) > 0
  {
    if Weight(ws[0]) > 0 {
      i := 0;
    } else {
      i := SomebodyWeighs(ws[1..]);
      i := i + 1;
    }
  }

  /** Whenever a directory is queued while `running` holds, some worker will look at the queue before it
      sleeps again. */
  lemma QueueIsAttended(root: Dir, n: nat, s: State)
    requires n > 0 && Reachable(root, n, s) && s.running && s.queue != []
    ensures exists i :: 0 <= i < |s.workers| && Seeking(s.workers[i])
  {
    ReachableInv(root, n, s);
  }

  /** While `running` holds, some worker that is not asleep can move; in particular the workers are
      never all asleep, although one `notify_one` follows an append of many directories. */
  lemma {:induction false} Progress(root: Dir, s: State) returns (l: Label)
    requires Inv(root, s) && s.running
    ensures Enabled(s, l) && s.workers[l.worker] != Asleep
  {
    if s.mutex.Some? {
      assert WorkerOk(s, s.mutex.value);
      return Label(s.mutex.value, 0);
    }
    var i: nat;
    if s.pending == 0 {
      i :| i < |s.workers| && s.workers[i] == Stopping;
    } else if s.queue != [] {
      i :| i < |s.workers| && Seeking(s.workers[i]);
    } else {
      i := SomebodyWeighs(s.workers);
    }
    assert WorkerOk(s, i);
    if Asleep in s.workers && s.workers[i].Busy? && s.workers[i].task.Notify? {
      var j: nat :| j < |s.workers| && s.workers[j] == Asleep;
      return Label(i, j);
    }
    return Label(i, 1);
  }

  // --- who is woken ---

  function Sleeping(w: Worker): nat {
    if w.Asleep? then 1 else 0
  }

  lemma {:induction false} NoSleepers(ws: seq<Worker>)
    requires Asleep !in ws
    ensures SumBy(Sleeping, ws) == 0
  {
    if ws != [] {
      assert ws[0] in ws && forall w :: w in ws[1..] ==> w in ws;
      NoSleepers(ws[1..]);
    }
  }

  /** `notify_one` wakes exactly one sleeper when there is one. */
  lemma NotifyWakesOne(s: State, l: Label)
    requires Enabled(s, l) && s.workers[l.worker].Busy? && s.workers[l.worker].task.Notify?
    ensures var before := SumBy(Sleeping, s.workers);
            SumBy(Sleeping, Apply(s, l).workers) == if Asleep in s.workers then before - 1 else 0
  {
    if Asleep in s.workers {
      SumByPut(Sleeping, s.workers, l.choice, Locking);
    } else {
      NoSleepers(s.workers);
    }
    SumByPut(Sleeping, Others(s, l), l.worker, Mover(s, l));
  }

  /** `notify_all` wakes everybody. */
  lemma BroadcastWakesAll(s: State, l: Label)
    requires Enabled(s, l) && (s.workers[l.worker].Broadcasting? || s.workers[l.worker].Left?)
    ensures Asleep !in Apply(s, l).workers
  {
  }

  // --- the work is bounded ---

  // Moves that get the search ahead; the others only circle through the lock and the wait.
  predicate WorkMove(w: Worker) {
    w.Popping? || w.Busy? || w.Subtracting? || Stopper(w)
  }

  ghost function DirCost(d: Dir): nat
    decreases d, |d.entries| + 1
  {
    6 + EntriesCost(d, 0)
  }

  ghost function EntriesCost(d: Dir, i: nat): (c: nat)
    requires i <= |d.entries|
    ensures c >= 5 * (|d.entries| - i)
    decreases d, |d.entries| - i
  {
    if i == |d.entries| then 0
    else 5 + (if d.entries[i].SubDir? then DirCost(d.entries[i].dir) else 0) + EntriesCost(d, i + 1)
  }

  ghost function ItemsCost(items: seq<Item>): nat {
    if items == [] then 0 else DirCost(items[0].dir) + ItemsCost(items[1..])
  }

  // An upper bound for the work moves a worker has left; the records of a started batch cost one each.
  ghost function WorkerCost(w: Worker): nat {
    match w
    case Busy(item, pos, task) =>
      if pos > |item.dir.entries| then 0 else
      var rest := 5 + EntriesCost(item.dir, pos);
      (match task
       case Read => rest
       case Walk(hi, found) =>
         if pos <= hi <= |item.dir.entries| then rest - 4 * (hi - pos) + 3 + ItemsCost(found) else 0
       case Append(found) => rest + 2 + ItemsCost(found)
       case Notify => rest + 1
       case Close => 4)
    case Subtracting => 3
    case Stopping => 2
    case Broadcasting => 1
    case _ => 0
  }

  ghost function Cost(s: State): nat {
    ItemsCost(s.queue) + SumBy(WorkerCost, s.workers)
  }

  function WorkMoves(s: State, labels: seq<Label>): nat
    requires Possible(s, labels)
    decreases labels
  {
    if labels == [] then 0
    else (if WorkMove(s.workers[labels[0].worker]) then 1 else 0) + WorkMoves(Apply(s, labels[0]), labels[1..])
  }

  lemma {:induction false} ItemsCostAppend(a: seq<Item>, b: seq<Item>)
    ensures ItemsCost(a + b) == ItemsCost(a) + ItemsCost(b)
  {
    if a == [] {
      assert a + b == b;
    } else {
      assert (a + b)[1..] == a[1..] + b;
      ItemsCostAppend(a[1..], b);
    }
  }

  lemma {:induction false} VisitCost(item: Item, pos: nat, found: seq<Item>)
    requires pos < |item.dir.entries|
    ensures EntriesCost(item.dir, pos) + ItemsCost(found) >=
            5 + EntriesCost(item.dir, pos + 1) + ItemsCost(found + Discovered(item, pos))
  {
    var sub := Discovered(item, pos);
    ItemsCostAppend(found, sub);
    assert sub != [] ==> ItemsCost(sub) == DirCost(sub[0].dir);
  }

  lemma {:induction false} MoveCost(s: State, l: Label)
    requires Enabled(s, l) && WorkerOk(s, l.worker)
    ensures ItemsCost(NextQueue(s, l)) + WorkerCost(Mover(s, l)) + (if WorkMove(s.workers[l.worker]) then 1 else 0)
         <= ItemsCost(s.queue) + WorkerCost(s.workers[l.worker])
  {
    match s.workers[l.worker]
    case Busy(item, pos, Walk(hi, found)) =>
      if pos < hi { VisitCost(item, pos, found); }
    case Busy(item, pos, Append(found)) => ItemsCostAppend(s.queue, found);
    case _ =>
  }

  lemma CostStep(root: Dir, s: State, l: Label)
    requires Inv(root, s) && Enabled(s, l)
    ensures Cost(Apply(s, l)) + (if WorkMove(s.workers[l.worker]) then 1 else 0) <= Cost(s)
  {
    assert WorkerOk(s, l.worker);
    MoveCost(s, l);
    SumBySame(WorkerCost, s.workers, Others(s, l));
    SumByPut(WorkerCost, Others(s, l), l.worker, Mover(s, l));
  }

  /** However the workers interleave, the number of work moves is bounded by a number that depends on
      the tree alone. */
  lemma {:induction false} WorkIsBounded(root: Dir, s: State, labels: seq<Label>)
    requires Inv(root, s) && Possible(s, labels)
    ensures WorkMoves(s, labels) + Cost(Run(s, labels)) <= Cost(s)
    decreases labels
  {
    if labels != [] {
      var l := labels[0];
      StepInv(root, s, l);
      CostStep(root, s, l);
      WorkIsBounded(root, Apply(s, l), labels[1..]);
    }
  }

  lemma SearchWorkIsBounded(root: Dir, n: nat, labels: seq<Label>)
    requires n > 0 && Possible(Init(root, n), labels)
    ensures WorkMoves(Init(root, n), labels) <= DirCost(root)
  {
    var s := Init(root, n);
    InitInv(root, n);
    IdleSum(WorkerCost, s.workers);
    assert s.queue[1..] == [] && ItemsCost(s.queue) == DirCost(root);
    WorkIsBounded(root, s, labels);
  }

  // --- the search comes to its end ---

  // How far a worker without work is from work or sleep.
  function Rank(w: Worker): nat {
    match w
    case Top => 5
    case Locking => 4
    case Testing => 3
    case Blocking => 2
    case Deciding => 2
    case Popping => 1
    case _ => 0
  }

  // Nobody wakes up without a call, and the search has not ended before the last move.
  predicate Eager(s: State, labels: seq<Label>)
    requires Possible(s, labels)
    decreases labels
  {
    labels == [] ||
    (s.running && !s.workers[labels[0].worker].Asleep? && Eager(Apply(s, labels[0]), labels[1..]))
  }

  lemma {:induction false} SumByGrows(f: Worker -> nat, ws: seq<Worker>, vs: seq<Worker>, more: nat)
    requires |ws| == |vs| && forall i :: 0 <= i < |ws| ==> f(vs[i]) <= f(ws[i]) + more
    ensures SumBy(f, vs) <= SumBy(f, ws) + more * |ws|
  {
    if ws != [] {
      SumByGrows(f, ws[1..], vs[1..], more);
      assert more * |ws| == more + more * |ws[1..]|;
    }
  }

  // A work move may raise the ranks of those it calls and of the mover; any other lowers the mover's.
  lemma RankStep(root: Dir, s: State, l: Label)
    requires Inv(root, s) && Enabled(s, l) && s.running && !s.workers[l.worker].Asleep?
    ensures var r, t := SumBy(Rank, s.workers), SumBy(Rank, Apply(s, l).workers);
            if WorkMove(s.workers[l.worker]) then t <= r + 4 * |s.workers| + 5 else t < r
  {
    assert WorkerOk(s, l.worker);
    SumByPut(Rank, Others(s, l), l.worker, Mover(s, l));
    if WorkMove(s.workers[l.worker]) { SumByGrows(Rank, s.workers, Others(s, l), 4); }
  }

  // A bound for the moves left, if nobody wakes up without a call.
  ghost function MovesLeft(s: State): nat {
    (4 * |s.workers| + 6) * Cost(s) + SumBy(Rank, s.workers)
  }

  lemma {:induction false} Scale(f: nat, a: nat, b: nat)
    requires a < b
    ensures f * a + f <= f * b
    decreases b
  {
    assert f * b == f * (b - 1) + f;
    if a < b - 1 { Scale(f, a, b - 1); }
  }

  lemma MovesLeftStep(root: Dir, s: State, l: Label)
    requires Inv(root, s) && Enabled(s, l) && s.running && !s.workers[l.worker].Asleep?
    ensures MovesLeft(Apply(s, l)) < MovesLeft(s)
  {
    var t, f := Apply(s, l), 4 * |s.workers| + 6;
    RankStep(root, s, l);
    CostStep(root, s, l);
    if Cost(t) < Cost(s) { Scale(f, Cost(t), Cost(s)); }
  }

  /** A run in which nobody wakes up without a call cannot go on for ever: its length is bounded while
      `running` holds, however the workers interleave. */
  lemma {:induction false} EagerRunsEnd(root: Dir, s: State, labels: seq<Label>)
    requires Inv(root, s) && Possible(s, labels) && Eager(s, labels)
    ensures |labels| <= MovesLeft(s)
    decreases labels
  {
    if labels != [] {
      StepInv(root, s, labels[0]);
      MovesLeftStep(root, s, labels[0]);
      EagerRunsEnd(root, Apply(s, labels[0]), labels[1..]);
    }
  }

  /** ... and once such a run cannot be extended, the search is complete: it never gets stuck halfway. */
  lemma EagerSearchFinishes(root: Dir, n: nat, labels: seq<Label>)
    requires n > 0 && Possible(Init(root, n), labels) && Eager(Init(root, n), labels)
    requires var s := Run(Init(root, n), labels); s.running ==> forall l :: Enabled(s, l) ==> s.workers[l.worker].Asleep?
    ensures forall ev :: Count(Run(Init(root, n), labels).log, ev) == Due(root, ev)
  {
    var s := Run(Init(root, n), labels);
    InitInv(root, n);
    RunInv(root, Init(root, n), labels);
    if s.running { var l := Progress(root, s); }
    SearchComplete(root, n, s);
  }

  /** From every state that satisfies the invariants, hence from every reachable one, some schedule completes
      the search. */
  lemma {:induction false} SearchCanFinish(root: Dir, s: State) returns (labels: seq<Label>)
    requires Inv(root, s)
    ensures Possible(s, labels) && Eager(s, labels) && !Run(s, labels).running
    decreases MovesLeft(s)
  {
    if !s.running {
      return [];
    }
    var l := Progress(root, s);
    StepInv(root, s, l);
    MovesLeftStep(root, s, l);
    var rest := SearchCanFinish(root, Apply(s, l));
    labels := [l] + rest;
    assert labels[1..] == rest;
  }

  // --- the shutdown broadcast ---

  /** After `running` was cleared and a broadcast was sent, the only worker that can still be found
      asleep is the one that held the mutex between its wait predicate and its sleep. */
  lemma {:induction false} OnlyBlockingWorkerMissesBroadcast(root: Dir, s: State, l: Label, later: seq<Label>, i: nat)
    requires Inv(root, s) && Enabled(s, l) && (s.workers[l.worker].Broadcasting? || s.workers[l.worker].Left?)
    requires Possible(Apply(s, l), later)
    requires i < |s.workers| && i < |Run(Apply(s, l), later).workers|
    requires Run(Apply(s, l), later).workers[i] == Asleep
    ensures s.workers[i] == Blocking && s.mutex == Some(i)
  {
    assert WorkerOk(s, l.worker) && WorkerOk(s, i);
    StepInv(root, s, l);
    SleeperWasBlocking(root, Apply(s, l), later, i);
  }

  lemma {:induction false} SleeperWasBlocking(root: Dir, s: State, labels: seq<Label>, i: nat)
    requires Inv(root, s) && !s.running && Possible(s, labels)
    requires i < |s.workers| && i < |Run(s, labels).workers| && Run(s, labels).workers[i] == Asleep
    ensures s.workers[i] == Asleep || s.workers[i] == Blocking
    decreases labels
  {
    if labels != [] {
      StepInv(root, s, labels[0]);
      SleeperWasBlocking(root, Apply(s, labels[0]), labels[1..], i);
    }
  }

  /** ... and that worker can miss it, from every such state: it is enough that it moves next. */
  lemma BlockingWorkerCanMissBroadcast(root: Dir, s: State, l: Label, i: nat)
    requires Inv(root, s) && Enabled(s, l) && (s.workers[l.worker].Broadcasting? || s.workers[l.worker].Left?)
    requires i < |s.workers| && s.workers[i] == Blocking
    ensures Possible(s, [l, Label(i, 0)])
    ensures var t := Run(s, [l, Label(i, 0)]); |t.workers| == |s.workers| && t.workers[i] == Asleep && !t.running
  {
    var t := Apply(s, l);
    assert WorkerOk(s, l.worker);
    assert [l, Label(i, 0)][1..] == [Label(i, 0)] && [Label(i, 0)][1..] == [];
    assert Run(t, [Label(i, 0)]) == Apply(t, Label(i, 0));
  }

  // Both states do occur together: two workers, an empty directory.
  lemma {:induction false} RunThen(s: State, labels: seq<Label>, l: Label)
    requires Possible(s, labels) && Enabled(Run(s, labels), l)
    ensures Possible(s, labels + [l]) && Run(s, labels + [l]) == Apply(Run(s, labels), l)
    decreases labels
  {
    if labels == [] {
      assert [l][1..] == [] && labels + [l] == [l];
    } else {
      assert (labels + [l])[1..] == labels[1..] + [l];
      RunThen(Apply(s, labels[0]), labels[1..], l);
    }
  }

  lemma Then(root: Dir, n: nat, s: State, i: nat) returns (t: State)
    requires n > 0 && Reachable(root, n, s)
    requires i < |s.workers| && Enabled(s, Label(i, 0))
    requires !s.workers[i].Busy? || !s.workers[i].task.Notify?
    requires !s.workers[i].Broadcasting? && !s.workers[i].Left?
    ensures Reachable(root, n, t)
    ensures t.workers == s.workers[i := Mover(s, Label(i, 0))]
    ensures t.queue == NextQueue(s, Label(i, 0)) && t.pending == NextPending(s, Label(i, 0))
    ensures t.mutex == NextMutex(s, Label(i, 0)) && t.running == (s.running && !s.workers[i].Stopping?)
  {
    var labels :| Possible(Init(root, n), labels) && s == Run(Init(root, n), labels);
    RunThen(Init(root, n), labels, Label(i, 0));
    t := Apply(s, Label(i, 0));
  }

  const ONLY: Item := Item([], Dir([]))

  ghost predicate Shape(s: State, queue: seq<Item>, pending: int, mutex: Option<nat>, workers: seq<Worker>) {
    s.running && s.queue == queue && s.pending == pending && s.mutex == mutex && s.workers == workers
  }

  lemma FirstWorkerLocks() returns (s: State)
    ensures Reachable(ONLY.dir, 2, s) && Shape(s, [ONLY], 1, Some(0), [Testing, Top])
  {
    s := Init(ONLY.dir, 2);
    assert Reachable(ONLY.dir, 2, s) by { assert Possible(s, []) && Run(s, []) == s; }
    s := Then(ONLY.dir, 2, s, 0);
    s := Then(ONLY.dir, 2, s, 0);
  }

  lemma FirstWorkerTakes() returns (s: State)
    ensures Reachable(ONLY.dir, 2, s) && Shape(s, [], 1, None, [Busy(ONLY, 0, Read), Top])
  {
    s := FirstWorkerLocks();
    s := Then(ONLY.dir, 2, s, 0);
    s := Then(ONLY.dir, 2, s, 0);
    s := Then(ONLY.dir, 2, s, 0);
  }

  lemma SecondWorkerIdles() returns (s: State)
    ensures Reachable(ONLY.dir, 2, s) && Shape(s, [], 1, Some(1), [Busy(ONLY, 0, Read), Blocking])
  {
    s := FirstWorkerTakes();
    s := Then(ONLY.dir, 2, s, 1);
    s := Then(ONLY.dir, 2, s, 1);
    s := Then(ONLY.dir, 2, s, 1);
  }

  lemma FirstWorkerCloses() returns (s: State)
    ensures Reachable(ONLY.dir, 2, s) && Shape(s, [], 1, Some(1), [Subtracting, Blocking])
  {
    s := SecondWorkerIdles();
    s := Then(ONLY.dir, 2, s, 0);
    s := Then(ONLY.dir, 2, s, 0);
  }

  lemma BroadcastCanOvertakeSleep() returns (s: State)
    ensures Reachable(ONLY.dir, 2, s) && s.workers == [Broadcasting, Blocking]
  {
    s := FirstWorkerCloses();
    s := Then(ONLY.dir, 2, s, 0);
    s := Then(ONLY.dir, 2, s, 0);
  }
}
