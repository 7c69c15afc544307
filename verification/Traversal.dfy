/** The parallel directory search: any number of workers share a queue of open directories, a mutex
    with a condition variable, the counter `pending` and the flag `running`. One transition is one
    atomic action of one worker; sleeping, waking (also spuriously) and the window between a false
    wait predicate and the sleep are transitions of their own. */
module Traversal {
  import opened Sequences
  import opened Wrappers
  import opened DirectoryTree

  // An open directory descriptor: where it is and what `getdents64` will yield from it.
  datatype Item = Item(path: Path, dir: Dir)

  // What a worker is doing with the directory it holds.
  datatype Task =
    | Read                              // calls getdents
    | Walk(hi: nat, found: seq<Item>)   // handles the records of a batch, up to index `hi`
    | Append(found: seq<Item>)          // has counted the subdirectories it found, publishes them
    | Notify
    | Close

  // Where a worker is. `Testing`, `Blocking`, `Deciding` and `Popping` are inside the mutex.
  datatype Worker =
    | Top                                     // reads `running` at the loop head
    | Locking                                 // wants the mutex before the wait predicate
    | Testing                                 // evaluates the wait predicate
    | Blocking                                // found it false, has not gone to sleep yet
    | Asleep
    | Deciding                                // found it true, reads `running` again
    | Popping
    | Busy(item: Item, pos: nat, task: Task)  // holds a directory, records before `pos` are done
    | Subtracting
    | Stopping                                // subtracted the last one, clears `running`
    | Broadcasting
    | Left
    | Gone                                    // the main worker, after the destructor's notify

  datatype State = State(
    queue: seq<Item>,
    pending: int,
    running: bool,
    mutex: Option<nat>,
    workers: seq<Worker>,
    log: seq<Event>)

  // A label names the worker that moves and resolves the environment's choice in that move.
  datatype Label = Label(worker: nat, choice: nat)

  function Init(root: Dir, n: nat): (s: State)
    requires n > 0
  {
    State([Item([], root)], 1, true, None, seq(n, _ => Top), [Event(Opened, [])])
  }

  // Beyond what the code waits for, a move that would read past a sequence is not enabled either;
  // `Progress` below shows that those guards never stop a worker.
  predicate Enabled(s: State, l: Label) {
    l.worker < |s.workers| &&
    match s.workers[l.worker]
    case Locking => s.mutex.None?
    case Popping => s.queue != []
    case Busy(item, pos, Read) => pos < |item.dir.entries| ==> 1 <= l.choice <= |item.dir.entries| - pos
    case Busy(item, pos, Walk(hi, _)) => pos < hi ==> pos < |item.dir.entries|
    case Busy(_, _, Append(_)) => s.mutex.None?
    case Busy(_, _, Notify) => Asleep !in s.workers || (l.choice < |s.workers| && s.workers[l.choice] == Asleep)
    case Left => l.worker == 0
    case Gone => false
    case _ => true
  }

  // The record at `pos` leads to at most one subdirectory to search later ...
  function Discovered(item: Item, pos: nat): seq<Item>
    requires pos < |item.dir.entries|
  {
    match item.dir.entries[pos]
    case SubDir(true, sub) => [Item(item.path + [pos], sub)]
    case _ => []
  }

  // ... and to at most one event: a subdirectory is opened or a file is searched.
  function Visited(item: Item, pos: nat): seq<Event>
    requires pos < |item.dir.entries|
  {
    match item.dir.entries[pos]
    case SubDir(true, _) => [Event(Opened, item.path + [pos])]
    case File(true) => [Event(Searched, item.path + [pos])]
    case _ => []
  }

  // Where the moving worker gets to.
  function Mover(s: State, l: Label): Worker
    requires Enabled(s, l)
  {
    match s.workers[l.worker]
    case Top => if s.running then Locking else Left
    case Locking => Testing
    case Testing => if s.queue != [] || !s.running then Deciding else Blocking
    case Blocking => Asleep
    case Asleep => Locking
    case Deciding => if s.running then Popping else Left
    case Popping => Busy(s.queue[0], 0, Read)
    case Busy(item, pos, Read) => Busy(item, pos, if pos < |item.dir.entries| then Walk(pos + l.choice, []) else Close)
    case Busy(item, pos, Walk(hi, found)) =>
      if pos < hi then Busy(item, pos + 1, Walk(hi, found + Discovered(item, pos))) else Busy(item, pos, Append(found))
    case Busy(item, pos, Append(_)) => Busy(item, pos, Notify)
    case Busy(item, pos, Notify) => Busy(item, pos, Read)
    case Busy(_, _, Close) => Subtracting
    case Subtracting => if s.pending == 1 then Stopping else Top
    case Stopping => Broadcasting
    case Broadcasting => Top
    case Left => Gone
  }

  // The other workers' view: `notify_one` wakes one sleeper if there is one, a broadcast all of them.
  function Others(s: State, l: Label): (ws: seq<Worker>)
    requires Enabled(s, l)
    ensures |ws| == |s.workers| && ws[l.worker] == s.workers[l.worker]
    ensures forall j :: 0 <= j < |ws| ==> ws[j] == s.workers[j] || (s.workers[j] == Asleep && ws[j] == Locking)
  {
    match s.workers[l.worker]
    case Busy(_, _, Notify) => if Asleep in s.workers then s.workers[l.choice := Locking] else s.workers
    case Broadcasting => WakeAll(s.workers)
    case Left => WakeAll(s.workers)
    case _ => s.workers
  }

  function WakeAll(ws: seq<Worker>): (r: seq<Worker>)
    ensures |r| == |ws|
    ensures forall i :: 0 <= i < |ws| ==> r[i] == if ws[i] == Asleep then Locking else ws[i]
  {
    seq(|ws|, i requires 0 <= i < |ws| => if ws[i] == Asleep then Locking else ws[i])
  }

  function NextQueue(s: State, l: Label): seq<Item>
    requires Enabled(s, l)
  {
    match s.workers[l.worker]
    case Popping => s.queue[1..]
    case Busy(_, _, Append(found)) => s.queue + found
    case _ => s.queue
  }

  function NextPending(s: State, l: Label): int
    requires Enabled(s, l)
  {
    match s.workers[l.worker]
    case Busy(_, pos, Walk(hi, found)) => if pos < hi then s.pending else s.pending + |found|
    case Subtracting => s.pending - 1
    case _ => s.pending
  }

  function NextMutex(s: State, l: Label): Option<nat>
    requires Enabled(s, l)
  {
    match s.workers[l.worker]
    case Locking => Some(l.worker)
    case Blocking => None
    case Deciding => if s.running then s.mutex else None
    case Popping => None
    case _ => s.mutex
  }

  function NextLog(s: State, l: Label): seq<Event>
    requires Enabled(s, l)
  {
    match s.workers[l.worker]
    case Busy(item, pos, Read) => if pos < |item.dir.entries| then s.log else s.log + [Event(Enumerated, item.path)]
    case Busy(item, pos, Walk(hi, _)) => if pos < hi then s.log + Visited(item, pos) else s.log
    case Busy(item, _, Close) => s.log + [Event(Closed, item.path)]
    case _ => s.log
  }

  function Apply(s: State, l: Label): State
    requires Enabled(s, l)
  {
    State(
      NextQueue(s, l),
      NextPending(s, l),
      s.running && !s.workers[l.worker].Stopping? && !s.workers[l.worker].Left?,
      NextMutex(s, l),
      Others(s, l)[l.worker := Mover(s, l)],
      NextLog(s, l))
  }

  // `labels` is a possible interleaving from `s`, and where it leads.
  predicate Possible(s: State, labels: seq<Label>)
    decreases labels
  {
    labels == [] || (Enabled(s, labels[0]) && Possible(Apply(s, labels[0]), labels[1..]))
  }

  function Run(s: State, labels: seq<Label>): State
    requires Possible(s, labels)
    decreases labels
  {
    if labels == [] then s else Run(Apply(s, labels[0]), labels[1..])
  }

  // --- the invariants ---

  predicate HoldsMutex(w: Worker) {
    w.Testing? || w.Blocking? || w.Deciding? || w.Popping?
  }

  // Directories this worker keeps `pending` up for.
  function Weight(w: Worker): nat {
    match w
    case Busy(_, _, Append(found)) => 1 + |found|
    case Busy(_, _, _) => 1
    case Subtracting => 1
    case _ => 0
  }

  function SumBy(f: Worker -> nat, ws: seq<Worker>): nat {
    if ws == [] then 0 else f(ws[0]) + SumBy(f, ws[1..])
  }

  ghost function ItemsOwe(items: seq<Item>, ev: Event): nat {
    if items == [] then 0 else DirOwes(items[0].dir, items[0].path, ev) + ItemsOwe(items[1..], ev)
  }

  // What the directory in a worker's hand and the subdirectories found in it still owe.
  ghost function WorkerOwes(w: Worker, ev: Event): nat {
    if !w.Busy? then 0
    else if w.task.Close? then One(Event(Closed, w.item.path), ev)
    else RestOwes(w.item, w.pos, ev) + ItemsOwe(Found(w.task), ev)
  }

  function Found(task: Task): seq<Item> {
    if task.Walk? || task.Append? then task.found else []
  }

  ghost function RestOwes(item: Item, pos: nat, ev: Event): nat {
    (if pos <= |item.dir.entries| then EntriesOwe(item.dir, item.path, pos, ev) else 0)
    + One(Event(Enumerated, item.path), ev) + One(Event(Closed, item.path), ev)
  }

  ghost function Owing(ev: Event): Worker -> nat {
    w => WorkerOwes(w, ev)
  }

  // Workers that will look at the queue before they sleep.
  predicate Seeking(w: Worker) {
    !w.Asleep? && !w.Blocking? && !w.Left? && !w.Gone?
  }

  predicate Stopper(w: Worker) {
    w.Stopping? || w.Broadcasting?
  }

  predicate WorkerOk(s: State, i: nat)
    requires i < |s.workers|
  {
    var w := s.workers[i];
    (HoldsMutex(w) <==> s.mutex == Some(i)) &&
    (w.Blocking? ==> s.queue == []) &&
    (w.Deciding? && s.running ==> s.queue != []) &&
    (w.Popping? ==> s.queue != []) &&
    (w.Left? || w.Gone? || w.Broadcasting? ==> !s.running) &&
    (Stopper(w) ==> s.pending == 0) &&
    (w.Busy? ==>
      w.pos <= |w.item.dir.entries| &&
      (w.task.Walk? ==> w.pos <= w.task.hi <= |w.item.dir.entries|) &&
      (w.task.Close? ==> w.pos == |w.item.dir.entries|))
  }

  ghost predicate Structure(s: State) {
    s.workers != [] &&
    (s.mutex.Some? ==> s.mutex.value < |s.workers|) &&
    (!s.running ==> s.pending == 0) &&
    (s.running && s.pending == 0 ==> Stopping in s.workers) &&
    forall i :: 0 <= i < |s.workers| ==> WorkerOk(s, i)
  }

  ghost predicate Counted(s: State) {
    s.pending == |s.queue| + SumBy(Weight, s.workers)
  }

  ghost predicate Attended(s: State) {
    s.running && s.queue != [] ==> exists i :: 0 <= i < |s.workers| && Seeking(s.workers[i])
  }

  // Nothing is lost and nothing is invented: what happened plus what is owed is what the tree owes.
  ghost predicate Conserved(root: Dir, s: State) {
    forall ev :: Count(s.log, ev) + ItemsOwe(s.queue, ev) + SumBy(Owing(ev), s.workers) == RootOwes(root, ev)
  }

  ghost predicate Inv(root: Dir, s: State) {
    Structure(s) && Counted(s) && Attended(s) && Conserved(root, s)
  }

  // --- sums over workers and items ---

  lemma {:induction false} SumByPut(f: Worker -> nat, ws: seq<Worker>, i: nat, w: Worker)
    requires i < |ws|
    ensures SumBy(f, ws[i := w]) + f(ws[i]) == SumBy(f, ws) + f(w)
  {
    if i == 0 {
      assert ws[0 := w][1..] == ws[1..];
    } else {
      assert ws[i := w][1..] == ws[1..][i - 1 := w];
      SumByPut(f, ws[1..], i - 1, w);
    }
  }

  lemma {:induction false} SumByAtLeast(f: Worker -> nat, ws: seq<Worker>, i: nat)
    requires i < |ws|
    ensures SumBy(f, ws) >= f(ws[i])
  {
    if i > 0 { SumByAtLeast(f, ws[1..], i - 1); }
  }

  lemma {:induction false} SumBySame(f: Worker -> nat, ws: seq<Worker>, vs: seq<Worker>)
    requires |ws| == |vs| && forall i :: 0 <= i < |ws| ==> f(ws[i]) == f(vs[i])
    ensures SumBy(f, ws) == SumBy(f, vs)
  {
    if ws != [] { SumBySame(f, ws[1..], vs[1..]); }
  }

  lemma {:induction false} NobodyOwes(ws: seq<Worker>, ev: Event)
    requires SumBy(Weight, ws) == 0
    ensures SumBy(Owing(ev), ws) == 0
  {
    if ws != [] { NobodyOwes(ws[1..], ev); }
  }

  lemma {:induction false} ItemsOweAppend(a: seq<Item>, b: seq<Item>, ev: Event)
    ensures ItemsOwe(a + b, ev) == ItemsOwe(a, ev) + ItemsOwe(b, ev)
  {
    if a == [] {
      assert a + b == b;
    } else {
      assert (a + b)[1..] == a[1..] + b;
      ItemsOweAppend(a[1..], b, ev);
    }
  }

  // --- every transition keeps the invariants ---

  lemma {:induction false} MoverOk(s: State, l: Label)
    requires Structure(s) && Counted(s) && Enabled(s, l)
    ensures l.worker < |Apply(s, l).workers| && WorkerOk(Apply(s, l), l.worker)
  {
    assert WorkerOk(s, l.worker);
    SumByAtLeast(Weight, s.workers, l.worker);
  }

  lemma {:induction false} OtherOk(s: State, l: Label, j: nat)
    requires Structure(s) && Counted(s) && Enabled(s, l)
    requires j < |s.workers| && j != l.worker
    ensures j < |Apply(s, l).workers| && WorkerOk(Apply(s, l), j)
  {
    assert WorkerOk(s, l.worker) && WorkerOk(s, j);
    SumByAtLeast(Weight, s.workers, l.worker);
  }

  lemma {:induction false} StructureKept(s: State, l: Label)
    requires Structure(s) && Counted(s) && Enabled(s, l)
    ensures Structure(Apply(s, l))
  {
    var t := Apply(s, l);
    forall j | 0 <= j < |t.workers| ensures WorkerOk(t, j) {
      if j == l.worker { MoverOk(s, l); } else { OtherOk(s, l, j); }
    }
    StopperStays(s, l);
  }

  // Only the last subtraction leaves `pending` at zero, and it leaves somebody to clear `running`.
  lemma {:induction false} StopperStays(s: State, l: Label)
    requires Structure(s) && Counted(s) && Enabled(s, l)
    ensures var t := Apply(s, l);
            (!t.running ==> t.pending == 0) && (t.running && t.pending == 0 ==> Stopping in t.workers)
  {
    var t := Apply(s, l);
    assert WorkerOk(s, l.worker);
    SumByAtLeast(Weight, s.workers, l.worker);
    if t.running && t.pending == 0 {
      if s.pending == 0 {
        var k :| 0 <= k < |s.workers| && s.workers[k] == Stopping;
        assert t.workers[k] == Stopping;
      } else {
        assert t.workers[l.worker] == Stopping;
      }
    }
  }

  lemma {:induction false} CountedKept(s: State, l: Label)
    requires Structure(s) && Counted(s) && Enabled(s, l)
    ensures Counted(Apply(s, l))
  {
    var t, i := Apply(s, l), l.worker;
    var mid := Others(s, l);
    SumBySame(Weight, s.workers, mid);
    SumByPut(Weight, mid, i, t.workers[i]);
    assert WorkerOk(s, i);
  }

  lemma {:induction false} ConservedKept(root: Dir, s: State, l: Label)
    requires Structure(s) && Conserved(root, s) && Enabled(s, l)
    ensures Conserved(root, Apply(s, l))
  {
    var t, i := Apply(s, l), l.worker;
    var mid := Others(s, l);
    assert WorkerOk(s, i);
    forall ev
      ensures Count(t.log, ev) + ItemsOwe(t.queue, ev) + SumBy(Owing(ev), t.workers) == RootOwes(root, ev)
    {
      assert Count(s.log, ev) + ItemsOwe(s.queue, ev) + SumBy(Owing(ev), s.workers) == RootOwes(root, ev);
      SumBySame(Owing(ev), s.workers, mid);
      SumByPut(Owing(ev), mid, i, t.workers[i]);
      MoveConserves(s, l, ev);
    }
  }

  // A move turns what the moving worker and the queue owe into what they still owe and the log.
  lemma {:induction false} MoveConserves(s: State, l: Label, ev: Event)
    requires Enabled(s, l) && WorkerOk(s, l.worker)
    ensures Count(s.log, ev) + ItemsOwe(s.queue, ev) + WorkerOwes(s.workers[l.worker], ev) ==
            Count(NextLog(s, l), ev) + ItemsOwe(NextQueue(s, l), ev) + WorkerOwes(Mover(s, l), ev)
  {
    if s.workers[l.worker].Busy? { BusyMoveConserves(s, l, ev, s.workers[l.worker].task); }
  }

  lemma {:induction false} BusyMoveConserves(s: State, l: Label, ev: Event, task: Task)
    requires Enabled(s, l) && WorkerOk(s, l.worker) && s.workers[l.worker].Busy? && task == s.workers[l.worker].task
    ensures Count(s.log, ev) + ItemsOwe(s.queue, ev) + WorkerOwes(s.workers[l.worker], ev) ==
            Count(NextLog(s, l), ev) + ItemsOwe(NextQueue(s, l), ev) + WorkerOwes(Mover(s, l), ev)
  {
    match task
    case Read => ReadMoveConserves(s, l, ev, s.workers[l.worker].item, s.workers[l.worker].pos);
    case Walk(hi, found) => WalkMoveConserves(s, l, ev, s.workers[l.worker].item, s.workers[l.worker].pos, hi, found);
    case Append(found) => ItemsOweAppend(s.queue, found, ev);
    case Close => CountPush(s.log, Event(Closed, s.workers[l.worker].item.path), ev);
    case Notify =>
  }

  lemma {:induction false} ReadMoveConserves(s: State, l: Label, ev: Event, item: Item, pos: nat)
    requires Enabled(s, l) && WorkerOk(s, l.worker) && s.workers[l.worker] == Busy(item, pos, Read)
    ensures Count(s.log, ev) + ItemsOwe(s.queue, ev) + WorkerOwes(s.workers[l.worker], ev) ==
            Count(NextLog(s, l), ev) + ItemsOwe(NextQueue(s, l), ev) + WorkerOwes(Mover(s, l), ev)
  {
    EndConserves(s.log, item, ev);
  }

  lemma {:induction false} WalkMoveConserves(s: State, l: Label, ev: Event, item: Item, pos: nat, hi: nat, found: seq<Item>)
    requires Enabled(s, l) && s.workers[l.worker] == Busy(item, pos, Walk(hi, found))
    ensures Count(s.log, ev) + ItemsOwe(s.queue, ev) + WorkerOwes(s.workers[l.worker], ev) ==
            Count(NextLog(s, l), ev) + ItemsOwe(NextQueue(s, l), ev) + WorkerOwes(Mover(s, l), ev)
  {
    if pos < hi { VisitConserves(s.log, item, pos, found, ev); }
  }

  // At the end of a directory only its close is left.
  lemma EndConserves(log: seq<Event>, item: Item, ev: Event)
    ensures Count(log + [Event(Enumerated, item.path)], ev) + One(Event(Closed, item.path), ev)
         == Count(log, ev) + RestOwes(item, |item.dir.entries|, ev)
  {
    CountPush(log, Event(Enumerated, item.path), ev);
  }

  lemma {:induction false} VisitConserves(log: seq<Event>, item: Item, pos: nat, found: seq<Item>, ev: Event)
    requires pos < |item.dir.entries|
    ensures Count(log + Visited(item, pos), ev) + RestOwes(item, pos + 1, ev) + ItemsOwe(found + Discovered(item, pos), ev)
         == Count(log, ev) + RestOwes(item, pos, ev) + ItemsOwe(found, ev)
  {
    var e, q := item.dir.entries[pos], item.path + [pos];
    ItemsOweAppend(found, Discovered(item, pos), ev);
    if Visited(item, pos) == [] { assert log + [] == log; } else { CountPush(log, Visited(item, pos)[0], ev); }
    assert EntriesOwe(item.dir, item.path, pos, ev) == EntryOwes(e, q, ev) + EntriesOwe(item.dir, item.path, pos + 1, ev);
    if e.SubDir? && e.openable { assert ItemsOwe([Item(q, e.dir)], ev) == DirOwes(e.dir, q, ev); }
  }

  // Whoever moves while the queue is non-empty goes on to look at it.
  lemma {:induction false} AttendedKept(s: State, l: Label)
    requires Structure(s) && Attended(s) && Enabled(s, l)
    ensures Attended(Apply(s, l))
  {
    var t := Apply(s, l);
    assert WorkerOk(s, l.worker);
    if t.running && t.queue != [] {
      assert Seeking(t.workers[l.worker]);
    }
  }
}
