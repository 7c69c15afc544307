/** What whole runs of the event loop add up to: every descriptor the kernel opens is closed once, and a run
    that shows what a failed read does. */
module EventLoopRuns {
  import opened Wrappers
  import opened Sequences
  import opened RequestPool
  import opened EventLoop
  import opened EventLoopSlots
  import opened EventLoopDirs
  import opened EventLoopOwners
  import opened EventLoopDelivery
  import opened EventLoopTheorems

  // --- opened, queued for closing, closed ---

  predicate OpensFd(e: Event, fd: Fd) {
    e.KernelOpens? && e.fd == fd
  }

  predicate ClosesFd(s: Loop, e: Event, fd: Fd) {
    e.KernelCloses? && IsClose(s, e.token.slot) && s.pools.close.slots[e.token.slot].fd == fd
  }

  // The event calls `queue_close` for the descriptor: a directory lost its last reference or a read came
  // back empty.
  predicate QueuesClose(s: Loop, e: Event, fd: Fd) {
    (e.EndDir? && s.phase.InDir? && s.phase.fd == fd && fd in s.refs && s.refs[fd] == 1) ||
    (e.Handle? && HandleQueuesClose(s, fd))
  }

  predicate HandleQueuesClose(s: Loop, fd: Fd) {
    match s.phase
    case Unref(i) => IsOpenAt(s, i) && s.pools.openat.slots[i].parent == Some(fd) && fd in s.refs && s.refs[fd] == 1
    case ReadDone(i, res) => res == 0 && IsRead(s, i) && s.pools.read.slots[i].fd == fd
    case _ => false
  }

  predicate Open(s: Loop, fd: Fd) {
    fd in s.files.owner
  }

  predicate Closing(s: Loop, fd: Fd) {
    fd in s.files.owner && s.files.owner[fd].Closer?
  }

  // Read off the program's own queues.
  lemma ClosingIsQueued(s: Loop, fd: Fd)
    requires RolesOk(s)
    ensures Closing(s, fd) <==> exists i :: Role(s, fd, Closer(i))
  {
    if Closing(s, fd) { assert Role(s, fd, s.files.owner[fd]); }
  }

  /** A close is queued only for a descriptor that is open, a directory or a file being read, and not closing
      already. */
  lemma CloseFindsItOpen(s: Loop, e: Event, fd: Fd)
    requires FullInv(s) && Enabled(s, e) && QueuesClose(s, e, fd)
    ensures Open(s, fd) && !Closing(s, fd)
    ensures Role(s, fd, Dir) || exists i :: Role(s, fd, Reader(i))
  {
    if e.Handle? && s.phase.ReadDone? {
      assert Role(s, fd, Reader(s.phase.slot));
    } else {
      assert Role(s, fd, Dir);
    }
  }

  // An event leaves open what is open, and makes the descriptor `g` closing if it queues its close.
  predicate Settled(s: Loop, r: Loop, g: Fd, queued: bool) {
    (Open(r, g) <==> Open(s, g)) && (Closing(r, g) <==> Closing(s, g) || queued)
  }

  lemma OwnSettles(s: Loop, r: Loop, fd: Fd, becomes: Owner, g: Fd)
    requires Open(s, fd) && !Closing(s, fd) && r.files.owner == s.files.owner[fd := becomes]
    ensures Settled(s, r, g, g == fd && becomes.Closer?)
  {
  }

  lemma DropRefSettles(s: Loop, fd: Fd, r: Loop, g: Fd)
    requires PoolsInRange(s) && RolesOk(s) && fd in s.refs && s.refs[fd] > 0 && r.files == DropRef(s, fd).files
    ensures Settled(s, r, g, g == fd && s.refs[fd] == 1)
  {
    assert Role(s, fd, Dir);
    if s.refs[fd] == 1 {
      EnqueueParts(s.(refs := s.refs - {fd}), Close, CloseRequest(fd));
      OwnSettles(s, r, fd, Closer(NextSlot(s.pools.close)), g);
    }
  }

  lemma OpenDoneSettles(s: Loop, i: nat, res: int, g: Fd)
    requires PoolsInRange(s) && RolesOk(s) && s.phase == OpenDone(i, res) && IsOpenAt(s, i)
    ensures Settled(s, OpenDoneStep(s, i, res), g, false)
  {
    if res >= 0 {
      assert Role(s, res, Answer(i));
      if s.pools.openat.slots[i].isFile {
        EnqueueParts(s, Read, ReadRequest(res, 0, []));
        OwnSettles(s, OpenDoneStep(s, i, res), res, Reader(NextSlot(s.pools.read)), g);
      } else {
        OwnSettles(s, OpenDoneStep(s, i, res), res, Listed, g);
      }
    }
  }

  lemma ReadDoneSettles(s: Loop, i: nat, g: Fd)
    requires PoolsInRange(s) && RolesOk(s) && s.phase.ReadDone? && s.phase.slot == i && PumpReady(s)
    ensures Settled(s, HandleStep(s), g, s.phase.res == 0 && s.pools.read.slots[i].fd == g)
  {
    var fd, res := s.pools.read.slots[i].fd, s.phase.res;
    assert Role(s, fd, Reader(i));
    if res == 0 {
      EnqueueParts(s, Close, CloseRequest(fd));
      OwnSettles(s, ReadEndStep(s, i), fd, Closer(NextSlot(s.pools.close)), g);
    } else if res > 0 {
      OwnSettles(s, HandOverStep(s, i), fd, Requeuing, g);
    } else {
      OwnSettles(s, ReadFailedStep(s, i), fd, Abandoned, g);
    }
  }

  lemma RequeueSettles(s: Loop, i: nat, g: Fd)
    requires PoolsInRange(s) && RolesOk(s) && s.phase == Requeue(i) && IsRead(s, i)
    ensures Settled(s, RequeueStep(s, i), g, false)
  {
    var r := s.pools.read.slots[i];
    assert Role(s, r.fd, Requeuing);
    EnqueueParts(s, Read, ReadRequest(r.fd, r.offset + |r.data|, []));
    OwnSettles(s, RequeueStep(s, i), r.fd, Reader(NextSlot(s.pools.read)), g);
  }

  lemma HandleSettles(s: Loop, g: Fd)
    requires PoolsInRange(s) && RolesOk(s) && PumpReady(s)
    ensures Settled(s, HandleStep(s), g, HandleQueuesClose(s, g))
  {
    match s.phase
    case OpenDone(i, res) => OpenDoneSettles(s, i, res, g);
    case Unref(i) =>
      var parent := s.pools.openat.slots[i].parent;
      if parent.Some? { DropRefSettles(s, parent.value, UnrefStep(s, i), g); }
    case ReadDone(i, _) => ReadDoneSettles(s, i, g);
    case Requeue(i) => RequeueSettles(s, i, g);
    case Finished(_) =>
  }

  lemma BeginDirSettles(s: Loop, g: Fd)
    requires RolesOk(s) && s.phase.Dirs? && s.phase.rest != []
    ensures Settled(s, BeginDirStep(s), g, false)
  {
    var fd := s.phase.rest[0];
    assert ListedFds(s)[0] == fd;
    CountMember(ListedFds(s), fd);
    assert Role(s, fd, Listed);
    OwnSettles(s, BeginDirStep(s), fd, Dir, g);
  }

  lemma EnqueueSettles(s: Loop, op: Op, request: Request, g: Fd)
    requires PoolsInRange(s)
    ensures Settled(s, Enqueue(s, op, request), g, false)
  {
    EnqueueParts(s, op, request);
  }

  lemma PumpSettles(s: Loop, e: Event, g: Fd)
    requires RolesOk(s) && Enabled(s, e) && !e.KernelOpens? && !e.KernelCloses?
    ensures Settled(s, Apply(s, e), g, QueuesClose(s, e, g))
  {
    match e
    case QueueRoot(isFile) => EnqueueSettles(s, OpenAt, OpenAtRequest(None, isFile), g);
    case BeginDir => BeginDirSettles(s, g);
    case ListEntry(isFile) =>
      var fd := s.phase.fd;
      EnqueueSettles(s.(refs := s.refs[fd := s.refs[fd] + 1]), OpenAt, OpenAtRequest(Some(fd), isFile), g);
    case EndDir => DropRefSettles(s, s.phase.fd, Apply(s, e), g);
    case Handle => HandleSettles(s, g);
    case _ =>
  }

  lemma KernelSettles(s: Loop, e: Event, g: Fd)
    requires SlotsOk(s) && RolesOk(s) && Enabled(s, e) && (e.KernelOpens? || e.KernelCloses?)
    ensures OneIf(Open(s, g)) + OneIf(OpensFd(e, g)) == OneIf(ClosesFd(s, e, g)) + OneIf(Open(Apply(s, e), g))
    ensures OneIf(Closing(s, g)) == OneIf(ClosesFd(s, e, g)) + OneIf(Closing(Apply(s, e), g))
  {
    if e.KernelCloses? {
      var fd := s.pools.close.slots[e.token.slot].fd;
      assert Role(s, fd, Closer(e.token.slot));
    }
  }

  lemma StepBalance(s: Loop, e: Event, g: Fd)
    requires FullInv(s) && Enabled(s, e)
    ensures OneIf(Open(s, g)) + OneIf(OpensFd(e, g)) == OneIf(ClosesFd(s, e, g)) + OneIf(Open(Apply(s, e), g))
    ensures OneIf(Closing(s, g)) + OneIf(QueuesClose(s, e, g)) == OneIf(ClosesFd(s, e, g)) + OneIf(Closing(Apply(s, e), g))
  {
    if e.KernelOpens? || e.KernelCloses? {
      KernelSettles(s, e, g);
    } else {
      PumpSettles(s, e, g);
      if QueuesClose(s, e, g) { CloseFindsItOpen(s, e, g); }
    }
  }

  // How often the kernel opens the descriptor, its close is queued, and the kernel closes it.
  function Opens(events: seq<Event>, fd: Fd): nat {
    if events == [] then 0 else OneIf(OpensFd(events[0], fd)) + Opens(events[1..], fd)
  }

  function Queued(s: Loop, events: seq<Event>, fd: Fd): nat
    requires Possible(s, events)
    decreases events
  {
    if events == [] then 0 else OneIf(QueuesClose(s, events[0], fd)) + Queued(Apply(s, events[0]), events[1..], fd)
  }

  function Closes(s: Loop, events: seq<Event>, fd: Fd): nat
    requires Possible(s, events)
    decreases events
  {
    if events == [] then 0 else OneIf(ClosesFd(s, events[0], fd)) + Closes(Apply(s, events[0]), events[1..], fd)
  }

  /** Over any part of any run, a descriptor is closed as often as it is opened, up to its being open at the
      start and at the end, and its close is queued as often as it is carried out, up to the one outstanding. */
  lemma {:induction false} RunBalance(s: Loop, events: seq<Event>, fd: Fd)
    requires FullInv(s) && Possible(s, events)
    ensures OneIf(Open(s, fd)) + Opens(events, fd) == Closes(s, events, fd) + OneIf(Open(Run(s, events), fd))
    ensures OneIf(Closing(s, fd)) + Queued(s, events, fd) == Closes(s, events, fd) + OneIf(Closing(Run(s, events), fd))
    decreases events
  {
    if events != [] {
      StepBalance(s, events[0], fd);
      StepInv(s, events[0]);
      RunBalance(Apply(s, events[0]), events[1..], fd);
    }
  }

  /** From the start to a normal return, each opening has had its close queued once and carried out once. */
  lemma EveryOpeningIsClosedOnce(events: seq<Event>, fd: Fd)
    requires Possible(Initial(), events)
    requires var s := Run(Initial(), events); SlotTotal(s) < WORD && Enabled(s, Return)
    ensures Opens(events, fd) == Queued(Initial(), events, fd) == Closes(Initial(), events, fd)
  {
    var s := Run(Initial(), events);
    InitialInv();
    RunBalance(Initial(), events, fd);
    assert Reachable(s);
    ReturnMeansDone(s);
  }

  // --- a run in which a read fails ---

  lemma {:induction false} RunThen(s: Loop, events: seq<Event>, e: Event)
    requires Possible(s, events) && Enabled(Run(s, events), e)
    ensures Possible(s, events + [e]) && Run(s, events + [e]) == Apply(Run(s, events), e)
    decreases events
  {
    if events == [] {
      assert [e][1..] == [] && events + [e] == [e];
    } else {
      assert (events + [e])[1..] == events[1..] + [e];
      RunThen(Apply(s, events[0]), events[1..], e);
    }
  }

  lemma Then(s: Loop, e: Event) returns (r: Loop)
    requires Reachable(s) && Enabled(s, e)
    ensures Reachable(r) && r == Apply(s, e)
  {
    var events :| Possible(Initial(), events) && s == Run(Initial(), events);
    RunThen(Initial(), events, e);
    r := Apply(s, e);
  }

  lemma Ready(s: Loop)
    requires Reachable(s)
    ensures PoolsInRange(s) && InFlightOk(s)
    ensures Current(s.phase).Some? ==> PumpReady(s)
  {
    ReachableInv(s);
    PumpNeverTrips(s);
  }

  // The pump's position and the requests there are, none of them parked and none with the workers.
  predicate Shape(s: Loop, phase: Phase, ring: Ring, leaked: set<nat>) {
    s.phase == phase && s.ring == ring && s.hand == Handoff([], [], [], leaked) && s.dents == [] && NoneWaiting(s)
  }

  const EMPTY: Ring := Ring({}, {}, map[])

  // The pump goes round to where it decides between returning and waiting, ...
  lemma GoRound(s: Loop, ring: Ring, leaked: set<nat>) returns (r: Loop)
    requires Reachable(s) && Shape(s, Dirs([]), ring, leaked)
    ensures Reachable(r) && Shape(r, Returning([]), ring, leaked) && r.pools == s.pools && r.files == s.files
  {
    Ready(s);
    r := Then(s, DirsDone);
    r := Then(r, OverflowDone);
  }

  lemma InFlight(s: Loop, t: Token)
    requires Reachable(s) && Shape(s, Returning([]), Ring({t}, {}, map[]), {})
    ensures s.inFlight != 0
  {
    Ready(s);
    assert Outstanding(s) == 1;
  }

  // ... submits the only request there is ...
  lemma SubmitOnly(s: Loop, t: Token) returns (r: Loop)
    requires Reachable(s) && Shape(s, Dirs([]), Ring({t}, {}, map[]), {})
    ensures Reachable(r) && Shape(r, Waiting, Ring({}, {t}, map[]), {}) && r.pools == s.pools && r.files == s.files
  {
    r := GoRound(s, s.ring, {});
    Ready(r);
    InFlight(r, t);
    r := Then(r, Submit({t}));
    assert {t} - {t} == {} && {} + {t} == {t};
  }

  // ... and takes up the answer.
  lemma ReapOnly(s: Loop, t: Token, res: int) returns (r: Loop)
    requires Reachable(s) && Shape(s, Waiting, Ring({}, {}, map[t := res]), {})
    ensures Reachable(r) && Shape(r, ReapStep(s, t).phase, EMPTY, {}) && r.pools == s.pools && r.files == s.files
  {
    Ready(s);
    r := Then(s, Reap(t));
    assert map[t := res] - {t} == map[];
  }

  lemma FileQueued() returns (s: Loop, i: nat)
    ensures Reachable(s) && Shape(s, Idle, Ring({Token(OpenAt, i)}, {}, map[]), {}) && s.files.owner == map[]
    ensures i < |s.pools.openat.slots| && s.pools.openat.slots[i] == OpenAtRequest(None, true)
  {
    s := Initial();
    assert Reachable(s) by { assert Possible(s, []) && Run(s, []) == s; }
    Ready(s);
    i := NextSlot(s.pools.openat);
    EnqueueParts(s, OpenAt, OpenAtRequest(None, true));
    assert s.ring.sq + {Token(OpenAt, i)} == {Token(OpenAt, i)};
    s := Then(s, QueueRoot(true));
  }

  lemma FileSubmitted() returns (s: Loop, i: nat)
    ensures Reachable(s) && Shape(s, Waiting, Ring({}, {Token(OpenAt, i)}, map[]), {}) && s.files.owner == map[]
    ensures i < |s.pools.openat.slots| && s.pools.openat.slots[i] == OpenAtRequest(None, true)
  {
    s, i := FileQueued();
    Ready(s);
    s := Then(s, Start);
    s := SubmitOnly(s, Token(OpenAt, i));
  }

  lemma FileOpened() returns (s: Loop, i: nat)
    ensures Reachable(s) && Shape(s, OpenDone(i, 0), EMPTY, {})
    ensures i < |s.pools.openat.slots| && s.pools.openat.slots[i] == OpenAtRequest(None, true)
  {
    s, i := FileSubmitted();
    Ready(s);
    var t := Token(OpenAt, i);
    s := Then(s, KernelOpens(t, 0, []));
    assert {t} - {t} == {};
    s := ReapOnly(s, t, 0);
  }

  lemma OpenHandled(s: Loop, i: nat) returns (r: Loop, j: nat)
    requires Reachable(s) && Shape(s, OpenDone(i, 0), EMPTY, {})
    requires i < |s.pools.openat.slots| && s.pools.openat.slots[i] == OpenAtRequest(None, true)
    ensures Reachable(r) && Shape(r, Unref(i), Ring({Token(Read, j)}, {}, map[]), {}) && r.pools.openat == s.pools.openat
  {
    Ready(s);
    j := NextSlot(s.pools.read);
    EnqueueParts(s, Read, ReadRequest(0, 0, []));
    TakeKeepsWaiting(s.pools.read, ReadRequest(0, 0, []));
    assert {} + {Token(Read, j)} == {Token(Read, j)};
    r := Then(s, Handle);
  }

  lemma OpenFinished(s: Loop, i: nat, ring: Ring) returns (r: Loop)
    requires Reachable(s) && Shape(s, Unref(i), ring, {})
    requires i < |s.pools.openat.slots| && s.pools.openat.slots[i] == OpenAtRequest(None, true)
    ensures Reachable(r) && Shape(r, Dirs([]), ring, {})
  {
    Ready(s);
    r := Then(s, Handle);
    r := Then(r, Handle);
    Ready(r);
    r := Then(r, ReapDone);
  }

  lemma ReadSubmitted() returns (s: Loop, j: nat)
    ensures Reachable(s) && Shape(s, Waiting, Ring({}, {Token(Read, j)}, map[]), {})
  {
    var i;
    s, i := FileOpened();
    s, j := OpenHandled(s, i);
    s := OpenFinished(s, i, Ring({Token(Read, j)}, {}, map[]));
    s := SubmitOnly(s, Token(Read, j));
  }

  lemma ReadFails() returns (s: Loop, j: nat)
    ensures Reachable(s) && Shape(s, ReadDone(j, -5), EMPTY, {})
  {
    s, j := ReadSubmitted();
    Ready(s);
    var t := Token(Read, j);
    s := Then(s, KernelFails(t, -5));
    assert {t} - {t} == {};
    s := ReapOnly(s, t, -5);
  }

  lemma FailureHandled() returns (s: Loop, j: nat)
    ensures Reachable(s) && Shape(s, Dirs([]), EMPTY, {j})
  {
    s, j := ReadFails();
    Ready(s);
    s := Then(s, Handle);
    Ready(s);
    s := Then(s, ReapDone);
  }

  lemma LeakedCounts(s: Loop, j: nat)
    requires Reachable(s) && Shape(s, Returning([]), EMPTY, {j})
    ensures Outstanding(s) == 0 && s.inFlight != 0
  {
    Ready(s);
  }

  /** A file is opened and its first read fails: the pump comes round with nothing outstanding, and can do
      nothing but wait. */
  lemma FailedReadHangsThePump() returns (s: Loop)
    ensures Reachable(s) && s.phase == Returning([]) && Outstanding(s) == 0 && !Enabled(s, Return)
  {
    var j;
    s, j := FailureHandled();
    s := GoRound(s, EMPTY, {j});
    LeakedCounts(s, j);
  }
}
