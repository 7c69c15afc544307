/** Where request slots are, and what `in_flight_` counts. */
module EventLoopSlots {
  import opened Sequences
  import opened Wrappers
  import opened RequestPool
  import opened EventLoop

  function OneIf(b: bool): nat { if b then 1 else 0 }

  // The request the pump is handling: out of the completion queue, its slot not yet given away.
  function Current(ph: Phase): Option<Token> {
    match ph
    case OpenDone(i, _) => Some(Token(OpenAt, i))
    case Unref(i) => Some(Token(OpenAt, i))
    case ReadDone(i, _) => Some(Token(Read, i))
    case Finished(t) => Some(t)
    case _ => None
  }

  function PoolPlaces(p: Pool<Request>, i: nat): nat {
    FreeCount(p, i) + Count(p.waiting, i)
  }

  function RingPlaces(r: Ring, t: Token): nat {
    OneIf(t in r.sq) + OneIf(t in r.kernel) + OneIf(t in r.cq)
  }

  function HandPlaces(h: Handoff, t: Token): nat {
    if t.op.Read? then
      Count(h.toProcess, t.slot) + Count(h.hands, t.slot) + Count(h.freed, t.slot) + OneIf(t.slot in h.leaked)
    else 0
  }

  function PhasePlaces(ph: Phase, t: Token): nat {
    OneIf(Current(ph) == Some(t)) + if ph.Returning? && t.op.Read? then Count(ph.slots, t.slot) else 0
  }

  // In how many places slot `t.slot` of pool `t.op` is: either free list, the overflow queue, the ring,
  // the pump's hand and, for reads, the workers' queue, their hands, and the way back.
  function Places(s: Loop, t: Token): nat {
    PoolPlaces(s.pools.At(t.op), t.slot) + RingPlaces(s.ring, t) + HandPlaces(s.hand, t) + PhasePlaces(s.phase, t)
  }

  ghost predicate SlotsOk(s: Loop) {
    PoolsInRange(s) && forall t: Token :: Places(s, t) == OneIf(t.slot < |s.pools.At(t.op).slots|)
  }

  // Requests submitted to the ring and not yet handled to the end.
  function Outstanding(s: Loop): nat {
    |s.ring.sq| + |s.ring.kernel| + |s.ring.cq| + OneIf(Current(s.phase).Some?)
  }

  ghost predicate InFlightOk(s: Loop) {
    s.inFlight == (Outstanding(s) + |s.hand.leaked|) % WORD
  }

  // --- enqueuing ---

  lemma NextSlotUnused(s: Loop, op: Op)
    requires SlotsOk(s)
    ensures var t := Token(op, NextSlot(s.pools.At(op)));
            RingPlaces(s.ring, t) == 0 && HandPlaces(s.hand, t) == 0 && PhasePlaces(s.phase, t) == 0 &&
            Count(s.pools.At(op).waiting, t.slot) == 0
  {
    var p := s.pools.At(op);
    var t := Token(op, NextSlot(p));
    assert Places(s, t) == OneIf(t.slot < |p.slots|);
    assert p.free != [] ==> Count(p.free, t.slot) > 0;
  }

  // The pool's own part of the books when a slot is taken, and parked or not.
  lemma TakePlaces(p: Pool<Request>, request: Request, parked: bool, j: nat)
    requires InRange(p)
    ensures var i, q := NextSlot(p), Take(p, request);
            var r := if parked then q.(waiting := q.waiting + [i]) else q;
            PoolPlaces(r, j) + OneIf(j == i && i < |p.slots|) == PoolPlaces(p, j) + OneIf(j == i && parked) &&
            OneIf(j < |r.slots|) == OneIf(j < |p.slots|) + OneIf(j == i && i == |p.slots|)
  {
    TakeCounts(p, request, j);
    CountPush(p.waiting, NextSlot(p), j);
  }

  // A change to one pool, and at most one of its slots entering the submission queue, is settled by
  // that pool's books.
  lemma OnePoolChanged(s: Loop, r: Loop, op: Op, q: Pool<Request>, i: nat, entered: bool, t: Token)
    requires SlotsOk(s) && r.pools == s.pools.With(op, q) && r.hand == s.hand && r.phase == s.phase
    requires RingPlaces(s.ring, Token(op, i)) == 0
    requires r.ring == if entered then s.ring.(sq := s.ring.sq + {Token(op, i)}) else s.ring
    requires t.op == op ==>
               PoolPlaces(q, t.slot) + OneIf(entered && t.slot == i) + OneIf(t.slot < |s.pools.At(op).slots|) ==
               PoolPlaces(s.pools.At(op), t.slot) + OneIf(t.slot < |q.slots|)
    ensures Places(r, t) == OneIf(t.slot < |r.pools.At(t.op).slots|)
  {
    assert Places(s, t) == OneIf(t.slot < |s.pools.At(t.op).slots|);
    assert RingPlaces(r.ring, t) == RingPlaces(s.ring, t) + OneIf(entered && t == Token(op, i));
  }

  lemma EnqueuePlaces(s: Loop, op: Op, request: Request, t: Token)
    requires SlotsOk(s)
    ensures var r := Enqueue(s, op, request);
            Places(r, t) == OneIf(t.slot < |r.pools.At(t.op).slots|)
  {
    var p := s.pools.At(op);
    var i, q := NextSlot(p), Take(p, request);
    NextSlotUnused(s, op);
    TakePlaces(p, request, !Room(s), t.slot);
    EnqueueParts(s, op, request);
    OnePoolChanged(s, Enqueue(s, op, request), op, if Room(s) then q else q.(waiting := q.waiting + [i]), i, Room(s), t);
  }

  lemma EnqueueParts(s: Loop, op: Op, request: Request)
    requires PoolsInRange(s)
    ensures var p := s.pools.At(op);
            var q := Take(p, request);
            var r := Enqueue(s, op, request);
            r.pools == s.pools.With(op, if Room(s) then q else q.(waiting := q.waiting + [NextSlot(p)])) &&
            r.ring == (if Room(s) then s.ring.(sq := s.ring.sq + {Token(op, NextSlot(p))}) else s.ring) &&
            r.hand == s.hand && r.phase == s.phase && PoolsInRange(r) &&
            r.refs == s.refs && r.dents == s.dents && r.files == s.files
  {
  }

  lemma EnqueueSlots(s: Loop, op: Op, request: Request)
    requires SlotsOk(s)
    ensures SlotsOk(Enqueue(s, op, request))
  {
    var r := Enqueue(s, op, request);
    EnqueueParts(s, op, request);
    forall t: Token ensures Places(r, t) == OneIf(t.slot < |r.pools.At(t.op).slots|) { EnqueuePlaces(s, op, request, t); }
  }

  lemma EnqueueInFlight(s: Loop, op: Op, request: Request)
    requires SlotsOk(s) && InFlightOk(s)
    ensures InFlightOk(Enqueue(s, op, request))
  {
    NextSlotUnused(s, op);
    EnqueueSlots(s, op, request);
    EnqueueParts(s, op, request);
    var r := Enqueue(s, op, request);
    assert Room(s) ==> |r.ring.sq| == |s.ring.sq| + 1;
    CountedSlots(s, r);
  }

  lemma QueueCloseSlots(s: Loop, fd: Fd)
    requires SlotsOk(s) && InFlightOk(s)
    ensures SlotsOk(QueueClose(s, fd)) && InFlightOk(QueueClose(s, fd))
  {
    EnqueueSlots(s, Close, CloseRequest(fd));
    EnqueueInFlight(s, Close, CloseRequest(fd));
    SamePlaces(Enqueue(s, Close, CloseRequest(fd)), QueueClose(s, fd));
  }

  lemma QueueReadSlots(s: Loop, fd: Fd, offset: nat)
    requires SlotsOk(s) && InFlightOk(s)
    ensures SlotsOk(QueueRead(s, fd, offset)) && InFlightOk(QueueRead(s, fd, offset))
  {
    EnqueueSlots(s, Read, ReadRequest(fd, offset, []));
    EnqueueInFlight(s, Read, ReadRequest(fd, offset, []));
    SamePlaces(Enqueue(s, Read, ReadRequest(fd, offset, [])), QueueRead(s, fd, offset));
  }

  // Nothing about places depends on the reference counts, the files, or which of its own stages the
  // current request is in.
  lemma SamePlaces(s: Loop, t: Loop)
    requires SlotsOk(s) && InFlightOk(s)
    requires t.pools == s.pools && t.ring == s.ring && t.hand == s.hand && t.inFlight == s.inFlight
    requires Current(t.phase) == Current(s.phase) && (s.phase.Returning? || t.phase.Returning? ==> s.phase == t.phase)
    ensures SlotsOk(t) && InFlightOk(t)
  {
    forall u: Token ensures Places(t, u) == OneIf(u.slot < |t.pools.At(u.op).slots|) {
      assert Places(s, u) == OneIf(u.slot < |s.pools.At(u.op).slots|);
    }
  }

  lemma DropRefSlots(s: Loop, fd: Fd)
    requires SlotsOk(s) && InFlightOk(s) && fd in s.refs && s.refs[fd] > 0
    ensures SlotsOk(DropRef(s, fd)) && InFlightOk(DropRef(s, fd))
  {
    var t := s.(refs := s.refs - {fd});
    SamePlaces(s, t);
    QueueCloseSlots(t, fd);
    SamePlaces(s, s.(refs := s.refs[fd := s.refs[fd] - 1]));
  }

  // --- each kind of event moves a slot from one place to one other ---

  ghost predicate SlotInv(s: Loop) {
    SlotsOk(s) && InFlightOk(s)
  }

  // `size_t` counting up, down, and down then up.
  lemma WrapLaws(n: nat)
    ensures Inc(n % WORD) == (n + 1) % WORD
    ensures n > 0 ==> Dec(n % WORD) == (n - 1) % WORD
    ensures Inc(Dec(n % WORD)) == n % WORD
  {
  }

  // The count moves by one, and the places are in order again.
  lemma CountedSlots(s: Loop, r: Loop)
    requires SlotInv(s) && SlotsOk(r) && r.hand.leaked == s.hand.leaked
    requires (r.inFlight == Inc(s.inFlight) && Outstanding(r) == Outstanding(s) + 1) ||
             (r.inFlight == Dec(s.inFlight) && Outstanding(r) == Outstanding(s) - 1) ||
             ((r.inFlight == s.inFlight || r.inFlight == Inc(Dec(s.inFlight))) && Outstanding(r) == Outstanding(s))
    ensures SlotInv(r)
  {
    WrapLaws(Outstanding(s) + |s.hand.leaked|);
  }

  lemma AtPlace(s: Loop, t: Token)
    requires SlotsOk(s)
    ensures Places(s, t) == OneIf(t.slot < |s.pools.At(t.op).slots|)
  {
  }

  lemma WorkerTakesSlots(s: Loop)
    requires SlotInv(s) && s.hand.toProcess != []
    ensures SlotInv(WorkerTakesStep(s))
  {
    var r, h := WorkerTakesStep(s), s.hand;
    forall t: Token ensures Places(r, t) == OneIf(t.slot < |r.pools.At(t.op).slots|) {
      AtPlace(s, t);
      PopCounts(h.toProcess, t.slot);
      CountPush(h.hands, h.toProcess[0], t.slot);
    }
  }

  lemma WorkerFinishesSlots(s: Loop, k: nat)
    requires SlotInv(s) && k < |s.hand.hands|
    ensures SlotInv(WorkerFinishesStep(s, k))
  {
    var r, h := WorkerFinishesStep(s, k), s.hand;
    forall t: Token ensures Places(r, t) == OneIf(t.slot < |r.pools.At(t.op).slots|) {
      AtPlace(s, t);
      CountRemove(h.hands, k, t.slot);
      CountPush(h.freed, h.hands[k], t.slot);
    }
  }

  lemma CompleteSlots(s: Loop, t: Token, res: int)
    requires SlotInv(s) && t in s.ring.kernel
    ensures SlotInv(Complete(s, t, res))
  {
    var r := Complete(s, t, res);
    AtPlace(s, t);
    forall u: Token ensures Places(r, u) == OneIf(u.slot < |r.pools.At(u.op).slots|) { AtPlace(s, u); }
  }

  lemma KernelReadsSlots(s: Loop, t: Token, amount: nat)
    requires SlotInv(s) && t in s.ring.kernel && ReadableBy(s, t.slot, amount)
    ensures SlotInv(KernelReadsStep(s, t, amount))
  {
    var m, r := Complete(s, t, amount), KernelReadsStep(s, t, amount);
    CompleteSlots(s, t, amount);
    forall u: Token ensures Places(r, u) == OneIf(u.slot < |r.pools.At(u.op).slots|) { AtPlace(m, u); }
  }

  lemma PopCounts(w: seq<nat>, j: nat)
    requires w != []
    ensures Count(w, j) == Count(w[1..], j) + OneIf(w[0] == j)
  {
    CountRemove(w, 0, j);
    assert w[..0] + w[1..] == w[1..];
  }

  lemma WaitingNotInRing(s: Loop, op: Op)
    requires SlotsOk(s) && s.pools.At(op).waiting != []
    ensures RingPlaces(s.ring, Token(op, s.pools.At(op).waiting[0])) == 0
  {
    var w := s.pools.At(op).waiting;
    AtPlace(s, Token(op, w[0]));
    PopCounts(w, w[0]);
  }

  lemma PopPlaces(s: Loop, op: Op, t: Token)
    requires SlotsOk(s) && s.pools.At(op).waiting != []
    ensures Places(PopStep(s, op), t) == OneIf(t.slot < |PopStep(s, op).pools.At(t.op).slots|)
  {
    var p := s.pools.At(op);
    PopCounts(p.waiting, t.slot);
    WaitingNotInRing(s, op);
    OnePoolChanged(s, PopStep(s, op), op, p.(waiting := p.waiting[1..]), p.waiting[0], true, t);
  }

  lemma PopSlots(s: Loop, op: Op)
    requires SlotInv(s) && s.pools.At(op).waiting != []
    ensures SlotInv(PopStep(s, op))
  {
    var r := PopStep(s, op);
    assert InRange(s.pools.At(op)) && PoolsInRange(r);
    forall t: Token ensures Places(r, t) == OneIf(t.slot < |r.pools.At(t.op).slots|) { PopPlaces(s, op, t); }
    WaitingNotInRing(s, op);
    CountedSlots(s, r);
  }

  lemma OverflowDoneSlots(s: Loop)
    requires SlotInv(s) && s.phase.Overflow?
    ensures SlotInv(OverflowDoneStep(s))
  {
    var r := OverflowDoneStep(s);
    forall t: Token ensures Places(r, t) == OneIf(t.slot < |r.pools.At(t.op).slots|) { AtPlace(s, t); }
  }

  lemma ReturnSlotSlots(s: Loop)
    requires SlotInv(s) && s.phase.Returning? && s.phase.slots != [] && s.phase.slots[0] < |s.pools.read.slots|
    ensures SlotInv(ReturnSlotStep(s))
  {
    var r, xs := ReturnSlotStep(s), s.phase.slots;
    forall t: Token ensures Places(r, t) == OneIf(t.slot < |r.pools.At(t.op).slots|) {
      AtPlace(s, t);
      PopCounts(xs, t.slot);
      FreeCounts(s.pools.read, xs[0], t.slot);
    }
    CountedSlots(s, r);
  }

  // Leaving the drained `Returning` phase.
  lemma ReturningDoneSlots(s: Loop, ph: Phase)
    requires SlotInv(s) && s.phase == Returning([]) && !ph.Returning? && Current(ph).None?
    ensures SlotInv(s.(phase := ph))
  {
    var r := s.(phase := ph);
    forall t: Token ensures Places(r, t) == OneIf(t.slot < |r.pools.At(t.op).slots|) { AtPlace(s, t); }
  }

  lemma SubmitPlaces(s: Loop, moved: set<Token>, t: Token)
    requires SlotsOk(s) && s.phase == Returning([]) && moved <= s.ring.sq
    ensures t in moved ==> t !in s.ring.kernel
    ensures Places(SubmitStep(s, moved), t) == Places(s, t)
  {
    AtPlace(s, t);
    assert RingPlaces(SubmitStep(s, moved).ring, t) == RingPlaces(s.ring, t);
  }

  lemma SubmitOutstanding(s: Loop, moved: set<Token>)
    requires SlotsOk(s) && s.phase == Returning([]) && moved <= s.ring.sq
    ensures Outstanding(SubmitStep(s, moved)) == Outstanding(s)
  {
    forall t | t in moved ensures t !in s.ring.kernel { SubmitPlaces(s, moved, t); }
    SetMove(s.ring.sq, s.ring.kernel, moved);
  }

  lemma SubmitSlots(s: Loop, moved: set<Token>)
    requires SlotsOk(s) && s.phase == Returning([]) && moved <= s.ring.sq
    ensures SlotsOk(SubmitStep(s, moved))
  {
    var r := SubmitStep(s, moved);
    forall t: Token ensures Places(r, t) == OneIf(t.slot < |r.pools.At(t.op).slots|) {
      SubmitPlaces(s, moved, t);
      AtPlace(s, t);
    }
  }

  lemma SetMove<T>(a: set<T>, b: set<T>, m: set<T>)
    requires m <= a && m !! b
    ensures |a - m| + |b + m| == |a| + |b|
  {
    assert a == (a - m) + m;
  }

  lemma ReapSlots(s: Loop, t: Token)
    requires SlotInv(s) && t in s.ring.cq && (s.phase.Waiting? || s.phase.Reaping?)
    ensures SlotInv(ReapStep(s, t))
  {
    var r := ReapStep(s, t);
    assert |s.ring.cq - {t}| == |s.ring.cq| - 1 by { assert (s.ring.cq - {t}).Keys == s.ring.cq.Keys - {t}; }
    forall u: Token ensures Places(r, u) == OneIf(u.slot < |r.pools.At(u.op).slots|) { AtPlace(s, u); }
  }

  lemma FinishedPlaces(s: Loop, u: Token, t: Token)
    requires SlotsOk(s) && s.phase == Finished(u) && u.slot < |s.pools.At(u.op).slots|
    ensures Places(FinishedStep(s, u), t) == OneIf(t.slot < |FinishedStep(s, u).pools.At(t.op).slots|)
  {
    AtPlace(s, t);
    if t.op == u.op {
      FreeCounts(s.pools.At(u.op), u.slot, t.slot);
      assert PoolPlaces(Free(s.pools.At(u.op), u.slot), t.slot) == PoolPlaces(s.pools.At(u.op), t.slot) + OneIf(t == u);
    }
  }

  lemma FinishedInRange(s: Loop, u: Token)
    requires PoolsInRange(s) && u.slot < |s.pools.At(u.op).slots|
    ensures PoolsInRange(FinishedStep(s, u))
  {
    assert InRange(Free(s.pools.At(u.op), u.slot));
  }

  lemma FinishedSlotsOk(s: Loop, u: Token)
    requires SlotsOk(s) && s.phase == Finished(u) && u.slot < |s.pools.At(u.op).slots|
    ensures SlotsOk(FinishedStep(s, u))
  {
    FinishedInRange(s, u);
    var r := FinishedStep(s, u);
    forall t: Token ensures Places(r, t) == OneIf(t.slot < |r.pools.At(t.op).slots|) { FinishedPlaces(s, u, t); }
  }

  lemma FinishedSlots(s: Loop, u: Token)
    requires SlotInv(s) && s.phase == Finished(u) && u.slot < |s.pools.At(u.op).slots|
    ensures SlotInv(FinishedStep(s, u))
  {
    FinishedSlotsOk(s, u);
    CountedSlots(s, FinishedStep(s, u));
  }

  lemma HandOverSlots(s: Loop, i: nat)
    requires SlotInv(s) && s.phase.ReadDone? && s.phase.slot == i && PumpReady(s)
    ensures SlotInv(HandOverStep(s, i))
  {
    var r := HandOverStep(s, i);
    forall t: Token ensures Places(r, t) == OneIf(t.slot < |r.pools.At(t.op).slots|) {
      AtPlace(s, t);
      CountPush(s.hand.toProcess, i, t.slot);
    }
    CountedSlots(s, r);
  }

  lemma ReadFailedSlots(s: Loop, i: nat)
    requires SlotInv(s) && s.phase.ReadDone? && s.phase.slot == i && PumpReady(s)
    ensures SlotInv(ReadFailedStep(s, i))
  {
    var r := ReadFailedStep(s, i);
    AtPlace(s, Token(Read, i));
    forall t: Token ensures Places(r, t) == OneIf(t.slot < |r.pools.At(t.op).slots|) { AtPlace(s, t); }
  }

  lemma OpenDoneSlots(s: Loop, i: nat, res: int)
    requires SlotInv(s) && s.phase == OpenDone(i, res) && IsOpenAt(s, i)
    ensures SlotInv(OpenDoneStep(s, i, res))
  {
    if res >= 0 && s.pools.openat.slots[i].isFile {
      QueueReadSlots(s, res, 0);
      SamePlaces(QueueRead(s, res, 0), OpenDoneStep(s, i, res));
    } else {
      SamePlaces(s, OpenDoneStep(s, i, res));
    }
  }

  lemma UnrefSlots(s: Loop, i: nat)
    requires SlotInv(s) && s.phase == Unref(i) && PumpReady(s)
    ensures SlotInv(UnrefStep(s, i))
  {
    var parent := s.pools.openat.slots[i].parent;
    if parent.Some? {
      DropRefSlots(s, parent.value);
      SamePlaces(DropRef(s, parent.value), UnrefStep(s, i));
    } else {
      SamePlaces(s, UnrefStep(s, i));
    }
  }

  lemma ReadEndSlots(s: Loop, i: nat)
    requires SlotInv(s) && s.phase.ReadDone? && s.phase.slot == i && PumpReady(s)
    ensures SlotInv(ReadEndStep(s, i))
  {
    var fd := s.pools.read.slots[i].fd;
    QueueCloseSlots(s, fd);
    SamePlaces(QueueClose(s, fd), ReadEndStep(s, i));
  }

  lemma RequeueSlots(s: Loop, i: nat)
    requires SlotInv(s) && s.phase == Requeue(i) && IsRead(s, i)
    ensures SlotInv(RequeueStep(s, i))
  {
    var r := s.pools.read.slots[i];
    var next := r.offset + |r.data|;
    QueueReadSlots(s, r.fd, next);
    SamePlaces(QueueRead(s, r.fd, next), RequeueStep(s, i));
  }

  lemma HandleSlots(s: Loop)
    requires SlotInv(s) && PumpReady(s)
    ensures SlotInv(HandleStep(s))
  {
    match s.phase
    case OpenDone(i, res) => OpenDoneSlots(s, i, res);
    case Unref(i) => UnrefSlots(s, i);
    case ReadDone(i, res) =>
      if res == 0 { ReadEndSlots(s, i); } else if res > 0 { HandOverSlots(s, i); } else { ReadFailedSlots(s, i); }
    case Requeue(i) => RequeueSlots(s, i);
    case Finished(t) => FinishedSlots(s, t);
  }

  lemma ListEntrySlots(s: Loop, fd: Fd, isFile: bool)
    requires SlotInv(s) && fd in s.refs
    ensures SlotInv(QueueOpenAt(s, fd, isFile))
  {
    var u := s.(refs := s.refs[fd := s.refs[fd] + 1]);
    SamePlaces(s, u);
    EnqueueSlots(u, OpenAt, OpenAtRequest(Some(fd), isFile));
    EnqueueInFlight(u, OpenAt, OpenAtRequest(Some(fd), isFile));
  }

  lemma EndDirSlots(s: Loop)
    requires SlotInv(s) && s.phase.InDir? && s.phase.fd in s.refs && s.refs[s.phase.fd] > 0
    ensures SlotInv(DropRef(s, s.phase.fd).(phase := Dirs(s.phase.rest)))
  {
    DropRefSlots(s, s.phase.fd);
    SamePlaces(DropRef(s, s.phase.fd), DropRef(s, s.phase.fd).(phase := Dirs(s.phase.rest)));
  }

  lemma SlotsKept(s: Loop, e: Event)
    requires SlotInv(s) && Enabled(s, e)
    ensures SlotInv(Apply(s, e))
  {
    match e
    case QueueRoot(isFile) =>
      EnqueueSlots(s, OpenAt, OpenAtRequest(None, isFile));
      EnqueueInFlight(s, OpenAt, OpenAtRequest(None, isFile));
    case Start => SamePlaces(s, Apply(s, e));
    case BeginDir => SamePlaces(s, BeginDirStep(s));
    case ListEntry(isFile) => ListEntrySlots(s, s.phase.fd, isFile);
    case EndDir => EndDirSlots(s);
    case DirsDone => SamePlaces(s, Apply(s, e));
    case PopOverflow => PopSlots(s, FirstWaiting(s));
    case OverflowDone => OverflowDoneSlots(s);
    case ReturnSlot => ReturnSlotSlots(s);
    case Return => ReturningDoneSlots(s, Idle);
    case Submit(moved) => SubmitSlots(s, moved); SubmitOutstanding(s, moved); CountedSlots(s, SubmitStep(s, moved));
    case SubmitFails => ReturningDoneSlots(s, Failed);
    case Reap(t) => ReapSlots(s, t);
    case Handle => HandleSlots(s);
    case ReapDone => SamePlaces(s, Apply(s, e));
    case KernelOpens(t, fd, content) =>
      CompleteSlots(s, t, fd);
      SamePlaces(Complete(s, t, fd), KernelOpensStep(s, t, fd, content));
    case KernelCloses(t, res) =>
      CompleteSlots(s, t, res);
      SamePlaces(Complete(s, t, res), KernelClosesStep(s, t, res));
    case KernelReads(t, amount) => KernelReadsSlots(s, t, amount);
    case KernelFails(t, error) => CompleteSlots(s, t, error);
    case WorkerTakes => WorkerTakesSlots(s);
    case WorkerFinishes(k) => WorkerFinishesSlots(s, k);
  }

  lemma InitialSlots()
    ensures SlotInv(Initial())
  {
    var s := Initial();
    forall t: Token ensures Places(s, t) == OneIf(t.slot < |s.pools.At(t.op).slots|) { FreshCounts(QUEUE_SIZE, Blank, t.slot); }
  }
}
