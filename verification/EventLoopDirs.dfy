/** What request slots hold, and what the directory reference counts count. */
module EventLoopDirs {
  import opened Sequences
  import opened Wrappers
  import opened RequestPool
  import opened EventLoop
  import opened EventLoopSlots

  predicate Fits(op: Op, r: Request) {
    match op
    case OpenAt => r.OpenAtRequest?
    case Close => r.CloseRequest?
    case Read => r.ReadRequest?
  }

  // Every slot that is in use holds a request of its pool's kind.
  ghost predicate KindsOk(s: Loop) {
    forall t: Token :: t.slot < |s.pools.At(t.op).slots| && FreeCount(s.pools.At(t.op), t.slot) == 0 ==>
      Fits(t.op, s.pools.At(t.op).slots[t.slot])
  }

  // An openat whose parent has not been given its reference back.
  predicate Pending(s: Loop, i: nat) {
    i < |s.pools.openat.slots| && FreeCount(s.pools.openat, i) == 0 && s.phase != Finished(Token(OpenAt, i))
  }

  ghost function Children(s: Loop, fd: Fd): set<nat> {
    set i: nat | i < |s.pools.openat.slots| && Pending(s, i) && IsOpenAt(s, i) && s.pools.openat.slots[i].parent == Some(fd)
  }

  // The references to a directory: one while it is being enumerated, one per relative openat.
  ghost function RefSum(s: Loop, fd: Fd): nat {
    OneIf(s.phase.InDir? && s.phase.fd == fd) + |Children(s, fd)|
  }

  ghost predicate RefsOk(s: Loop) {
    forall fd: Fd :: RefSum(s, fd) == (if fd in s.refs then s.refs[fd] else 0) && (fd in s.refs ==> s.refs[fd] > 0)
  }

  // --- kinds ---

  lemma EnqueueKind(s: Loop, op: Op, request: Request, t: Token)
    requires PoolsInRange(s) && KindsOk(s) && Fits(op, request)
    ensures var p := Enqueue(s, op, request).pools.At(t.op);
            t.slot < |p.slots| && FreeCount(p, t.slot) == 0 ==> Fits(t.op, p.slots[t.slot])
  {
    EnqueueParts(s, op, request);
    if t.op == op && t.slot != NextSlot(s.pools.At(op)) { TakeCounts(s.pools.At(op), request, t.slot); }
  }

  lemma EnqueueKinds(s: Loop, op: Op, request: Request)
    requires SlotsOk(s) && KindsOk(s) && Fits(op, request)
    ensures KindsOk(Enqueue(s, op, request))
  {
    var r := Enqueue(s, op, request);
    forall t: Token | t.slot < |r.pools.At(t.op).slots| && FreeCount(r.pools.At(t.op), t.slot) == 0
      ensures Fits(t.op, r.pools.At(t.op).slots[t.slot])
    {
      EnqueueKind(s, op, request, t);
    }
  }

  lemma SameKinds(s: Loop, r: Loop)
    requires KindsOk(s) && r.pools == s.pools
    ensures KindsOk(r)
  {
  }

  // Freeing a slot, or moving one along the overflow queue, leaves the others as they are.
  lemma FewerLive(s: Loop, r: Loop, op: Op, q: Pool<Request>)
    requires KindsOk(s) && r.pools == s.pools.With(op, q) && q.slots == s.pools.At(op).slots
    requires forall i: nat :: FreeCount(q, i) >= FreeCount(s.pools.At(op), i)
    ensures KindsOk(r)
  {
  }

  lemma KernelReadsKinds(s: Loop, t: Token, amount: nat)
    requires KindsOk(s) && t.op.Read? && ReadableBy(s, t.slot, amount)
    ensures KindsOk(KernelReadsStep(s, t, amount))
  {
  }

  lemma QueueReadKinds(s: Loop, fd: Fd, offset: nat)
    requires SlotsOk(s) && KindsOk(s)
    ensures KindsOk(QueueRead(s, fd, offset))
  {
    EnqueueKinds(s, Read, ReadRequest(fd, offset, []));
    SameKinds(Enqueue(s, Read, ReadRequest(fd, offset, [])), QueueRead(s, fd, offset));
  }

  lemma QueueCloseKinds(s: Loop, fd: Fd)
    requires SlotsOk(s) && KindsOk(s)
    ensures KindsOk(QueueClose(s, fd))
  {
    EnqueueKinds(s, Close, CloseRequest(fd));
    SameKinds(Enqueue(s, Close, CloseRequest(fd)), QueueClose(s, fd));
  }

  lemma DropRefKinds(s: Loop, fd: Fd)
    requires SlotInv(s) && KindsOk(s) && fd in s.refs && s.refs[fd] > 0
    ensures KindsOk(DropRef(s, fd))
  {
    if s.refs[fd] == 1 {
      var t := s.(refs := s.refs - {fd});
      SamePlaces(s, t);
      QueueCloseKinds(t, fd);
    }
  }

  lemma FinishedKinds(s: Loop, t: Token)
    requires SlotInv(s) && KindsOk(s) && t.slot < |s.pools.At(t.op).slots|
    ensures KindsOk(FinishedStep(s, t))
  {
    var q := Free(s.pools.At(t.op), t.slot);
    forall i: nat ensures FreeCount(q, i) >= FreeCount(s.pools.At(t.op), i) { FreeCounts(s.pools.At(t.op), t.slot, i); }
    FewerLive(s, FinishedStep(s, t), t.op, q);
  }

  lemma OpenDoneKinds(s: Loop, i: nat, res: int)
    requires SlotInv(s) && KindsOk(s) && IsOpenAt(s, i)
    ensures KindsOk(OpenDoneStep(s, i, res))
  {
    if res >= 0 && s.pools.openat.slots[i].isFile {
      QueueReadKinds(s, res, 0);
      SameKinds(QueueRead(s, res, 0), OpenDoneStep(s, i, res));
    } else {
      SameKinds(s, OpenDoneStep(s, i, res));
    }
  }

  lemma UnrefKinds(s: Loop, i: nat)
    requires SlotInv(s) && KindsOk(s) && s.phase == Unref(i) && PumpReady(s)
    ensures KindsOk(UnrefStep(s, i))
  {
    var parent := s.pools.openat.slots[i].parent;
    if parent.Some? {
      DropRefKinds(s, parent.value);
      SameKinds(DropRef(s, parent.value), UnrefStep(s, i));
    } else {
      SameKinds(s, UnrefStep(s, i));
    }
  }

  lemma ReadEndKinds(s: Loop, i: nat)
    requires SlotInv(s) && KindsOk(s) && s.phase.ReadDone? && s.phase.slot == i && PumpReady(s)
    ensures KindsOk(ReadEndStep(s, i))
  {
    var fd := s.pools.read.slots[i].fd;
    QueueCloseKinds(s, fd);
    SameKinds(QueueClose(s, fd), ReadEndStep(s, i));
  }

  lemma RequeueKinds(s: Loop, i: nat)
    requires SlotInv(s) && KindsOk(s) && IsRead(s, i)
    ensures KindsOk(RequeueStep(s, i))
  {
    var r := s.pools.read.slots[i];
    var next := r.offset + |r.data|;
    QueueReadKinds(s, r.fd, next);
    SameKinds(QueueRead(s, r.fd, next), RequeueStep(s, i));
  }

  lemma HandleKinds(s: Loop)
    requires SlotInv(s) && KindsOk(s) && PumpReady(s)
    ensures KindsOk(HandleStep(s))
  {
    match s.phase
    case OpenDone(i, res) => OpenDoneKinds(s, i, res);
    case Unref(i) => UnrefKinds(s, i);
    case ReadDone(i, res) =>
      if res == 0 { ReadEndKinds(s, i); } else if res > 0 { SameKinds(s, HandOverStep(s, i)); } else { SameKinds(s, ReadFailedStep(s, i)); }
    case Requeue(i) => RequeueKinds(s, i);
    case Finished(t) => FinishedKinds(s, t);
  }

  lemma ReturnSlotKinds(s: Loop)
    requires SlotInv(s) && KindsOk(s) && Enabled(s, ReturnSlot)
    ensures KindsOk(ReturnSlotStep(s))
  {
    var q := Free(s.pools.read, s.phase.slots[0]);
    forall i: nat ensures FreeCount(q, i) >= FreeCount(s.pools.read, i) { FreeCounts(s.pools.read, s.phase.slots[0], i); }
    FewerLive(s, ReturnSlotStep(s), Read, q);
  }

  lemma KindsKept(s: Loop, e: Event)
    requires SlotInv(s) && KindsOk(s) && Enabled(s, e)
    ensures KindsOk(Apply(s, e))
  {
    match e
    case QueueRoot(isFile) => EnqueueKinds(s, OpenAt, OpenAtRequest(None, isFile));
    case ListEntry(isFile) =>
      var u := s.(refs := s.refs[s.phase.fd := s.refs[s.phase.fd] + 1]);
      SamePlaces(s, u);
      EnqueueKinds(u, OpenAt, OpenAtRequest(Some(s.phase.fd), isFile));
    case EndDir => DropRefKinds(s, s.phase.fd);
    case PopOverflow =>
      var p := s.pools.At(FirstWaiting(s));
      FewerLive(s, PopStep(s, FirstWaiting(s)), FirstWaiting(s), p.(waiting := p.waiting[1..]));
    case ReturnSlot => ReturnSlotKinds(s);
    case Handle => HandleKinds(s);
    case KernelReads(t, amount) => KernelReadsKinds(s, t, amount);
    case _ => SameKinds(s, Apply(s, e));
  }

  // --- reference counts ---

  // The part of the state that decides which openats are pending.
  ghost predicate SameChildren(s: Loop, r: Loop) {
    forall fd: Fd :: Children(r, fd) == Children(s, fd)
  }

  lemma OpenAtPoolUntouched(s: Loop, r: Loop)
    requires r.pools.openat.slots == s.pools.openat.slots
    requires r.pools.openat.free == s.pools.openat.free && r.pools.openat.overflowFree == s.pools.openat.overflowFree
    requires !(s.phase.Finished? && s.phase.token.op.OpenAt?) || r.phase == s.phase
    requires !(r.phase.Finished? && r.phase.token.op.OpenAt?) || r.phase == s.phase
    ensures SameChildren(s, r)
  {
    forall fd: Fd ensures Children(r, fd) == Children(s, fd) {
      assert forall i: nat :: Pending(r, i) == Pending(s, i);
    }
  }

  lemma SameRefs(s: Loop, r: Loop)
    requires RefsOk(s) && SameChildren(s, r) && r.refs == s.refs
    requires (s.phase.InDir? || r.phase.InDir?) ==> s.phase == r.phase
    ensures RefsOk(r)
  {
    forall fd: Fd ensures RefSum(r, fd) == RefSum(s, fd) { assert Children(r, fd) == Children(s, fd); }
  }

  lemma EnqueuePending(s: Loop, request: Request, j: nat)
    requires SlotsOk(s) && !s.phase.Finished?
    ensures var r, i := Enqueue(s, OpenAt, request), NextSlot(s.pools.openat);
            !Pending(s, i) && (Pending(r, j) <==> Pending(s, j) || j == i) &&
            (Pending(r, j) ==> r.pools.openat.slots[j] == if j == i then request else s.pools.openat.slots[j])
  {
    var p := s.pools.openat;
    var i := NextSlot(p);
    EnqueueParts(s, OpenAt, request);
    AtPlace(s, Token(OpenAt, i));
    TakeCounts(p, request, j);
    TakeCounts(p, request, i);
    assert i < |p.slots| ==> FreeCount(p, i) > 0;
  }

  // A new openat adds its slot to its parent's children and to nobody else's.
  lemma EnqueueOpenAtChildren(s: Loop, parent: Option<Fd>, isFile: bool, fd: Fd)
    requires SlotsOk(s) && !s.phase.Finished?
    ensures var r, i := Enqueue(s, OpenAt, OpenAtRequest(parent, isFile)), NextSlot(s.pools.openat);
            i !in Children(s, fd) && Children(r, fd) == Children(s, fd) + (if parent == Some(fd) then {i} else {})
  {
    var request := OpenAtRequest(parent, isFile);
    var r, i := Enqueue(s, OpenAt, request), NextSlot(s.pools.openat);
    var added := if parent == Some(fd) then {i} else {};
    EnqueuePending(s, request, i);
    forall j: nat ensures j in Children(r, fd) <==> j in Children(s, fd) + added { EnqueuePending(s, request, j); }
  }

  lemma ListEntrySum(s: Loop, u: Loop, fd: Fd, isFile: bool, g: Fd)
    requires SlotsOk(u) && !u.phase.Finished? && Children(u, g) == Children(s, g) && u.phase == s.phase
    ensures RefSum(Enqueue(u, OpenAt, OpenAtRequest(Some(fd), isFile)), g) == RefSum(s, g) + OneIf(g == fd)
  {
    EnqueueParts(u, OpenAt, OpenAtRequest(Some(fd), isFile));
    EnqueueOpenAtChildren(u, Some(fd), isFile, g);
  }

  lemma ListEntryRefs(s: Loop, isFile: bool)
    requires SlotInv(s) && RefsOk(s) && s.phase.InDir? && s.phase.fd in s.refs
    ensures RefsOk(QueueOpenAt(s, s.phase.fd, isFile))
  {
    var fd := s.phase.fd;
    var u := s.(refs := s.refs[fd := s.refs[fd] + 1]);
    var r := QueueOpenAt(s, fd, isFile);
    SamePlaces(s, u);
    OpenAtPoolUntouched(s, u);
    forall g: Fd ensures RefSum(r, g) == RefSum(s, g) + OneIf(g == fd) {
      assert Children(u, g) == Children(s, g);
      ListEntrySum(s, u, fd, isFile, g);
    }
    EnqueueParts(u, OpenAt, OpenAtRequest(Some(fd), isFile));
    RaisedRefs(s, r, fd);
  }

  lemma RaisedRefs(s: Loop, r: Loop, fd: Fd)
    requires RefsOk(s) && fd in s.refs && r.refs == s.refs[fd := s.refs[fd] + 1]
    requires forall g: Fd :: RefSum(r, g) == RefSum(s, g) + OneIf(g == fd)
    ensures RefsOk(r)
  {
    forall g: Fd ensures RefSum(r, g) == (if g in r.refs then r.refs[g] else 0) && (g in r.refs ==> r.refs[g] > 0) {
      assert RefSum(s, g) == if g in s.refs then s.refs[g] else 0;
    }
  }

  lemma QueueRootRefs(s: Loop, isFile: bool)
    requires SlotInv(s) && RefsOk(s) && s.phase.Idle?
    ensures RefsOk(Enqueue(s, OpenAt, OpenAtRequest(None, isFile)))
  {
    var r := Enqueue(s, OpenAt, OpenAtRequest(None, isFile));
    forall g: Fd ensures Children(r, g) == Children(s, g) { EnqueueOpenAtChildren(s, None, isFile, g); }
    SameRefs(s, r);
  }

  // Dropping a reference matches either the end of the enumeration or one child less.
  lemma DropRefRefs(s: Loop, fd: Fd, r: Loop)
    requires RefsOk(s) && PoolsInRange(s) && fd in s.refs && s.refs[fd] > 0 && r.refs == DropRef(s, fd).refs
    requires RefSum(r, fd) == RefSum(s, fd) - 1
    requires forall g: Fd :: g != fd ==> RefSum(r, g) == RefSum(s, g)
    ensures RefsOk(r)
  {
    forall g: Fd ensures RefSum(r, g) == (if g in r.refs then r.refs[g] else 0) && (g in r.refs ==> r.refs[g] > 0) {
      assert RefSum(s, g) == if g in s.refs then s.refs[g] else 0;
    }
  }

  lemma EndDirRefs(s: Loop)
    requires RefsOk(s) && PoolsInRange(s) && s.phase.InDir? && s.phase.fd in s.refs && s.refs[s.phase.fd] > 0
    ensures RefsOk(DropRef(s, s.phase.fd).(phase := Dirs(s.phase.rest)))
  {
    var r := DropRef(s, s.phase.fd).(phase := Dirs(s.phase.rest));
    OpenAtPoolUntouched(s, r);
    assert forall g: Fd :: Children(r, g) == Children(s, g);
    DropRefRefs(s, s.phase.fd, r);
  }

  lemma UnrefChildren(s: Loop, i: nat, g: Fd)
    requires SlotsOk(s) && s.phase == Unref(i) && PumpReady(s)
    ensures Children(UnrefStep(s, i), g) == Children(s, g) - {i}
  {
    var r := UnrefStep(s, i);
    assert forall j: nat :: Pending(r, j) <==> Pending(s, j) && j != i;
  }

  lemma UnrefRefs(s: Loop, i: nat)
    requires SlotInv(s) && KindsOk(s) && RefsOk(s) && s.phase == Unref(i) && PumpReady(s)
    ensures RefsOk(UnrefStep(s, i))
  {
    var r, parent := UnrefStep(s, i), s.pools.openat.slots[i].parent;
    AtPlace(s, Token(OpenAt, i));
    assert Pending(s, i);
    forall g: Fd ensures Children(r, g) == Children(s, g) - {i} { UnrefChildren(s, i, g); }
    if parent.Some? {
      assert i in Children(s, parent.value);
      DropRefRefs(s, parent.value, r);
    } else {
      SameRefs(s, r);
    }
  }

  lemma FinishedChildren(s: Loop, i: nat)
    requires SlotInv(s) && s.phase == Finished(Token(OpenAt, i)) && i < |s.pools.openat.slots|
    ensures SameChildren(s, FinishedStep(s, Token(OpenAt, i)))
  {
    var r := FinishedStep(s, Token(OpenAt, i));
    forall j: nat ensures Pending(r, j) == Pending(s, j) { FreeCounts(s.pools.openat, i, j); }
    forall fd: Fd ensures Children(r, fd) == Children(s, fd) { }
  }

  // Freeing an openat's slot after its parent got the reference back changes nothing.
  lemma FinishedRefs(s: Loop, t: Token)
    requires SlotInv(s) && RefsOk(s) && s.phase == Finished(t) && t.slot < |s.pools.At(t.op).slots|
    ensures RefsOk(FinishedStep(s, t))
  {
    var r := FinishedStep(s, t);
    if t.op.OpenAt? {
      FinishedChildren(s, t.slot);
    } else {
      OpenAtPoolUntouched(s, r);
    }
    SameRefs(s, r);
  }

  lemma BeginDirRefs(s: Loop)
    requires RefsOk(s) && s.phase.Dirs? && s.phase.rest != [] && s.phase.rest[0] !in s.refs
    ensures RefsOk(BeginDirStep(s))
  {
    var r := BeginDirStep(s);
    OpenAtPoolUntouched(s, r);
    forall g: Fd ensures RefSum(r, g) == (if g in r.refs then r.refs[g] else 0) && (g in r.refs ==> r.refs[g] > 0) {
      assert RefSum(s, g) == if g in s.refs then s.refs[g] else 0;
      assert Children(r, g) == Children(s, g);
    }
  }

  lemma UntouchedRefs(s: Loop, r: Loop)
    requires RefsOk(s) && r.refs == s.refs
    requires r.pools.openat.slots == s.pools.openat.slots
    requires r.pools.openat.free == s.pools.openat.free && r.pools.openat.overflowFree == s.pools.openat.overflowFree
    requires !(s.phase.Finished? && s.phase.token.op.OpenAt?) || r.phase == s.phase
    requires !(r.phase.Finished? && r.phase.token.op.OpenAt?) || r.phase == s.phase
    requires (s.phase.InDir? || r.phase.InDir?) ==> s.phase == r.phase
    ensures RefsOk(r)
  {
    OpenAtPoolUntouched(s, r);
    SameRefs(s, r);
  }

  lemma OpenDoneRefs(s: Loop, i: nat, res: int)
    requires RefsOk(s) && PoolsInRange(s) && s.phase == OpenDone(i, res) && IsOpenAt(s, i)
    ensures RefsOk(OpenDoneStep(s, i, res))
  {
    if res >= 0 { EnqueueParts(s, Read, ReadRequest(res, 0, [])); }
    UntouchedRefs(s, OpenDoneStep(s, i, res));
  }

  lemma ReadEndRefs(s: Loop, i: nat)
    requires RefsOk(s) && PoolsInRange(s) && s.phase.ReadDone? && s.phase.slot == i && PumpReady(s)
    ensures RefsOk(ReadEndStep(s, i))
  {
    EnqueueParts(s, Close, CloseRequest(s.pools.read.slots[i].fd));
    UntouchedRefs(s, ReadEndStep(s, i));
  }

  lemma RequeueRefs(s: Loop, i: nat)
    requires RefsOk(s) && PoolsInRange(s) && s.phase == Requeue(i) && IsRead(s, i)
    ensures RefsOk(RequeueStep(s, i))
  {
    var r := s.pools.read.slots[i];
    EnqueueParts(s, Read, ReadRequest(r.fd, r.offset + |r.data|, []));
    UntouchedRefs(s, RequeueStep(s, i));
  }

  lemma HandleRefs(s: Loop)
    requires SlotInv(s) && KindsOk(s) && RefsOk(s) && PumpReady(s)
    ensures RefsOk(HandleStep(s))
  {
    match s.phase
    case OpenDone(i, res) => OpenDoneRefs(s, i, res);
    case Unref(i) => UnrefRefs(s, i);
    case ReadDone(i, res) =>
      if res == 0 { ReadEndRefs(s, i); } else if res > 0 { UntouchedRefs(s, HandOverStep(s, i)); } else { UntouchedRefs(s, ReadFailedStep(s, i)); }
    case Requeue(i) => RequeueRefs(s, i);
    case Finished(t) => FinishedRefs(s, t);
  }

  lemma RefsKept(s: Loop, e: Event)
    requires SlotInv(s) && KindsOk(s) && RefsOk(s) && Enabled(s, e)
    requires e.BeginDir? ==> s.phase.rest[0] !in s.refs
    ensures RefsOk(Apply(s, e))
  {
    match e
    case QueueRoot(isFile) => QueueRootRefs(s, isFile);
    case BeginDir => BeginDirRefs(s);
    case ListEntry(isFile) => ListEntryRefs(s, isFile);
    case EndDir => EndDirRefs(s);
    case Handle => HandleRefs(s);
    case PopOverflow => UntouchedRefs(s, PopStep(s, FirstWaiting(s)));
    case ReturnSlot => UntouchedRefs(s, ReturnSlotStep(s));
    case Reap(t) => UntouchedRefs(s, ReapStep(s, t));
    case KernelReads(t, amount) => UntouchedRefs(s, KernelReadsStep(s, t, amount));
    case _ => UntouchedRefs(s, Apply(s, e));
  }
}
