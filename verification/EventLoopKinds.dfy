/** What the event loop was asked to open comes to its end as what it is: every directory is enumerated and
    every file is read to its end, unless its openat failed. */
module EventLoopKinds {
  import opened Wrappers
  import opened Sequences
  import opened RequestPool
  import opened EventLoop
  import opened EventLoopSlots
  import opened EventLoopDirs
  import opened EventLoopOwners
  import opened EventLoopDelivery
  import opened EventLoopTheorems

  // --- what is still to come ---

  predicate Refused(s: Loop, i: nat) {
    (Token(OpenAt, i) in s.ring.cq && s.ring.cq[Token(OpenAt, i)] < 0) ||
    (s.phase.OpenDone? && s.phase.slot == i && s.phase.res < 0)
  }

  // Slot `i` holds the openat of a file, or of a directory, that has neither failed nor been handled.
  predicate Awaits(s: Loop, isFile: bool, i: nat) {
    Pending(s, i) && IsOpenAt(s, i) && s.pools.openat.slots[i].isFile == isFile && s.phase != Unref(i) && !Refused(s, i)
  }

  ghost function Awaited(s: Loop, isFile: bool): set<nat> {
    set i: nat | i < |s.pools.openat.slots| && Awaits(s, isFile, i)
  }

  // Files that have been opened and whose close has not been queued.
  predicate InProgress(s: Loop, fd: Fd) {
    fd in s.files.owner && (s.files.owner[fd].Reader? || s.files.owner[fd].Requeuing? || s.files.owner[fd].Abandoned?)
  }

  ghost function Reading(s: Loop): set<Fd> {
    set fd | fd in s.files.owner && InProgress(s, fd)
  }

  ghost function ToCome(s: Loop, isFile: bool): nat {
    |Awaited(s, isFile)| + if isFile then |Reading(s)| else |ListedFds(s)|
  }

  // --- what happens ---

  predicate Asks(e: Event, isFile: bool) {
    (e.QueueRoot? || e.ListEntry?) && e.isFile == isFile
  }

  // An openat of the kind fails.
  predicate Refuses(s: Loop, e: Event, isFile: bool) {
    e.KernelFails? && e.token.op.OpenAt? && IsOpenAt(s, e.token.slot) && s.pools.openat.slots[e.token.slot].isFile == isFile
  }

  // A directory is taken up for enumeration, or a file comes to its end.
  predicate Serves(s: Loop, e: Event, isFile: bool) {
    if isFile then e.Handle? && s.phase.ReadDone? && s.phase.res == 0 else e.BeginDir?
  }

  // --- how the sets change ---

  lemma SameAwaited(s: Loop, r: Loop, isFile: bool)
    requires forall i: nat :: Awaits(r, isFile, i) <==> Awaits(s, isFile, i)
    ensures Awaited(r, isFile) == Awaited(s, isFile)
  {
  }

  lemma AwaitedHas(s: Loop, isFile: bool, i: nat)
    ensures i in Awaited(s, isFile) <==> Awaits(s, isFile, i)
  {
  }

  lemma AwaitedGains(s: Loop, r: Loop, isFile: bool, i: nat)
    requires forall j: nat :: Awaits(r, isFile, j) <==> Awaits(s, isFile, j) || j == i
    requires !Awaits(s, isFile, i)
    ensures |Awaited(r, isFile)| == |Awaited(s, isFile)| + 1
  {
    forall j: nat ensures j in Awaited(r, isFile) <==> j in Awaited(s, isFile) + {i} {
      AwaitedHas(s, isFile, j);
      AwaitedHas(r, isFile, j);
    }
    AwaitedHas(s, isFile, i);
    assert Awaited(r, isFile) == Awaited(s, isFile) + {i};
  }

  lemma AwaitedLoses(s: Loop, r: Loop, isFile: bool, i: nat)
    requires forall j: nat :: Awaits(r, isFile, j) <==> Awaits(s, isFile, j) && j != i
    requires Awaits(s, isFile, i)
    ensures |Awaited(r, isFile)| == |Awaited(s, isFile)| - 1
  {
    forall j: nat ensures j in Awaited(s, isFile) <==> j in Awaited(r, isFile) + {i} {
      AwaitedHas(s, isFile, j);
      AwaitedHas(r, isFile, j);
    }
    AwaitedHas(r, isFile, i);
    assert Awaited(s, isFile) == Awaited(r, isFile) + {i};
  }

  // Phases in which the pump is not at an openat.
  predicate Elsewhere(ph: Phase) {
    !ph.OpenDone? && !ph.Unref? && !(ph.Finished? && ph.token.op.OpenAt?)
  }

  lemma UntouchedAwaited(s: Loop, r: Loop, isFile: bool)
    requires r.pools.openat.slots == s.pools.openat.slots
    requires r.pools.openat.free == s.pools.openat.free && r.pools.openat.overflowFree == s.pools.openat.overflowFree
    requires forall i: nat :: Refused(r, i) == Refused(s, i)
    requires (Elsewhere(s.phase) && Elsewhere(r.phase)) || r.phase == s.phase
    ensures Awaited(r, isFile) == Awaited(s, isFile)
  {
    forall i: nat ensures Awaits(r, isFile, i) <==> Awaits(s, isFile, i) { assert Pending(r, i) == Pending(s, i); }
  }

  // A new openat joins those of its kind.
  lemma EnqueueAwaits(s: Loop, request: Request, isFile: bool, j: nat)
    requires SlotsOk(s) && Elsewhere(s.phase) && !s.phase.Finished? && request.OpenAtRequest?
    ensures var r, i := Enqueue(s, OpenAt, request), NextSlot(s.pools.openat);
            !Awaits(s, isFile, i) && (Awaits(r, isFile, j) <==> Awaits(s, isFile, j) || (j == i && request.isFile == isFile))
  {
    EnqueuePending(s, request, j);
    NextSlotUnused(s, OpenAt);
    EnqueueParts(s, OpenAt, request);
  }

  lemma EnqueueAwaited(s: Loop, request: Request, isFile: bool)
    requires SlotsOk(s) && Elsewhere(s.phase) && !s.phase.Finished? && request.OpenAtRequest?
    ensures |Awaited(Enqueue(s, OpenAt, request), isFile)| == |Awaited(s, isFile)| + OneIf(request.isFile == isFile)
  {
    var r, i := Enqueue(s, OpenAt, request), NextSlot(s.pools.openat);
    forall j: nat ensures
      !Awaits(s, isFile, i) && (Awaits(r, isFile, j) <==> Awaits(s, isFile, j) || (j == i && request.isFile == isFile))
    {
      EnqueueAwaits(s, request, isFile, j);
    }
    if request.isFile == isFile { AwaitedGains(s, r, isFile, i); } else { SameAwaited(s, r, isFile); }
  }

  lemma ListEntryAwaited(s: Loop, isFile: bool, k: bool)
    requires SlotInv(s) && s.phase.InDir? && s.phase.fd in s.refs
    ensures |Awaited(QueueOpenAt(s, s.phase.fd, isFile), k)| == |Awaited(s, k)| + OneIf(isFile == k)
  {
    var u := s.(refs := s.refs[s.phase.fd := s.refs[s.phase.fd] + 1]);
    SamePlaces(s, u);
    UntouchedAwaited(s, u, k);
    EnqueueAwaited(u, OpenAtRequest(Some(s.phase.fd), isFile), k);
  }

  // The pump handles the answer to an openat of the kind that succeeded.
  predicate Gets(s: Loop, e: Event, isFile: bool) {
    e.Handle? && s.phase.OpenDone? && s.phase.res >= 0 && IsOpenAt(s, s.phase.slot) &&
    s.pools.openat.slots[s.phase.slot].isFile == isFile
  }

  lemma OpenDoneAwaits(s: Loop, r: Loop, isFile: bool, i: nat, res: int, j: nat)
    requires s.phase == OpenDone(i, res) && r.phase == Unref(i) && r.pools.openat == s.pools.openat && r.ring.cq == s.ring.cq
    ensures Awaits(r, isFile, j) <==> Awaits(s, isFile, j) && j != i
  {
    assert FreeCount(r.pools.openat, j) == FreeCount(s.pools.openat, j);
  }

  lemma OpenDoneAwaited(s: Loop, i: nat, res: int, isFile: bool)
    requires SlotsOk(s) && s.phase == OpenDone(i, res) && IsOpenAt(s, i)
    ensures |Awaited(OpenDoneStep(s, i, res), isFile)| ==
            |Awaited(s, isFile)| - OneIf(res >= 0 && s.pools.openat.slots[i].isFile == isFile)
  {
    var r := OpenDoneStep(s, i, res);
    AtPlace(s, Token(OpenAt, i));
    if res >= 0 { EnqueueParts(s, Read, ReadRequest(res, 0, [])); }
    forall j: nat ensures Awaits(r, isFile, j) <==> Awaits(s, isFile, j) && j != i { OpenDoneAwaits(s, r, isFile, i, res, j); }
    if Awaits(s, isFile, i) { AwaitedLoses(s, r, isFile, i); } else { SameAwaited(s, r, isFile); }
  }

  lemma UnrefAwaited(s: Loop, i: nat, isFile: bool)
    requires PoolsInRange(s) && s.phase == Unref(i) && PumpReady(s)
    ensures Awaited(UnrefStep(s, i), isFile) == Awaited(s, isFile)
  {
    var r := UnrefStep(s, i);
    UnrefKeeps(s, i);
    forall j: nat ensures Awaits(r, isFile, j) <==> Awaits(s, isFile, j) {
      assert FreeCount(r.pools.openat, j) == FreeCount(s.pools.openat, j);
    }
  }

  lemma UnrefKeeps(s: Loop, i: nat)
    requires PoolsInRange(s) && s.phase == Unref(i) && PumpReady(s)
    ensures var r := UnrefStep(s, i);
            r.pools.openat == s.pools.openat && r.ring.cq == s.ring.cq && r.phase == Finished(Token(OpenAt, i))
  {
    var parent := s.pools.openat.slots[i].parent;
    if parent.Some? { DropRefParts(s, parent.value); }
  }

  lemma DropRefParts(s: Loop, fd: Fd)
    requires PoolsInRange(s) && fd in s.refs && s.refs[fd] > 0
    ensures var r := DropRef(s, fd);
            r.pools.openat == s.pools.openat && r.ring.cq == s.ring.cq && r.phase == s.phase && r.dents == s.dents &&
            (r.files.owner == s.files.owner || r.files.owner == s.files.owner[fd := Closer(NextSlot(s.pools.close))])
  {
    if s.refs[fd] == 1 { EnqueueParts(s.(refs := s.refs - {fd}), Close, CloseRequest(fd)); }
  }

  lemma FinishedAwaits(s: Loop, r: Loop, i: nat, isFile: bool, j: nat)
    requires PoolsInRange(s) && s.phase == Finished(Token(OpenAt, i)) && r.phase == Reaping && i < |s.pools.openat.slots|
    requires r.pools.openat == Free(s.pools.openat, i) && r.ring.cq == s.ring.cq
    ensures Awaits(r, isFile, j) <==> Awaits(s, isFile, j)
  {
    FreeCounts(s.pools.openat, i, j);
  }

  lemma FinishedAwaited(s: Loop, t: Token, isFile: bool)
    requires PoolsInRange(s) && s.phase == Finished(t) && t.slot < |s.pools.At(t.op).slots|
    ensures Awaited(FinishedStep(s, t), isFile) == Awaited(s, isFile)
  {
    var r := FinishedStep(s, t);
    if t.op.OpenAt? {
      forall j: nat ensures Awaits(r, isFile, j) <==> Awaits(s, isFile, j) { FinishedAwaits(s, r, t.slot, isFile, j); }
      SameAwaited(s, r, isFile);
    } else {
      UntouchedAwaited(s, r, isFile);
    }
  }

  lemma ReadDoneAwaited(s: Loop, i: nat, isFile: bool)
    requires PoolsInRange(s) && s.phase.ReadDone? && s.phase.slot == i && PumpReady(s)
    ensures Awaited(HandleStep(s), isFile) == Awaited(s, isFile)
  {
    EnqueueParts(s, Close, CloseRequest(s.pools.read.slots[i].fd));
    UntouchedAwaited(s, HandleStep(s), isFile);
  }

  lemma RequeueAwaited(s: Loop, i: nat, isFile: bool)
    requires PoolsInRange(s) && s.phase == Requeue(i) && IsRead(s, i)
    ensures Awaited(RequeueStep(s, i), isFile) == Awaited(s, isFile)
  {
    var r := s.pools.read.slots[i];
    EnqueueParts(s, Read, ReadRequest(r.fd, r.offset + |r.data|, []));
    UntouchedAwaited(s, RequeueStep(s, i), isFile);
  }

  lemma HandleAwaited(s: Loop, isFile: bool)
    requires SlotsOk(s) && PumpReady(s)
    ensures |Awaited(HandleStep(s), isFile)| + OneIf(Gets(s, Handle, isFile)) == |Awaited(s, isFile)|
  {
    match s.phase
    case OpenDone(i, res) => OpenDoneAwaited(s, i, res, isFile);
    case Unref(i) => UnrefAwaited(s, i, isFile);
    case ReadDone(i, _) => ReadDoneAwaited(s, i, isFile);
    case Requeue(i) => RequeueAwaited(s, i, isFile);
    case Finished(t) => FinishedAwaited(s, t, isFile);
  }

  lemma FailAwaits(s: Loop, t: Token, error: int, r: Loop, isFile: bool, j: nat)
    requires t.op.OpenAt? && error < 0 && t !in s.ring.cq
    requires r.pools == s.pools && r.phase == s.phase && r.ring.cq == s.ring.cq[t := error]
    ensures Awaits(r, isFile, j) <==> Awaits(s, isFile, j) && j != t.slot
  {
    assert Pending(r, j) == Pending(s, j);
  }

  lemma KernelFailsAwaited(s: Loop, t: Token, error: int, isFile: bool)
    requires SlotsOk(s) && KindsOk(s) && t in s.ring.kernel && error < 0
    ensures |Awaited(Complete(s, t, error), isFile)| + OneIf(Refuses(s, KernelFails(t, error), isFile)) == |Awaited(s, isFile)|
  {
    var r := Complete(s, t, error);
    AtPlace(s, t);
    if t.op.OpenAt? {
      assert Fits(OpenAt, s.pools.At(OpenAt).slots[t.slot]);
      forall j: nat ensures Awaits(r, isFile, j) <==> Awaits(s, isFile, j) && j != t.slot { FailAwaits(s, t, error, r, isFile, j); }
      if Awaits(s, isFile, t.slot) { AwaitedLoses(s, r, isFile, t.slot); } else { SameAwaited(s, r, isFile); }
    } else {
      UntouchedAwaited(s, r, isFile);
    }
  }

  lemma KernelOpensAwaited(s: Loop, t: Token, fd: Fd, content: Bytes, isFile: bool)
    requires SlotsOk(s) && t in s.ring.kernel
    ensures Awaited(KernelOpensStep(s, t, fd, content), isFile) == Awaited(s, isFile)
  {
    AtPlace(s, t);
    UntouchedAwaited(s, KernelOpensStep(s, t, fd, content), isFile);
  }

  lemma ReapAwaited(s: Loop, t: Token, isFile: bool)
    requires SlotsOk(s) && t in s.ring.cq && (s.phase.Waiting? || s.phase.Reaping?)
    ensures Awaited(ReapStep(s, t), isFile) == Awaited(s, isFile)
  {
    var r := ReapStep(s, t);
    AtPlace(s, t);
    forall j: nat ensures Awaits(r, isFile, j) <==> Awaits(s, isFile, j) {
      assert FreeCount(r.pools.openat, j) == FreeCount(s.pools.openat, j);
      assert Refused(r, j) == Refused(s, j);
      if t == Token(OpenAt, j) { assert FreeCount(s.pools.openat, j) == 0; }
    }
  }

  lemma EndDirAwaited(s: Loop, isFile: bool)
    requires PoolsInRange(s) && s.phase.InDir? && s.phase.fd in s.refs && s.refs[s.phase.fd] > 0
    ensures Awaited(DropRef(s, s.phase.fd).(phase := Dirs(s.phase.rest)), isFile) == Awaited(s, isFile)
  {
    DropRefParts(s, s.phase.fd);
    UntouchedAwaited(s, DropRef(s, s.phase.fd).(phase := Dirs(s.phase.rest)), isFile);
  }

  lemma QuietAwaited(s: Loop, e: Event, isFile: bool)
    requires PoolsInRange(s) && Enabled(s, e) && Quiet(e)
    ensures Awaited(Apply(s, e), isFile) == Awaited(s, isFile)
  {
    if e.PopOverflow? {
      UntouchedAwaited(s, PopStep(s, FirstWaiting(s)), isFile);
    } else if e.ReturnSlot? {
      UntouchedAwaited(s, ReturnSlotStep(s), isFile);
    } else {
      UntouchedAwaited(s, Apply(s, e), isFile);
    }
  }

  lemma KernelAwaited(s: Loop, e: Event, k: bool)
    requires SlotsOk(s) && KindsOk(s) && Enabled(s, e) && (e.KernelOpens? || e.KernelCloses? || e.KernelReads? || e.KernelFails?)
    ensures |Awaited(Apply(s, e), k)| + OneIf(Refuses(s, e, k)) == |Awaited(s, k)|
  {
    match e
    case KernelOpens(t, fd, content) => KernelOpensAwaited(s, t, fd, content, k);
    case KernelCloses(t, res) => UntouchedAwaited(s, KernelClosesStep(s, t, res), k);
    case KernelReads(t, amount) => UntouchedAwaited(s, KernelReadsStep(s, t, amount), k);
    case KernelFails(t, error) => KernelFailsAwaited(s, t, error, k);
  }

  lemma AwaitedStep(s: Loop, e: Event, k: bool)
    requires FullInv(s) && Enabled(s, e)
    ensures |Awaited(Apply(s, e), k)| + OneIf(Refuses(s, e, k)) + OneIf(Gets(s, e, k)) == |Awaited(s, k)| + OneIf(Asks(e, k))
  {
    match e
    case QueueRoot(isFile) => EnqueueAwaited(s, OpenAtRequest(None, isFile), k);
    case ListEntry(isFile) => ListEntryAwaited(s, isFile, k);
    case EndDir => EndDirAwaited(s, k);
    case Reap(t) => ReapAwaited(s, t, k);
    case Handle => HandleAwaited(s, k);
    case KernelOpens(_, _, _) => KernelAwaited(s, e, k);
    case KernelFails(_, _) => KernelAwaited(s, e, k);
    case KernelReads(_, _) => KernelAwaited(s, e, k);
    case KernelCloses(_, _) => KernelAwaited(s, e, k);
    case BeginDir => UntouchedAwaited(s, BeginDirStep(s), k);
    case _ => QuietAwaited(s, e, k);
  }

  // --- directories waiting to be enumerated ---

  lemma HandleLists(s: Loop)
    requires PoolsInRange(s) && PumpReady(s)
    ensures |ListedFds(HandleStep(s))| == |ListedFds(s)| + OneIf(Gets(s, Handle, false))
  {
    match s.phase
    case OpenDone(i, res) => if res >= 0 { EnqueueParts(s, Read, ReadRequest(res, 0, [])); }
    case Unref(i) =>
      var parent := s.pools.openat.slots[i].parent;
      if parent.Some? { DropRefParts(s, parent.value); }
    case ReadDone(i, _) => EnqueueParts(s, Close, CloseRequest(s.pools.read.slots[i].fd));
    case Requeue(i) =>
      var r := s.pools.read.slots[i];
      EnqueueParts(s, Read, ReadRequest(r.fd, r.offset + |r.data|, []));
    case Finished(_) =>
  }

  lemma ListedStep(s: Loop, e: Event)
    requires FullInv(s) && Enabled(s, e)
    ensures |ListedFds(Apply(s, e))| + OneIf(e.BeginDir?) == |ListedFds(s)| + OneIf(Gets(s, e, false))
  {
    match e
    case QueueRoot(isFile) => EnqueueParts(s, OpenAt, OpenAtRequest(None, isFile));
    case ListEntry(isFile) =>
      var u := s.(refs := s.refs[s.phase.fd := s.refs[s.phase.fd] + 1]);
      EnqueueParts(u, OpenAt, OpenAtRequest(Some(s.phase.fd), isFile));
    case EndDir => DropRefParts(s, s.phase.fd);
    case Handle => HandleLists(s);
    case _ =>
  }

  // --- files being read ---

  lemma SameReading(s: Loop, r: Loop)
    requires r.files.owner == s.files.owner
    ensures Reading(r) == Reading(s)
  {
  }

  // One descriptor changes its role.
  lemma ReadingAfter(s: Loop, r: Loop, fd: Fd, becomes: Owner)
    requires r.files.owner == s.files.owner[fd := becomes]
    ensures |Reading(r)| == |Reading(s)| - OneIf(InProgress(s, fd)) + OneIf(InProgress(r, fd))
  {
    forall g ensures g in Reading(s) - {fd} <==> g in Reading(r) - {fd} {
      if g != fd { assert InProgress(s, g) == InProgress(r, g); }
    }
    assert Reading(s) - {fd} == Reading(r) - {fd};
    assert (fd in Reading(s) <==> InProgress(s, fd)) && (fd in Reading(r) <==> InProgress(r, fd));
    Without(Reading(s), fd);
    Without(Reading(r), fd);
  }

  lemma Without(fds: set<Fd>, fd: Fd)
    ensures |fds| == |fds - {fd}| + OneIf(fd in fds)
  {
    if fd in fds {
      assert fds == (fds - {fd}) + {fd};
    } else {
      assert fds == fds - {fd};
    }
  }

  lemma DropRefReading(s: Loop, fd: Fd, r: Loop)
    requires PoolsInRange(s) && RolesOk(s) && fd in s.refs && s.refs[fd] > 0 && r.files == DropRef(s, fd).files
    ensures |Reading(r)| == |Reading(s)|
  {
    assert Role(s, fd, Dir);
    DropRefParts(s, fd);
    if r.files.owner == s.files.owner {
      SameReading(s, r);
    } else {
      ReadingAfter(s, r, fd, Closer(NextSlot(s.pools.close)));
    }
  }

  lemma OpenDoneReading(s: Loop, i: nat, res: int)
    requires PoolsInRange(s) && RolesOk(s) && s.phase == OpenDone(i, res) && IsOpenAt(s, i)
    ensures |Reading(OpenDoneStep(s, i, res))| == |Reading(s)| + OneIf(res >= 0 && s.pools.openat.slots[i].isFile)
  {
    var r := OpenDoneStep(s, i, res);
    if res < 0 {
      SameReading(s, r);
    } else {
      assert Role(s, res, Answer(i));
      if s.pools.openat.slots[i].isFile {
        EnqueueParts(s, Read, ReadRequest(res, 0, []));
        ReadingAfter(s, r, res, Reader(NextSlot(s.pools.read)));
      } else {
        ReadingAfter(s, r, res, Listed);
      }
    }
  }

  lemma ReadDoneReading(s: Loop, i: nat)
    requires PoolsInRange(s) && RolesOk(s) && s.phase.ReadDone? && s.phase.slot == i && PumpReady(s)
    ensures |Reading(HandleStep(s))| + OneIf(s.phase.res == 0) == |Reading(s)|
  {
    var fd, res := s.pools.read.slots[i].fd, s.phase.res;
    assert Role(s, fd, Reader(i));
    if res == 0 {
      EnqueueParts(s, Close, CloseRequest(fd));
      ReadingAfter(s, ReadEndStep(s, i), fd, Closer(NextSlot(s.pools.close)));
    } else if res > 0 {
      ReadingAfter(s, HandOverStep(s, i), fd, Requeuing);
    } else {
      ReadingAfter(s, ReadFailedStep(s, i), fd, Abandoned);
    }
  }

  lemma RequeueReading(s: Loop, i: nat)
    requires PoolsInRange(s) && RolesOk(s) && s.phase == Requeue(i) && IsRead(s, i)
    ensures |Reading(RequeueStep(s, i))| == |Reading(s)|
  {
    var r := s.pools.read.slots[i];
    assert Role(s, r.fd, Requeuing);
    EnqueueParts(s, Read, ReadRequest(r.fd, r.offset + |r.data|, []));
    ReadingAfter(s, RequeueStep(s, i), r.fd, Reader(NextSlot(s.pools.read)));
  }

  lemma HandleReading(s: Loop)
    requires PoolsInRange(s) && RolesOk(s) && PumpReady(s)
    ensures |Reading(HandleStep(s))| + OneIf(Serves(s, Handle, true)) == |Reading(s)| + OneIf(Gets(s, Handle, true))
  {
    match s.phase
    case OpenDone(i, res) => OpenDoneReading(s, i, res);
    case Unref(i) =>
      var parent := s.pools.openat.slots[i].parent;
      if parent.Some? { DropRefReading(s, parent.value, UnrefStep(s, i)); } else { SameReading(s, UnrefStep(s, i)); }
    case ReadDone(i, _) => ReadDoneReading(s, i);
    case Requeue(i) => RequeueReading(s, i);
    case Finished(t) => SameReading(s, FinishedStep(s, t));
  }

  lemma BeginDirReading(s: Loop)
    requires RolesOk(s) && s.phase.Dirs? && s.phase.rest != []
    ensures |Reading(BeginDirStep(s))| == |Reading(s)|
  {
    var fd := s.phase.rest[0];
    assert ListedFds(s)[0] == fd;
    CountMember(ListedFds(s), fd);
    assert Role(s, fd, Listed);
    ReadingAfter(s, BeginDirStep(s), fd, Dir);
  }

  lemma KernelClosesReading(s: Loop, t: Token, res: int)
    requires RolesOk(s) && t in s.ring.kernel && t.op.Close? && IsClose(s, t.slot)
    ensures Reading(KernelClosesStep(s, t, res)) == Reading(s)
  {
    var fd := s.pools.close.slots[t.slot].fd;
    assert Role(s, fd, Closer(t.slot));
  }

  lemma ReadingStep(s: Loop, e: Event)
    requires FullInv(s) && Enabled(s, e)
    ensures |Reading(Apply(s, e))| + OneIf(Serves(s, e, true)) == |Reading(s)| + OneIf(Gets(s, e, true))
  {
    match e
    case QueueRoot(isFile) =>
      EnqueueParts(s, OpenAt, OpenAtRequest(None, isFile));
      SameReading(s, Apply(s, e));
    case BeginDir => BeginDirReading(s);
    case ListEntry(isFile) =>
      var u := s.(refs := s.refs[s.phase.fd := s.refs[s.phase.fd] + 1]);
      EnqueueParts(u, OpenAt, OpenAtRequest(Some(s.phase.fd), isFile));
      SameReading(s, Apply(s, e));
    case EndDir => DropRefReading(s, s.phase.fd, Apply(s, e));
    case Handle => HandleReading(s);
    case KernelOpens(t, fd, content) => ReadingAfter(s, KernelOpensStep(s, t, fd, content), fd, Answer(t.slot));
    case KernelCloses(t, res) => KernelClosesReading(s, t, res);
    case _ => SameReading(s, Apply(s, e));
  }

  // --- over whole runs ---

  lemma StepToCome(s: Loop, e: Event, isFile: bool)
    requires FullInv(s) && Enabled(s, e)
    ensures ToCome(s, isFile) + OneIf(Asks(e, isFile)) ==
            OneIf(Serves(s, e, isFile)) + OneIf(Refuses(s, e, isFile)) + ToCome(Apply(s, e), isFile)
  {
    AwaitedStep(s, e, isFile);
    if isFile { ReadingStep(s, e); } else { ListedStep(s, e); }
  }

  // How many files, or directories, the loop is asked to open.
  function Asked(events: seq<Event>, isFile: bool): nat {
    if events == [] then 0 else OneIf(Asks(events[0], isFile)) + Asked(events[1..], isFile)
  }

  function Served(s: Loop, events: seq<Event>, isFile: bool): nat
    requires Possible(s, events)
    decreases events
  {
    if events == [] then 0 else OneIf(Serves(s, events[0], isFile)) + Served(Apply(s, events[0]), events[1..], isFile)
  }

  function RefusedOf(s: Loop, events: seq<Event>, isFile: bool): nat
    requires Possible(s, events)
    decreases events
  {
    if events == [] then 0 else OneIf(Refuses(s, events[0], isFile)) + RefusedOf(Apply(s, events[0]), events[1..], isFile)
  }

  /** Over any part of any run: what was to come at the start and what was asked for has been served, has been
      refused by the kernel, or is still to come. */
  lemma {:induction false} RunToCome(s: Loop, events: seq<Event>, isFile: bool)
    requires FullInv(s) && Possible(s, events)
    ensures ToCome(s, isFile) + Asked(events, isFile) ==
            Served(s, events, isFile) + RefusedOf(s, events, isFile) + ToCome(Run(s, events), isFile)
    decreases events
  {
    if events != [] {
      StepToCome(s, events[0], isFile);
      StepInv(s, events[0]);
      RunToCome(Apply(s, events[0]), events[1..], isFile);
    }
  }

  // The end of a file is what `closed` records.
  lemma {:induction false} ServedFilesAreClosed(s: Loop, events: seq<Event>)
    requires FullInv(s) && Possible(s, events)
    ensures |Run(s, events).files.closed| == |s.files.closed| + Served(s, events, true)
    decreases events
  {
    if events != [] {
      ClosedStep(s, events[0]);
      StepInv(s, events[0]);
      ServedFilesAreClosed(Apply(s, events[0]), events[1..]);
    }
  }

  lemma ClosedStep(s: Loop, e: Event)
    requires PoolsInRange(s) && Enabled(s, e)
    ensures |Apply(s, e).files.closed| == |s.files.closed| + OneIf(Serves(s, e, true))
  {
    match e
    case QueueRoot(isFile) => EnqueueParts(s, OpenAt, OpenAtRequest(None, isFile));
    case ListEntry(isFile) =>
      var u := s.(refs := s.refs[s.phase.fd := s.refs[s.phase.fd] + 1]);
      EnqueueParts(u, OpenAt, OpenAtRequest(Some(s.phase.fd), isFile));
    case EndDir => DropRefClosed(s, s.phase.fd);
    case Handle => HandleClosed(s);
    case _ =>
  }

  lemma DropRefClosed(s: Loop, fd: Fd)
    requires PoolsInRange(s) && fd in s.refs && s.refs[fd] > 0
    ensures DropRef(s, fd).files.closed == s.files.closed
  {
    if s.refs[fd] == 1 { EnqueueParts(s.(refs := s.refs - {fd}), Close, CloseRequest(fd)); }
  }

  lemma HandleClosed(s: Loop)
    requires PoolsInRange(s) && PumpReady(s)
    ensures |HandleStep(s).files.closed| == |s.files.closed| + OneIf(Serves(s, Handle, true))
  {
    match s.phase
    case OpenDone(i, res) => if res >= 0 { EnqueueParts(s, Read, ReadRequest(res, 0, [])); }
    case Unref(i) =>
      var parent := s.pools.openat.slots[i].parent;
      if parent.Some? { DropRefClosed(s, parent.value); }
    case ReadDone(i, _) => EnqueueParts(s, Close, CloseRequest(s.pools.read.slots[i].fd));
    case Requeue(i) =>
      var r := s.pools.read.slots[i];
      EnqueueParts(s, Read, ReadRequest(r.fd, r.offset + |r.data|, []));
    case Finished(_) =>
  }

  lemma NothingToCome(s: Loop, isFile: bool)
    requires Reachable(s) && SlotTotal(s) < WORD && Enabled(s, Return)
    ensures ToCome(s, isFile) == 0
  {
    ReachableInv(s);
    ReturnMeansDone(s);
    forall i: nat ensures !Pending(s, i) { AtPlace(s, Token(OpenAt, i)); }
    assert Awaited(s, isFile) == {};
    assert Reading(s) == {};
  }

  lemma NothingYet(isFile: bool)
    ensures ToCome(Initial(), isFile) == 0
  {
    var s := Initial();
    forall i: nat ensures !Pending(s, i) { FreshCounts(QUEUE_SIZE, Blank, i); }
    assert Awaited(s, isFile) == {};
    assert Reading(s) == {};
  }

  // Failures of an openat, of whatever kind.
  function OpenFailures(events: seq<Event>): nat {
    if events == [] then 0
    else OneIf(events[0].KernelFails? && events[0].token.op.OpenAt?) + OpenFailures(events[1..])
  }

  lemma {:induction false} RefusedAreFailures(s: Loop, events: seq<Event>, isFile: bool)
    requires Possible(s, events)
    ensures RefusedOf(s, events, isFile) <= OpenFailures(events)
    decreases events
  {
    if events != [] { RefusedAreFailures(Apply(s, events[0]), events[1..], isFile); }
  }

  // How often a directory is taken up for enumeration.
  function Enumerations(events: seq<Event>): nat {
    if events == [] then 0 else OneIf(events[0].BeginDir?) + Enumerations(events[1..])
  }

  lemma {:induction false} ServedDirsAreEnumerated(s: Loop, events: seq<Event>)
    requires Possible(s, events)
    ensures Served(s, events, false) == Enumerations(events)
    decreases events
  {
    if events != [] { ServedDirsAreEnumerated(Apply(s, events[0]), events[1..]); }
  }

  /** From the start to a normal return, every directory the loop was asked to open, as a root or because it was
      listed, has been enumerated, except those whose openat failed. */
  lemma EveryDirectoryIsEnumerated(events: seq<Event>)
    requires Possible(Initial(), events)
    requires var s := Run(Initial(), events); SlotTotal(s) < WORD && Enabled(s, Return)
    ensures Asked(events, false) == Enumerations(events) + RefusedOf(Initial(), events, false)
    ensures Enumerations(events) <= Asked(events, false) <= Enumerations(events) + OpenFailures(events)
  {
    ToTheReturn(events, false);
    ServedDirsAreEnumerated(Initial(), events);
    RefusedAreFailures(Initial(), events, false);
  }

  /** ... and every file has been read to its end and given whole to the read handler, with the same exception. */
  lemma EveryFileIsRead(events: seq<Event>)
    requires Possible(Initial(), events)
    requires var s := Run(Initial(), events); SlotTotal(s) < WORD && Enabled(s, Return)
    ensures var closed := Run(Initial(), events).files.closed;
            Asked(events, true) == |closed| + RefusedOf(Initial(), events, true) &&
            |closed| <= Asked(events, true) <= |closed| + OpenFailures(events) &&
            forall k :: 0 <= k < |closed| ==> closed[k].0 == closed[k].1
  {
    var s := Run(Initial(), events);
    ToTheReturn(events, true);
    InitialInv();
    ServedFilesAreClosed(Initial(), events);
    RefusedAreFailures(Initial(), events, true);
    assert Reachable(s);
    forall k | 0 <= k < |s.files.closed| ensures s.files.closed[k].0 == s.files.closed[k].1 { ClosedFilesWereGivenWhole(s, k); }
  }

  lemma ToTheReturn(events: seq<Event>, isFile: bool)
    requires Possible(Initial(), events)
    requires var s := Run(Initial(), events); SlotTotal(s) < WORD && Enabled(s, Return)
    ensures Asked(events, isFile) == Served(Initial(), events, isFile) + RefusedOf(Initial(), events, isFile)
  {
    InitialInv();
    RunToCome(Initial(), events, isFile);
    NothingYet(isFile);
    assert Reachable(Run(Initial(), events));
    NothingToCome(Run(Initial(), events), isFile);
  }
}
