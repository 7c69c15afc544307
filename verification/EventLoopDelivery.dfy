/** What the read handler is given, file by file. */
module EventLoopDelivery {
  import opened Sequences
  import opened Wrappers
  import opened RequestPool
  import opened EventLoop
  import opened EventLoopSlots
  import opened EventLoopDirs
  import opened EventLoopOwners

  // The handler has been given exactly the first `n` bytes of the file.
  predicate GivenUpTo(f: Files, fd: Fd, n: nat) {
    fd in f.content && fd in f.delivered && n <= |f.content[fd]| && f.delivered[fd] == f.content[fd][..n]
  }

  // The result of a read the kernel has answered and the pump has not settled.
  function Answered(s: Loop, i: nat): Option<int> {
    if Token(Read, i) in s.ring.cq then Some(s.ring.cq[Token(Read, i)])
    else if s.phase.ReadDone? && s.phase.slot == i then Some(s.phase.res)
    else None
  }

  // The buffer holds the bytes the answer speaks of, and an empty answer means the end of the file.
  predicate Filled(f: Files, r: Request, res: int) {
    r.ReadRequest? && r.fd in f.content && |r.data| == res && r.offset + res <= |f.content[r.fd]| &&
    r.data == f.content[r.fd][r.offset..r.offset + res] && (res == 0 ==> r.offset == |f.content[r.fd]|)
  }

  predicate DeliveryOf(s: Loop, fd: Fd)
    requires fd in s.files.owner
  {
    match s.files.owner[fd]
    case Answer(_) => GivenUpTo(s.files, fd, 0)
    case Reader(i) =>
      ReadsFrom(s, i, fd) ==>
        GivenUpTo(s.files, fd, s.pools.read.slots[i].offset) &&
        (Answered(s, i).Some? && Answered(s, i).value >= 0 ==> Filled(s.files, s.pools.read.slots[i], Answered(s, i).value))
    case Requeuing =>
      s.phase.Requeue? && ReadsFrom(s, s.phase.slot, fd) ==>
        (var r := s.pools.read.slots[s.phase.slot]; GivenUpTo(s.files, fd, r.offset + |r.data|))
    case _ => true
  }

  ghost predicate DeliveryOk(s: Loop) {
    (forall fd: Fd :: fd in s.files.owner ==> DeliveryOf(s, fd)) &&
    (forall k :: 0 <= k < |s.files.closed| ==> s.files.closed[k].0 == s.files.closed[k].1)
  }

  // What `DeliveryOf` looks at, for a descriptor whose role does not change.
  predicate SameView(s: Loop, r: Loop, fd: Fd)
    requires fd in s.files.owner
  {
    fd in r.files.owner && r.files.owner[fd] == s.files.owner[fd] &&
    (fd in s.files.content ==> fd in r.files.content && r.files.content[fd] == s.files.content[fd]) &&
    (fd in s.files.delivered ==> fd in r.files.delivered && r.files.delivered[fd] == s.files.delivered[fd]) &&
    match s.files.owner[fd]
    case Reader(i) =>
      (ReadsFrom(r, i, fd) ==> ReadsFrom(s, i, fd) && r.pools.read.slots[i] == s.pools.read.slots[i]) &&
      Answered(r, i) == Answered(s, i)
    case Requeuing =>
      r.phase == s.phase && (s.phase.Requeue? && ReadsFrom(r, s.phase.slot, fd) ==>
        ReadsFrom(s, s.phase.slot, fd) && r.pools.read.slots[s.phase.slot] == s.pools.read.slots[s.phase.slot])
    case _ => true
  }

  lemma ViewKept(s: Loop, r: Loop, fd: Fd)
    requires fd in s.files.owner && DeliveryOf(s, fd) && SameView(s, r, fd)
    ensures DeliveryOf(r, fd)
  {
  }

  ghost predicate FullInv(s: Loop) {
    BaseInv(s) && RolesOk(s) && ListedOnce(s) && DeliveryOk(s)
  }

  lemma ReaderView(s: Loop, op: Op, request: Request, fd: Fd, i: nat)
    requires SlotsOk(s) && PhaseOk(s) && Role(s, fd, Reader(i))
    ensures var r := Enqueue(s, op, request);
            IsRead(s, i) && IsRead(r, i) && r.pools.read.slots[i] == s.pools.read.slots[i] && Answered(r, i) == Answered(s, i)
  {
    NewSlotIdle(s, op);
    EnqueueMemory(s, op, request, i);
    EnqueueRing(s, op, request, Token(Read, i));
  }

  // Queuing a request does not disturb what other descriptors have been given.
  lemma EnqueueView(s: Loop, op: Op, request: Request, fd: Fd)
    requires BaseInv(s) && RolesOk(s) && fd in s.files.owner
    ensures SameView(s, Enqueue(s, op, request), fd)
  {
    EnqueueParts(s, op, request);
    NewSlotIdle(s, op);
    var o := s.files.owner[fd];
    assert Role(s, fd, o);
    match o
    case Reader(i) => ReaderView(s, op, request, fd, i);
    case Requeuing => EnqueueMemory(s, op, request, s.phase.slot);
    case _ =>
  }

  // One descriptor is settled anew, the others keep their view.
  lemma SettleDelivery(s: Loop, r: Loop, fd: Fd)
    requires DeliveryOk(s) && r.files.closed == s.files.closed
    requires fd in r.files.owner ==> DeliveryOf(r, fd)
    requires forall f: Fd :: f in r.files.owner && f != fd ==> f in s.files.owner && SameView(s, r, f)
    ensures DeliveryOk(r)
  {
    forall f: Fd | f in r.files.owner ensures DeliveryOf(r, f) {
      if f != fd { ViewKept(s, r, f); }
    }
  }

  lemma AllViewsKept(s: Loop, r: Loop)
    requires DeliveryOk(s) && r.files.closed == s.files.closed
    requires forall f: Fd :: f in r.files.owner ==> f in s.files.owner && SameView(s, r, f)
    ensures DeliveryOk(r)
  {
    forall f: Fd | f in r.files.owner ensures DeliveryOf(r, f) { ViewKept(s, r, f); }
  }

  // Changes that touch neither reads, nor their answers, nor the files.
  lemma UntouchedDelivery(s: Loop, r: Loop)
    requires DeliveryOk(s) && RolesOk(s) && r.files == s.files
    requires r.pools.read.slots == s.pools.read.slots
    requires forall i: nat :: Answered(r, i) == Answered(s, i)
    requires s.phase.Requeue? ==> r.phase == s.phase
    ensures DeliveryOk(r)
  {
    forall f: Fd | f in r.files.owner ensures SameView(s, r, f) { assert Role(s, f, s.files.owner[f]); }
    AllViewsKept(s, r);
  }

  lemma EnqueueDelivery(s: Loop, op: Op, request: Request)
    requires BaseInv(s) && RolesOk(s) && DeliveryOk(s)
    ensures DeliveryOk(Enqueue(s, op, request))
  {
    var r := Enqueue(s, op, request);
    EnqueueParts(s, op, request);
    forall f: Fd | f in r.files.owner ensures f in s.files.owner && SameView(s, r, f) { EnqueueView(s, op, request, f); }
    AllViewsKept(s, r);
  }

  // After a request for `fd` has been queued: the descriptor's role and the phase change.
  lemma OwnedDelivery(s: Loop, m: Loop, r: Loop, fd: Fd, becomes: Owner)
    requires RolesOk(s) && DeliveryOk(m) && m.files == s.files && m.phase == s.phase
    requires !s.phase.ReadDone? && !r.phase.ReadDone?
    requires s.phase.Requeue? ==> Role(s, fd, Requeuing)
    requires r.files == m.files.(owner := m.files.owner[fd := becomes]) && r.pools == m.pools && r.ring == m.ring
    requires DeliveryOf(r, fd)
    ensures DeliveryOk(r)
  {
    forall f: Fd | f in r.files.owner && f != fd ensures f in m.files.owner && SameView(m, r, f) {
      assert Role(s, f, s.files.owner[f]);
    }
    SettleDelivery(m, r, fd);
  }

  // A freshly queued read starts where the handler was left.
  lemma NewReader(s: Loop, fd: Fd, offset: nat, ph: Phase)
    requires SlotsOk(s) && GivenUpTo(s.files, fd, offset) && !ph.ReadDone?
    ensures DeliveryOf(QueueRead(s, fd, offset).(phase := ph), fd)
  {
    var request, j := ReadRequest(fd, offset, []), NextSlot(s.pools.read);
    EnqueueParts(s, Read, request);
    EnqueueMemory(s, Read, request, j);
    NextSlotUnused(s, Read);
  }

  lemma NewReaderDelivery(s: Loop, fd: Fd, offset: nat, ph: Phase)
    requires FullInv(s) && GivenUpTo(s.files, fd, offset)
    requires !ph.ReadDone? && !s.phase.ReadDone? && (s.phase.Requeue? ==> Role(s, fd, Requeuing))
    ensures DeliveryOk(QueueRead(s, fd, offset).(phase := ph))
  {
    var request := ReadRequest(fd, offset, []);
    EnqueueDelivery(s, Read, request);
    EnqueueParts(s, Read, request);
    NewReader(s, fd, offset, ph);
    OwnedDelivery(s, Enqueue(s, Read, request), QueueRead(s, fd, offset).(phase := ph), fd, Reader(NextSlot(s.pools.read)));
  }

  lemma OpenDoneDelivery(s: Loop, i: nat, res: int)
    requires FullInv(s) && s.phase == OpenDone(i, res) && IsOpenAt(s, i)
    ensures DeliveryOk(OpenDoneStep(s, i, res))
  {
    if res < 0 {
      UntouchedDelivery(s, OpenDoneStep(s, i, res));
    } else {
      assert Role(s, res, Answer(i));
      assert DeliveryOf(s, res);
      if s.pools.openat.slots[i].isFile {
        NewReaderDelivery(s, res, 0, Unref(i));
      } else {
        OwnedDelivery(s, s, OpenDoneStep(s, i, res), res, Listed);
      }
    }
  }

  // The next read starts where the handler was left.
  lemma RequeueGiven(s: Loop, i: nat)
    requires RolesOk(s) && DeliveryOk(s) && s.phase == Requeue(i) && IsRead(s, i)
    ensures var r := s.pools.read.slots[i]; Role(s, r.fd, Requeuing) && GivenUpTo(s.files, r.fd, r.offset + |r.data|)
  {
    var r := s.pools.read.slots[i];
    assert Role(s, r.fd, Requeuing);
    assert DeliveryOf(s, r.fd);
  }

  lemma RequeueDelivery(s: Loop, i: nat)
    requires FullInv(s) && s.phase == Requeue(i) && IsRead(s, i)
    ensures DeliveryOk(RequeueStep(s, i))
  {
    var r := s.pools.read.slots[i];
    RequeueGiven(s, i);
    var next := r.offset + |r.data|;
    NewReaderDelivery(s, r.fd, next, Reaping);
  }

  // While read `i` is being settled, other readers' answers stay in the ring.
  lemma OtherReaders(s: Loop, i: nat, f: Fd)
    requires BaseInv(s) && RolesOk(s) && s.phase.ReadDone? && s.phase.slot == i && IsRead(s, i)
    requires f in s.files.owner && f != s.pools.read.slots[i].fd
    ensures !s.files.owner[f].Requeuing? && s.files.owner[f] != Reader(i)
  {
    assert Role(s, f, s.files.owner[f]);
  }

  // At the empty answer the handler has been given the whole file.
  lemma WholeFileGiven(s: Loop, i: nat)
    requires FullInv(s) && s.phase == ReadDone(i, 0) && IsRead(s, i)
    ensures var fd := s.pools.read.slots[i].fd;
            fd in s.files.content && fd in s.files.delivered && s.files.delivered[fd] == s.files.content[fd]
  {
    var fd := s.pools.read.slots[i].fd;
    AtPlace(s, Token(Read, i));
    assert Role(s, fd, Reader(i)) && Answered(s, i) == Some(0);
    assert DeliveryOf(s, fd);
  }

  // The reader's descriptor gets another role that promises nothing.
  lemma ReaderDone(s: Loop, i: nat, u: Loop, becomes: Owner)
    requires BaseInv(s) && RolesOk(s) && DeliveryOk(s) && s.phase.ReadDone? && s.phase.slot == i && IsRead(s, i)
    requires u.pools.read == s.pools.read && u.ring.cq == s.ring.cq && !u.phase.ReadDone?
    requires u.files == s.files.(owner := s.files.owner[s.pools.read.slots[i].fd := becomes])
    requires becomes.Closer? || becomes.Abandoned?
    ensures DeliveryOk(u)
  {
    var fd := s.pools.read.slots[i].fd;
    forall f: Fd | f in u.files.owner && f != fd ensures f in s.files.owner && SameView(s, u, f) { OtherReaders(s, i, f); }
    SettleDelivery(s, u, fd);
  }

  lemma ReadEndDelivery(s: Loop, i: nat)
    requires FullInv(s) && s.phase == ReadDone(i, 0) && PumpReady(s)
    ensures DeliveryOk(ReadEndStep(s, i))
  {
    var r, fd := ReadEndStep(s, i), s.pools.read.slots[i].fd;
    EnqueueParts(s, Close, CloseRequest(fd));
    WholeFileGiven(s, i);
    var u := r.(files := r.files.(closed := s.files.closed));
    ReaderDone(s, i, u, Closer(NextSlot(s.pools.close)));
    ClosedGrows(u, r, s.files.content[fd]);
  }

  lemma ClosedGrows(u: Loop, r: Loop, file: Bytes)
    requires DeliveryOk(u) && r == u.(files := u.files.(closed := u.files.closed + [(file, file)]))
    ensures DeliveryOk(r)
  {
    forall f: Fd | f in r.files.owner ensures DeliveryOf(r, f) { assert DeliveryOf(u, f); }
  }

  lemma HandOverDelivery(s: Loop, i: nat)
    requires FullInv(s) && s.phase.ReadDone? && s.phase.slot == i && s.phase.res > 0 && PumpReady(s)
    ensures DeliveryOk(HandOverStep(s, i))
  {
    var r, req := HandOverStep(s, i), s.pools.read.slots[i];
    AtPlace(s, Token(Read, i));
    assert Role(s, req.fd, Reader(i)) && Answered(s, i) == Some(s.phase.res);
    assert DeliveryOf(s, req.fd);
    var c := s.files.content[req.fd];
    assert c[..req.offset] + c[req.offset..req.offset + |req.data|] == c[..req.offset + |req.data|];
    forall f: Fd | f in r.files.owner && f != req.fd ensures f in s.files.owner && SameView(s, r, f) { OtherReaders(s, i, f); }
    SettleDelivery(s, r, req.fd);
  }

  lemma ReadFailedDelivery(s: Loop, i: nat)
    requires FullInv(s) && s.phase.ReadDone? && s.phase.slot == i && PumpReady(s)
    ensures DeliveryOk(ReadFailedStep(s, i))
  {
    ReaderDone(s, i, ReadFailedStep(s, i), Abandoned);
  }

  // Queuing a close changes nothing about reads.
  lemma LastRefDelivery(s: Loop, fd: Fd, ph: Phase, r: Loop, i: nat)
    requires RolesOk(s) && DeliveryOk(s)
    requires !s.phase.ReadDone? && !s.phase.Requeue? && !ph.ReadDone? && !ph.Requeue?
    requires r.pools.read == s.pools.read && r.ring.cq == s.ring.cq && r.phase == ph
    requires r.files == s.files.(owner := s.files.owner[fd := Closer(i)])
    ensures DeliveryOk(r)
  {
    forall f: Fd | f in r.files.owner && f != fd ensures f in s.files.owner && SameView(s, r, f) {
      assert Role(s, f, s.files.owner[f]);
    }
    SettleDelivery(s, r, fd);
  }

  lemma DropRefDelivery(s: Loop, fd: Fd, ph: Phase)
    requires FullInv(s) && fd in s.refs && s.refs[fd] > 0
    requires !s.phase.ReadDone? && !s.phase.Requeue? && !ph.ReadDone? && !ph.Requeue?
    ensures DeliveryOk(DropRef(s, fd).(phase := ph))
  {
    var r := DropRef(s, fd).(phase := ph);
    if s.refs[fd] == 1 {
      EnqueueParts(s.(refs := s.refs - {fd}), Close, CloseRequest(fd));
      LastRefDelivery(s, fd, ph, r, NextSlot(s.pools.close));
    } else {
      UntouchedDelivery(s, r);
    }
  }

  lemma BeginDirDelivery(s: Loop)
    requires FullInv(s) && s.phase.Dirs? && s.phase.rest != []
    ensures DeliveryOk(BeginDirStep(s))
  {
    var r, fd := BeginDirStep(s), s.phase.rest[0];
    forall f: Fd | f in r.files.owner && f != fd ensures f in s.files.owner && SameView(s, r, f) {
      assert Role(s, f, s.files.owner[f]);
    }
    SettleDelivery(s, r, fd);
  }

  lemma KernelOpensDelivery(s: Loop, t: Token, fd: Fd, content: Bytes)
    requires DeliveryOk(s) && t.op.OpenAt? && fd !in s.files.owner
    ensures DeliveryOk(KernelOpensStep(s, t, fd, content))
  {
    var r := KernelOpensStep(s, t, fd, content);
    assert forall i: nat :: Answered(r, i) == Answered(s, i);
    SettleDelivery(s, r, fd);
  }

  lemma KernelClosesDelivery(s: Loop, t: Token, res: int)
    requires DeliveryOk(s) && t.op.Close? && IsClose(s, t.slot)
    ensures DeliveryOk(KernelClosesStep(s, t, res))
  {
    var r := KernelClosesStep(s, t, res);
    assert forall i: nat :: Answered(r, i) == Answered(s, i);
    AllViewsKept(s, r);
  }

  lemma KernelReadsDelivery(s: Loop, t: Token, amount: nat)
    requires FullInv(s) && t in s.ring.kernel && t.op.Read? && ReadableBy(s, t.slot, amount)
    ensures DeliveryOk(KernelReadsStep(s, t, amount))
  {
    var r, fd := KernelReadsStep(s, t, amount), s.pools.read.slots[t.slot].fd;
    AtPlace(s, t);
    assert Role(s, fd, Reader(t.slot));
    assert DeliveryOf(s, fd);
    forall f: Fd | f in r.files.owner && f != fd ensures f in s.files.owner && SameView(s, r, f) {
      assert Role(s, f, s.files.owner[f]);
      assert s.phase.Requeue? ==> s.phase.slot != t.slot;
    }
    SettleDelivery(s, r, fd);
  }

  lemma KernelFailsDelivery(s: Loop, t: Token, error: int)
    requires FullInv(s) && t in s.ring.kernel && !t.op.Close? && error < 0
    ensures DeliveryOk(Complete(s, t, error))
  {
    var r := Complete(s, t, error);
    AtPlace(s, t);
    forall f: Fd | f in r.files.owner ensures DeliveryOf(r, f) { assert DeliveryOf(s, f); }
  }

  lemma ReapDelivery(s: Loop, t: Token)
    requires FullInv(s) && t in s.ring.cq && (s.phase.Waiting? || s.phase.Reaping?)
    ensures DeliveryOk(ReapStep(s, t))
  {
    UntouchedDelivery(s, ReapStep(s, t));
  }

  lemma HandleDelivery(s: Loop)
    requires FullInv(s) && PumpReady(s)
    ensures DeliveryOk(HandleStep(s))
  {
    match s.phase
    case OpenDone(i, res) => OpenDoneDelivery(s, i, res);
    case Unref(i) =>
      var parent := s.pools.openat.slots[i].parent;
      if parent.Some? { DropRefDelivery(s, parent.value, Finished(Token(OpenAt, i))); } else { UntouchedDelivery(s, UnrefStep(s, i)); }
    case ReadDone(i, res) =>
      if res == 0 { ReadEndDelivery(s, i); } else if res > 0 { HandOverDelivery(s, i); } else { ReadFailedDelivery(s, i); }
    case Requeue(i) => RequeueDelivery(s, i);
    case Finished(t) => UntouchedDelivery(s, FinishedStep(s, t));
  }

  lemma KernelDelivery(s: Loop, e: Event)
    requires FullInv(s) && Enabled(s, e) && (e.KernelOpens? || e.KernelCloses? || e.KernelReads? || e.KernelFails?)
    ensures DeliveryOk(Apply(s, e))
  {
    match e
    case KernelOpens(t, fd, content) => KernelOpensDelivery(s, t, fd, content);
    case KernelCloses(t, res) => KernelClosesDelivery(s, t, res);
    case KernelReads(t, amount) => KernelReadsDelivery(s, t, amount);
    case KernelFails(t, error) => KernelFailsDelivery(s, t, error);
  }

  // Events that are none of the pump's dealings with descriptors, nor the kernel's answers.
  predicate Quiet(e: Event) {
    e.Start? || e.DirsDone? || e.PopOverflow? || e.OverflowDone? || e.ReturnSlot? || e.Return? || e.Submit? ||
    e.SubmitFails? || e.ReapDone? || e.WorkerTakes? || e.WorkerFinishes?
  }

  lemma QuietDelivery(s: Loop, e: Event)
    requires FullInv(s) && Enabled(s, e) && Quiet(e)
    ensures DeliveryOk(Apply(s, e))
  {
    UntouchedDelivery(s, Apply(s, e));
  }

  lemma DeliveryKept(s: Loop, e: Event)
    requires FullInv(s) && Enabled(s, e)
    ensures DeliveryOk(Apply(s, e))
  {
    match e
    case QueueRoot(isFile) => EnqueueDelivery(s, OpenAt, OpenAtRequest(None, isFile));
    case BeginDir => BeginDirDelivery(s);
    case ListEntry(isFile) => ListEntryDelivery(s, isFile);
    case EndDir => DropRefDelivery(s, s.phase.fd, Dirs(s.phase.rest));
    case Reap(t) => ReapDelivery(s, t);
    case Handle => HandleDelivery(s);
    case KernelOpens(_, _, _) => KernelDelivery(s, e);
    case KernelCloses(_, _) => KernelDelivery(s, e);
    case KernelReads(_, _) => KernelDelivery(s, e);
    case KernelFails(_, _) => KernelDelivery(s, e);
    case _ => QuietDelivery(s, e);
  }

  lemma ListEntryDelivery(s: Loop, isFile: bool)
    requires FullInv(s) && s.phase.InDir? && s.phase.fd in s.refs
    ensures DeliveryOk(QueueOpenAt(s, s.phase.fd, isFile))
  {
    var u := s.(refs := s.refs[s.phase.fd := s.refs[s.phase.fd] + 1]);
    EnqueueParts(u, OpenAt, OpenAtRequest(Some(s.phase.fd), isFile));
    UntouchedDelivery(s, QueueOpenAt(s, s.phase.fd, isFile));
  }
}
