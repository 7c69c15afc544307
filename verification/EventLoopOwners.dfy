/** What every open descriptor is waiting for. `Role` reads it off the program's own queues; the
    invariant says that the roles are a function: each open descriptor has exactly one, a descriptor
    that is not open has none. */
module EventLoopOwners {
  import opened Sequences
  import opened Wrappers
  import opened RequestPool
  import opened EventLoop
  import opened EventLoopSlots
  import opened EventLoopDirs

  // A read that has not been handed over: parked, in the ring, or being looked at.
  predicate ActiveRead(s: Loop, i: nat) {
    Count(s.pools.read.waiting, i) > 0 || RingPlaces(s.ring, Token(Read, i)) > 0 || (s.phase.ReadDone? && s.phase.slot == i)
  }

  // A close the kernel has not carried out.
  predicate ActiveClose(s: Loop, i: nat) {
    Count(s.pools.close.waiting, i) > 0 || Token(Close, i) in s.ring.sq || Token(Close, i) in s.ring.kernel
  }

  function ListedFds(s: Loop): seq<Fd> {
    (match s.phase
     case Dirs(rest) => rest
     case InDir(_, rest) => rest
     case _ => []) + s.dents
  }

  predicate ReadsFrom(s: Loop, i: nat, fd: Fd) {
    IsRead(s, i) && s.pools.read.slots[i].fd == fd
  }

  ghost predicate Role(s: Loop, fd: Fd, o: Owner) {
    match o
    case Answer(i) => (Token(OpenAt, i) in s.ring.cq && s.ring.cq[Token(OpenAt, i)] == fd) || s.phase == OpenDone(i, fd)
    case Listed => Count(ListedFds(s), fd) > 0
    case Dir => fd in s.refs
    case Reader(i) => ActiveRead(s, i) && ReadsFrom(s, i, fd)
    case Requeuing => s.phase.Requeue? && ReadsFrom(s, s.phase.slot, fd)
    case Closer(i) => ActiveClose(s, i) && IsClose(s, i) && s.pools.close.slots[i].fd == fd
    case Abandoned => exists i: nat :: i in s.hand.leaked && ReadsFrom(s, i, fd)
  }

  ghost predicate RolesOk(s: Loop) {
    forall fd: Fd, o: Owner :: Role(s, fd, o) <==> fd in s.files.owner && s.files.owner[fd] == o
  }

  ghost predicate ListedOnce(s: Loop) {
    forall fd: Fd :: Count(ListedFds(s), fd) <= 1
  }

  // Facts about the pump's position.
  ghost predicate PhaseOk(s: Loop) {
    (s.phase.Requeue? ==>
      Count(s.hand.toProcess, s.phase.slot) + Count(s.hand.hands, s.phase.slot) + Count(s.hand.freed, s.phase.slot) > 0) &&
    (s.phase.Idle? || s.phase.Dirs? || s.phase.InDir? || s.phase.Overflow? || s.phase.Returning? || s.phase.Waiting? ==>
      s.dents == []) &&
    (s.phase.Returning? ==> NoneWaiting(s) || !Room(s))
  }

  ghost predicate BaseInv(s: Loop) {
    SlotInv(s) && KindsOk(s) && RefsOk(s) && PhaseOk(s)
  }

  // --- how roles change ---

  // One descriptor goes from one role to another; all else stays.
  ghost predicate RoleSwap(s: Loop, r: Loop, fd: Fd, was: Owner, becomes: Owner) {
    forall f: Fd, o: Owner ::
      Role(r, f, o) <==> (Role(s, f, o) && !(f == fd && o == was)) || (f == fd && o == becomes)
  }

  lemma SwapOk(s: Loop, r: Loop, fd: Fd, was: Owner, becomes: Owner)
    requires RolesOk(s) && Role(s, fd, was) && RoleSwap(s, r, fd, was, becomes)
    requires r.files.owner == s.files.owner[fd := becomes]
    ensures RolesOk(r)
  {
    forall f: Fd, o: Owner ensures Role(r, f, o) <==> f in r.files.owner && r.files.owner[f] == o {
      assert Role(s, f, o) <==> f in s.files.owner && s.files.owner[f] == o;
    }
  }

  ghost predicate SameRoles(s: Loop, r: Loop) {
    forall f: Fd, o: Owner :: Role(r, f, o) <==> Role(s, f, o)
  }

  lemma SameOk(s: Loop, r: Loop)
    requires RolesOk(s) && SameRoles(s, r) && r.files.owner == s.files.owner
    ensures RolesOk(r)
  {
    forall f: Fd, o: Owner ensures Role(r, f, o) <==> f in r.files.owner && r.files.owner[f] == o {
      assert Role(s, f, o) <==> f in s.files.owner && s.files.owner[f] == o;
    }
  }

  // --- enqueuing ---

  lemma EnqueueWaiting(s: Loop, op: Op, request: Request, other: Op, j: nat)
    requires PoolsInRange(s)
    ensures Count(Enqueue(s, op, request).pools.At(other).waiting, j) ==
            Count(s.pools.At(other).waiting, j) + OneIf(!Room(s) && other == op && j == NextSlot(s.pools.At(op)))
  {
    EnqueueParts(s, op, request);
    var p := s.pools.At(op);
    TakeKeepsWaiting(p, request);
    if other == op {
      CountPush(p.waiting, NextSlot(p), j);
    }
  }

  lemma TakeKeepsWaiting<T>(p: Pool<T>, request: T)
    requires InRange(p)
    ensures Take(p, request).waiting == p.waiting
  {
  }

  lemma EnqueueRing(s: Loop, op: Op, request: Request, t: Token)
    requires PoolsInRange(s)
    ensures var r := Enqueue(s, op, request);
            r.phase == s.phase && r.ring.kernel == s.ring.kernel && r.ring.cq == s.ring.cq &&
            (t in r.ring.sq <==> t in s.ring.sq || (Room(s) && t == Token(op, NextSlot(s.pools.At(op)))))
  {
    EnqueueParts(s, op, request);
  }

  lemma EnqueueActive(s: Loop, op: Op, request: Request, j: nat)
    requires SlotsOk(s)
    ensures var r, i := Enqueue(s, op, request), NextSlot(s.pools.At(op));
            (ActiveRead(r, j) <==> ActiveRead(s, j) || (op.Read? && j == i)) &&
            (ActiveClose(r, j) <==> ActiveClose(s, j) || (op.Close? && j == i))
  {
    EnqueueWaiting(s, op, request, Read, j);
    EnqueueWaiting(s, op, request, Close, j);
    EnqueueRing(s, op, request, Token(Read, j));
    EnqueueRing(s, op, request, Token(Close, j));
  }

  lemma NewSlotIdle(s: Loop, op: Op)
    requires SlotsOk(s) && PhaseOk(s)
    ensures var i := NextSlot(s.pools.At(op));
            (op.Read? ==> !ActiveRead(s, i) && i !in s.hand.leaked && (s.phase.Requeue? ==> s.phase.slot != i)) &&
            (op.Close? ==> !ActiveClose(s, i))
  {
    NextSlotUnused(s, op);
  }

  // Slots in use keep their requests.
  lemma EnqueueMemory(s: Loop, op: Op, request: Request, j: nat)
    requires SlotsOk(s)
    ensures var r, i := Enqueue(s, op, request), NextSlot(s.pools.At(op));
            (op.Read? && j == i ==> j < |r.pools.read.slots| && r.pools.read.slots[j] == request) &&
            (op.Close? && j == i ==> j < |r.pools.close.slots| && r.pools.close.slots[j] == request) &&
            (!(op.Read? && j == i) ==> (IsRead(r, j) <==> IsRead(s, j)) && (IsRead(s, j) ==> r.pools.read.slots[j] == s.pools.read.slots[j])) &&
            (!(op.Close? && j == i) ==> (IsClose(r, j) <==> IsClose(s, j)) && (IsClose(s, j) ==> r.pools.close.slots[j] == s.pools.close.slots[j]))
  {
    EnqueueParts(s, op, request);
    TakeCounts(s.pools.At(op), request, j);
  }

  lemma ReaderAfter(s: Loop, r: Loop, added: bool, fd: Fd, f: Fd, j: nat)
    requires ActiveRead(r, j) <==> ActiveRead(s, j) || added
    requires added ==> !ActiveRead(s, j) && ReadsFrom(r, j, fd)
    requires !added ==> (IsRead(r, j) <==> IsRead(s, j)) && (IsRead(s, j) ==> r.pools.read.slots[j] == s.pools.read.slots[j])
    ensures Role(r, f, Reader(j)) <==> Role(s, f, Reader(j)) || (added && f == fd)
  {
  }

  lemma CloserAfter(s: Loop, r: Loop, added: bool, fd: Fd, f: Fd, j: nat)
    requires ActiveClose(r, j) <==> ActiveClose(s, j) || added
    requires added ==> !ActiveClose(s, j) && IsClose(r, j) && r.pools.close.slots[j].fd == fd
    requires !added ==> (IsClose(r, j) <==> IsClose(s, j)) && (IsClose(s, j) ==> r.pools.close.slots[j] == s.pools.close.slots[j])
    ensures Role(r, f, Closer(j)) <==> Role(s, f, Closer(j)) || (added && f == fd)
  {
  }

  lemma EnqueueReader(s: Loop, op: Op, request: Request, f: Fd, j: nat)
    requires SlotsOk(s) && PhaseOk(s) && Fits(op, request)
    ensures var r := Enqueue(s, op, request);
            Role(r, f, Reader(j)) <==> Role(s, f, Reader(j)) || (op.Read? && j == NextSlot(s.pools.read) && f == request.fd)
  {
    NewSlotIdle(s, op);
    EnqueueActive(s, op, request, j);
    EnqueueMemory(s, op, request, j);
    var added := op.Read? && j == NextSlot(s.pools.read);
    ReaderAfter(s, Enqueue(s, op, request), added, if added then request.fd else f, f, j);
  }

  lemma EnqueueCloser(s: Loop, op: Op, request: Request, f: Fd, j: nat)
    requires SlotsOk(s) && PhaseOk(s) && Fits(op, request)
    ensures var r := Enqueue(s, op, request);
            Role(r, f, Closer(j)) <==> Role(s, f, Closer(j)) || (op.Close? && j == NextSlot(s.pools.close) && f == request.fd)
  {
    NewSlotIdle(s, op);
    EnqueueActive(s, op, request, j);
    EnqueueMemory(s, op, request, j);
    var added := op.Close? && j == NextSlot(s.pools.close);
    CloserAfter(s, Enqueue(s, op, request), added, if added then request.fd else f, f, j);
  }

  lemma EnqueueOthers(s: Loop, op: Op, request: Request, f: Fd, o: Owner)
    requires SlotsOk(s) && PhaseOk(s) && !o.Reader? && !o.Closer?
    ensures Role(Enqueue(s, op, request), f, o) <==> Role(s, f, o)
  {
    var r := Enqueue(s, op, request);
    NewSlotIdle(s, op);
    if s.phase.Requeue? { EnqueueMemory(s, op, request, s.phase.slot); }
    if o.Abandoned? {
      forall j: nat | j in s.hand.leaked ensures ReadsFrom(r, j, f) <==> ReadsFrom(s, j, f) {
        EnqueueMemory(s, op, request, j);
      }
    }
  }

  // Queuing a request gives its descriptor the corresponding role and changes no other.
  ghost predicate RoleAdded(s: Loop, r: Loop, fd: Fd, becomes: Owner) {
    forall f: Fd, o: Owner :: Role(r, f, o) <==> Role(s, f, o) || (f == fd && o == becomes)
  }

  lemma EnqueueReadRoles(s: Loop, fd: Fd, offset: nat)
    requires SlotsOk(s) && PhaseOk(s)
    ensures RoleAdded(s, Enqueue(s, Read, ReadRequest(fd, offset, [])), fd, Reader(NextSlot(s.pools.read)))
  {
    var request := ReadRequest(fd, offset, []);
    var r := Enqueue(s, Read, request);
    forall f: Fd, o: Owner ensures Role(r, f, o) <==> Role(s, f, o) || (f == fd && o == Reader(NextSlot(s.pools.read))) {
      match o
      case Reader(j) => EnqueueReader(s, Read, request, f, j);
      case Closer(j) => EnqueueCloser(s, Read, request, f, j);
      case _ => EnqueueOthers(s, Read, request, f, o);
    }
  }

  lemma EnqueueCloseRoles(s: Loop, fd: Fd)
    requires SlotsOk(s) && PhaseOk(s)
    ensures RoleAdded(s, Enqueue(s, Close, CloseRequest(fd)), fd, Closer(NextSlot(s.pools.close)))
  {
    var request := CloseRequest(fd);
    var r := Enqueue(s, Close, request);
    forall f: Fd, o: Owner ensures Role(r, f, o) <==> Role(s, f, o) || (f == fd && o == Closer(NextSlot(s.pools.close))) {
      match o
      case Reader(j) => EnqueueReader(s, Close, request, f, j);
      case Closer(j) => EnqueueCloser(s, Close, request, f, j);
      case _ => EnqueueOthers(s, Close, request, f, o);
    }
  }

  lemma EnqueueOpenAtRoles(s: Loop, parent: Option<Fd>, isFile: bool)
    requires SlotsOk(s) && PhaseOk(s)
    ensures SameRoles(s, Enqueue(s, OpenAt, OpenAtRequest(parent, isFile)))
  {
    var request := OpenAtRequest(parent, isFile);
    var r := Enqueue(s, OpenAt, request);
    forall f: Fd, o: Owner ensures Role(r, f, o) <==> Role(s, f, o) {
      match o
      case Reader(j) => EnqueueReader(s, OpenAt, request, f, j);
      case Closer(j) => EnqueueCloser(s, OpenAt, request, f, j);
      case _ => EnqueueOthers(s, OpenAt, request, f, o);
    }
  }

  // --- the pump's handling of completions ---

  lemma OpenDoneRoles(s: Loop, i: nat, res: int)
    requires BaseInv(s) && RolesOk(s) && s.phase == OpenDone(i, res) && IsOpenAt(s, i)
    ensures RolesOk(OpenDoneStep(s, i, res))
  {
    var r := OpenDoneStep(s, i, res);
    AtPlace(s, Token(OpenAt, i));
    if res < 0 {
      assert SameRoles(s, r);
      SameOk(s, r);
    } else {
      assert Role(s, res, Answer(i));
      if s.pools.openat.slots[i].isFile {
        var m := Enqueue(s, Read, ReadRequest(res, 0, []));
        EnqueueReadRoles(s, res, 0);
        EnqueueParts(s, Read, ReadRequest(res, 0, []));
        AnswerTaken(s, m, r, i, res, Reader(NextSlot(s.pools.read)));
        SwapOk(s, r, res, Answer(i), Reader(NextSlot(s.pools.read)));
      } else {
        ListedAfterAnswer(s, i, res);
        SwapOk(s, r, res, Answer(i), Listed);
      }
    }
  }

  // Leaving `OpenDone` ends the role of the answer.
  lemma AnswerTaken(s: Loop, m: Loop, r: Loop, i: nat, res: Fd, becomes: Owner)
    requires s.phase == OpenDone(i, res) && m.phase == s.phase && Token(OpenAt, i) !in s.ring.cq && Token(OpenAt, i) !in m.ring.cq
    requires RoleAdded(s, m, res, becomes) && !becomes.Answer?
    requires r.phase == Unref(i) && r.pools == m.pools && r.ring == m.ring && r.refs == m.refs && r.hand == m.hand && r.dents == m.dents
    ensures RoleSwap(s, r, res, Answer(i), becomes)
  {
    forall f: Fd, o: Owner ensures
      Role(r, f, o) <==> (Role(s, f, o) && !(f == res && o == Answer(i))) || (f == res && o == becomes)
    {
      assert Role(m, f, o) <==> Role(s, f, o) || (f == res && o == becomes);
      assert Role(r, f, o) <==> Role(m, f, o) && !(f == res && o == Answer(i));
    }
  }

  lemma RolesAfterAnswer(s: Loop, i: nat, res: Fd, r: Loop, f: Fd, o: Owner)
    requires s.phase == OpenDone(i, res) && r.phase == Unref(i) && Token(OpenAt, i) !in s.ring.cq
    requires r.pools == s.pools && r.ring == s.ring && r.refs == s.refs && r.hand == s.hand && r.dents == s.dents + [res]
    ensures Role(r, f, o) <==> (Role(s, f, o) && !(f == res && o == Answer(i))) || (f == res && o == Listed)
  {
    match o
    case Listed =>
      CountPush(s.dents, res, f);
      assert ListedFds(r) == s.dents + [res] && ListedFds(s) == s.dents;
    case _ =>
  }

  lemma ListedAfterAnswer(s: Loop, i: nat, res: Fd)
    requires s.phase == OpenDone(i, res) && IsOpenAt(s, i) && Token(OpenAt, i) !in s.ring.cq && !s.pools.openat.slots[i].isFile
    requires PoolsInRange(s)
    ensures RoleSwap(s, OpenDoneStep(s, i, res), res, Answer(i), Listed)
  {
    var r := OpenDoneStep(s, i, res);
    forall f: Fd, o: Owner ensures
      Role(r, f, o) <==> (Role(s, f, o) && !(f == res && o == Answer(i))) || (f == res && o == Listed)
    {
      RolesAfterAnswer(s, i, res, r, f, o);
    }
  }

  lemma ReadEndRoles(s: Loop, i: nat)
    requires BaseInv(s) && RolesOk(s) && s.phase == ReadDone(i, 0) && PumpReady(s)
    ensures RolesOk(ReadEndStep(s, i))
  {
    var r, fd := ReadEndStep(s, i), s.pools.read.slots[i].fd;
    var m, becomes := Enqueue(s, Close, CloseRequest(fd)), Closer(NextSlot(s.pools.close));
    AtPlace(s, Token(Read, i));
    assert Role(s, fd, Reader(i));
    EnqueueCloseRoles(s, fd);
    EnqueueParts(s, Close, CloseRequest(fd));
    ReadTaken(s, m, r, i, fd, becomes);
    SwapOk(s, r, fd, Reader(i), becomes);
  }

  // Leaving `ReadDone` ends the role of the reader.
  lemma ReadTaken(s: Loop, m: Loop, r: Loop, i: nat, fd: Fd, becomes: Owner)
    requires s.phase.ReadDone? && s.phase.slot == i && m.phase == s.phase && ReadsFrom(m, i, fd)
    requires Count(m.pools.read.waiting, i) == 0 && RingPlaces(m.ring, Token(Read, i)) == 0
    requires RoleAdded(s, m, fd, becomes) && becomes != Reader(i)
    requires r.phase.Finished? && r.pools == m.pools && r.ring == m.ring && r.refs == m.refs && r.hand == m.hand && r.dents == m.dents
    ensures RoleSwap(s, r, fd, Reader(i), becomes)
  {
    forall f: Fd, o: Owner ensures
      Role(r, f, o) <==> (Role(s, f, o) && !(f == fd && o == Reader(i))) || (f == fd && o == becomes)
    {
      assert Role(m, f, o) <==> Role(s, f, o) || (f == fd && o == becomes);
      assert Role(r, f, o) <==> Role(m, f, o) && !(f == fd && o == Reader(i));
    }
  }

  lemma HandOverSwap(s: Loop, i: nat, f: Fd, o: Owner)
    requires s.phase.ReadDone? && s.phase.slot == i && IsRead(s, i) && s.pools.read.slots[i].fd in s.files.delivered
    requires Count(s.pools.read.waiting, i) == 0 && RingPlaces(s.ring, Token(Read, i)) == 0
    ensures var r, fd := HandOverStep(s, i), s.pools.read.slots[i].fd;
            Role(r, f, o) <==> (Role(s, f, o) && !(f == fd && o == Reader(i))) || (f == fd && o == Requeuing)
  {
  }

  lemma HandOverRoles(s: Loop, i: nat)
    requires BaseInv(s) && RolesOk(s) && s.phase.ReadDone? && s.phase.slot == i && PumpReady(s)
    ensures RolesOk(HandOverStep(s, i))
  {
    var r, fd := HandOverStep(s, i), s.pools.read.slots[i].fd;
    AtPlace(s, Token(Read, i));
    assert Role(s, fd, Reader(i));
    assert RoleSwap(s, r, fd, Reader(i), Requeuing) by {
      forall f: Fd, o: Owner ensures
        Role(r, f, o) <==> (Role(s, f, o) && !(f == fd && o == Reader(i))) || (f == fd && o == Requeuing)
      {
        HandOverSwap(s, i, f, o);
      }
    }
    SwapOk(s, r, fd, Reader(i), Requeuing);
  }

  lemma ReadFailedRoles(s: Loop, i: nat)
    requires BaseInv(s) && RolesOk(s) && s.phase.ReadDone? && s.phase.slot == i && PumpReady(s)
    ensures RolesOk(ReadFailedStep(s, i))
  {
    var r, fd := ReadFailedStep(s, i), s.pools.read.slots[i].fd;
    AtPlace(s, Token(Read, i));
    assert Role(s, fd, Reader(i));
    assert i in r.hand.leaked && ReadsFrom(r, i, fd);
    forall f: Fd, o: Owner ensures
      Role(r, f, o) <==> (Role(s, f, o) && !(f == fd && o == Reader(i))) || (f == fd && o == Abandoned)
    {
    }
    SwapOk(s, r, fd, Reader(i), Abandoned);
  }

  lemma RequeueRoles(s: Loop, i: nat)
    requires BaseInv(s) && RolesOk(s) && s.phase == Requeue(i) && IsRead(s, i)
    ensures RolesOk(RequeueStep(s, i))
  {
    var r, req := RequeueStep(s, i), s.pools.read.slots[i];
    var next := req.offset + |req.data|;
    var m, becomes := Enqueue(s, Read, ReadRequest(req.fd, next, [])), Reader(NextSlot(s.pools.read));
    assert Role(s, req.fd, Requeuing);
    NewSlotIdle(s, Read);
    EnqueueReadRoles(s, req.fd, next);
    EnqueueParts(s, Read, ReadRequest(req.fd, next, []));
    RequeueTaken(s, m, r, req.fd, becomes);
    SwapOk(s, r, req.fd, Requeuing, becomes);
  }

  lemma RequeueTaken(s: Loop, m: Loop, r: Loop, fd: Fd, becomes: Owner)
    requires s.phase.Requeue? && m.phase == s.phase && Role(s, fd, Requeuing)
    requires RoleAdded(s, m, fd, becomes) && becomes.Reader?
    requires r.phase.Reaping? && r.pools == m.pools && r.ring == m.ring && r.refs == m.refs && r.hand == m.hand && r.dents == m.dents
    ensures RoleSwap(s, r, fd, Requeuing, becomes)
  {
    assert Role(m, fd, Requeuing);
    forall f: Fd, o: Owner ensures
      Role(r, f, o) <==> (Role(s, f, o) && !(f == fd && o == Requeuing)) || (f == fd && o == becomes)
    {
      assert Role(m, f, o) <==> Role(s, f, o) || (f == fd && o == becomes);
      assert Role(r, f, o) <==> Role(m, f, o) && o != Requeuing;
    }
  }

  // --- directories ---

  // Forgetting a directory's count and queuing its close.
  lemma DirDropped(s: Loop, u: Loop, m: Loop, r: Loop, fd: Fd, becomes: Owner)
    requires u == s.(refs := s.refs - {fd}) && fd in s.refs
    requires RoleAdded(u, m, fd, becomes) && becomes.Closer?
    requires r.phase == m.phase && r.pools == m.pools && r.ring == m.ring && r.refs == m.refs && r.hand == m.hand && r.dents == m.dents
    ensures RoleSwap(s, r, fd, Dir, becomes)
  {
    forall f: Fd, o: Owner ensures
      Role(r, f, o) <==> (Role(s, f, o) && !(f == fd && o == Dir)) || (f == fd && o == becomes)
    {
      assert Role(r, f, o) <==> Role(m, f, o);
      assert Role(m, f, o) <==> Role(u, f, o) || (f == fd && o == becomes);
      assert Role(u, f, o) <==> Role(s, f, o) && !(f == fd && o == Dir);
    }
  }

  lemma LastRefRoles(s: Loop, fd: Fd)
    requires BaseInv(s) && RolesOk(s) && fd in s.refs && s.refs[fd] == 1
    ensures RolesOk(DropRef(s, fd)) && ListedFds(DropRef(s, fd)) == ListedFds(s)
  {
    var u := s.(refs := s.refs - {fd});
    var m, becomes := Enqueue(u, Close, CloseRequest(fd)), Closer(NextSlot(s.pools.close));
    SamePlaces(s, u);
    EnqueueCloseRoles(u, fd);
    EnqueueParts(u, Close, CloseRequest(fd));
    assert Role(s, fd, Dir);
    DirDropped(s, u, m, DropRef(s, fd), fd, becomes);
    SwapOk(s, DropRef(s, fd), fd, Dir, becomes);
  }

  lemma DropRefRoles(s: Loop, fd: Fd)
    requires BaseInv(s) && RolesOk(s) && fd in s.refs && s.refs[fd] > 0
    ensures RolesOk(DropRef(s, fd)) && ListedFds(DropRef(s, fd)) == ListedFds(s)
  {
    if s.refs[fd] == 1 {
      LastRefRoles(s, fd);
    } else {
      SameOk(s, DropRef(s, fd));
    }
  }

  // A change of phase that no role looks at.
  lemma PhaseRoles(s: Loop, ph: Phase)
    requires RolesOk(s)
    requires !s.phase.OpenDone? && !s.phase.ReadDone? && !s.phase.Requeue?
    requires !ph.OpenDone? && !ph.ReadDone? && !ph.Requeue?
    requires ListedFds(s.(phase := ph)) == ListedFds(s)
    ensures RolesOk(s.(phase := ph))
  {
    assert SameRoles(s, s.(phase := ph));
    SameOk(s, s.(phase := ph));
  }

  lemma BeginDirRoles(s: Loop)
    requires RolesOk(s) && ListedOnce(s) && s.phase.Dirs? && s.phase.rest != []
    ensures RolesOk(BeginDirStep(s)) && ListedOnce(BeginDirStep(s)) && s.phase.rest[0] !in s.refs
  {
    var r, fd := BeginDirStep(s), s.phase.rest[0];
    var listed := ListedFds(s);
    assert listed[1..] == ListedFds(r) && listed[0] == fd;
    forall f: Fd ensures Count(ListedFds(r), f) == Count(listed, f) - OneIf(f == fd) { PopCounts(listed, f); }
    assert Role(s, fd, Listed) && !Role(s, fd, Dir);
    forall f: Fd, o: Owner ensures
      Role(r, f, o) <==> (Role(s, f, o) && !(f == fd && o == Listed)) || (f == fd && o == Dir)
    {
    }
    SwapOk(s, r, fd, Listed, Dir);
  }

  // --- the kernel ---

  lemma KernelOpensRoles(s: Loop, t: Token, fd: Fd, content: Bytes)
    requires SlotsOk(s) && RolesOk(s) && t in s.ring.kernel && t.op.OpenAt? && fd !in s.files.owner
    ensures RolesOk(KernelOpensStep(s, t, fd, content))
  {
    var r := KernelOpensStep(s, t, fd, content);
    AtPlace(s, t);
    forall f: Fd, o: Owner ensures Role(r, f, o) <==> f in r.files.owner && r.files.owner[f] == o {
      assert Role(s, f, o) <==> f in s.files.owner && s.files.owner[f] == o;
      OpenAnswered(s, t, fd, r, f, o);
    }
  }

  lemma OpenAnswered(s: Loop, t: Token, fd: Fd, r: Loop, f: Fd, o: Owner)
    requires t.op.OpenAt? && t in s.ring.kernel && t !in s.ring.cq && s.phase != OpenDone(t.slot, f)
    requires r.ring.sq == s.ring.sq && r.ring.kernel == s.ring.kernel - {t} && r.ring.cq == s.ring.cq[t := fd]
    requires r.pools == s.pools && r.phase == s.phase && r.refs == s.refs && r.hand == s.hand && r.dents == s.dents
    ensures Role(r, f, o) <==> Role(s, f, o) || (f == fd && o == Answer(t.slot))
  {
  }

  lemma KernelClosesRoles(s: Loop, t: Token, res: int)
    requires SlotsOk(s) && RolesOk(s) && t in s.ring.kernel && t.op.Close? && IsClose(s, t.slot)
    ensures RolesOk(KernelClosesStep(s, t, res))
  {
    var r, fd := KernelClosesStep(s, t, res), s.pools.close.slots[t.slot].fd;
    AtPlace(s, t);
    assert Role(s, fd, Closer(t.slot));
    forall f: Fd, o: Owner ensures Role(r, f, o) <==> f in r.files.owner && r.files.owner[f] == o {
      assert Role(s, f, o) <==> f in s.files.owner && s.files.owner[f] == o;
      CloseAnswered(s, t, res, fd, r, f, o);
    }
  }

  lemma CloseAnswered(s: Loop, t: Token, res: int, fd: Fd, r: Loop, f: Fd, o: Owner)
    requires t.op.Close? && IsClose(s, t.slot) && s.pools.close.slots[t.slot].fd == fd
    requires t !in s.ring.sq && Count(s.pools.close.waiting, t.slot) == 0
    requires r.ring.sq == s.ring.sq && r.ring.kernel == s.ring.kernel - {t} && r.ring.cq == s.ring.cq[t := res]
    requires r.pools == s.pools && r.phase == s.phase && r.refs == s.refs && r.hand == s.hand && r.dents == s.dents
    ensures Role(r, f, o) <==> Role(s, f, o) && !(f == fd && o == Closer(t.slot))
  {
  }

  lemma KernelReadsRoles(s: Loop, t: Token, amount: nat)
    requires RolesOk(s) && t in s.ring.kernel && t.op.Read? && ReadableBy(s, t.slot, amount)
    ensures RolesOk(KernelReadsStep(s, t, amount))
  {
    var r := KernelReadsStep(s, t, amount);
    assert forall j: nat, f: Fd :: ReadsFrom(r, j, f) <==> ReadsFrom(s, j, f);
    assert forall j: nat :: ActiveRead(r, j) <==> ActiveRead(s, j);
    forall f: Fd, o: Owner ensures Role(r, f, o) <==> Role(s, f, o) { }
    SameOk(s, r);
  }

  lemma KernelFailsRoles(s: Loop, t: Token, error: int)
    requires RolesOk(s) && SlotsOk(s) && t in s.ring.kernel && !t.op.Close? && error < 0
    ensures RolesOk(Complete(s, t, error))
  {
    var r := Complete(s, t, error);
    AtPlace(s, t);
    forall f: Fd, o: Owner ensures Role(r, f, o) <==> Role(s, f, o) { FailureAnswered(s, t, error, r, f, o); }
    SameOk(s, r);
  }

  lemma FailureAnswered(s: Loop, t: Token, error: int, r: Loop, f: Fd, o: Owner)
    requires t in s.ring.kernel && t !in s.ring.cq && t !in s.ring.sq && !t.op.Close? && error < 0
    requires r.ring.sq == s.ring.sq && r.ring.kernel == s.ring.kernel - {t} && r.ring.cq == s.ring.cq[t := error]
    requires r.pools == s.pools && r.phase == s.phase && r.refs == s.refs && r.hand == s.hand && r.dents == s.dents
    ensures Role(r, f, o) <==> Role(s, f, o)
  {
  }

  // --- everything that moves a request along without settling it ---

  lemma PopRoles(s: Loop, op: Op)
    requires RolesOk(s) && s.pools.At(op).waiting != []
    ensures RolesOk(PopStep(s, op))
  {
    var r := PopStep(s, op);
    forall j: nat ensures (ActiveRead(r, j) <==> ActiveRead(s, j)) && (ActiveClose(r, j) <==> ActiveClose(s, j)) {
      PopCounts(s.pools.At(op).waiting, j);
    }
    forall f: Fd, o: Owner ensures Role(r, f, o) <==> Role(s, f, o) { }
    SameOk(s, r);
  }

  lemma SubmitRoles(s: Loop, moved: set<Token>)
    requires RolesOk(s) && SlotsOk(s) && s.phase == Returning([]) && moved <= s.ring.sq
    ensures RolesOk(SubmitStep(s, moved))
  {
    var r := SubmitStep(s, moved);
    forall t: Token ensures (RingPlaces(r.ring, t) > 0) == (RingPlaces(s.ring, t) > 0) { }
    forall f: Fd, o: Owner ensures Role(r, f, o) <==> Role(s, f, o) { }
    SameOk(s, r);
  }

  lemma ReapRoles(s: Loop, t: Token)
    requires RolesOk(s) && SlotsOk(s) && t in s.ring.cq && (s.phase.Waiting? || s.phase.Reaping?)
    ensures RolesOk(ReapStep(s, t))
  {
    var r := ReapStep(s, t);
    AtPlace(s, t);
    forall f: Fd, o: Owner ensures Role(r, f, o) <==> Role(s, f, o) { Reaped(s, t, r, f, o); }
    SameOk(s, r);
  }

  lemma Reaped(s: Loop, t: Token, r: Loop, f: Fd, o: Owner)
    requires t in s.ring.cq && (s.phase.Waiting? || s.phase.Reaping?)
    requires t !in s.ring.sq && t !in s.ring.kernel
    requires r.ring == s.ring.(cq := s.ring.cq - {t}) && r.phase == ReapStep(s, t).phase
    requires r.pools == s.pools && r.refs == s.refs && r.hand == s.hand && r.dents == s.dents
    ensures Role(r, f, o) <==> Role(s, f, o)
  {
    assert ListedFds(r) == ListedFds(s);
  }

  // Freeing slots and moving them between the workers' queues.
  lemma FreedRoles(s: Loop, r: Loop)
    requires RolesOk(s) && r.ring == s.ring && r.refs == s.refs && r.files.owner == s.files.owner && r.hand.leaked == s.hand.leaked
    requires r.pools.read.slots == s.pools.read.slots && r.pools.read.waiting == s.pools.read.waiting
    requires r.pools.close.slots == s.pools.close.slots && r.pools.close.waiting == s.pools.close.waiting
    requires ListedFds(r) == ListedFds(s)
    requires r.phase == s.phase ||
             (!s.phase.OpenDone? && !s.phase.ReadDone? && !s.phase.Requeue? && !r.phase.OpenDone? && !r.phase.ReadDone? && !r.phase.Requeue?)
    ensures RolesOk(r)
  {
    forall f: Fd, o: Owner ensures Role(r, f, o) <==> Role(s, f, o) { }
    SameOk(s, r);
  }

  // --- putting the events together ---

  lemma UnrefRoles(s: Loop, i: nat)
    requires BaseInv(s) && RolesOk(s) && s.phase == Unref(i) && PumpReady(s)
    ensures RolesOk(UnrefStep(s, i)) && ListedFds(UnrefStep(s, i)) == ListedFds(s)
  {
    var parent := s.pools.openat.slots[i].parent;
    if parent.Some? { DropRefRoles(s, parent.value); }
    PhaseRoles(if parent.Some? then DropRef(s, parent.value) else s, Finished(Token(OpenAt, i)));
  }

  lemma EndDirRoles(s: Loop)
    requires BaseInv(s) && RolesOk(s) && s.phase.InDir? && s.phase.fd in s.refs && s.refs[s.phase.fd] > 0
    ensures var r := DropRef(s, s.phase.fd).(phase := Dirs(s.phase.rest)); RolesOk(r) && ListedFds(r) == ListedFds(s)
  {
    DropRefRoles(s, s.phase.fd);
    PhaseRoles(DropRef(s, s.phase.fd), Dirs(s.phase.rest));
  }

  lemma RaisedRoles(s: Loop, u: Loop, fd: Fd)
    requires RolesOk(s) && fd in s.refs && u == s.(refs := s.refs[fd := s.refs[fd] + 1])
    ensures RolesOk(u)
  {
    assert SameRoles(s, u);
    SameOk(s, u);
  }

  lemma ListEntryRoles(s: Loop, isFile: bool)
    requires BaseInv(s) && RolesOk(s) && s.phase.InDir? && s.phase.fd in s.refs
    ensures RolesOk(QueueOpenAt(s, s.phase.fd, isFile)) && ListedFds(QueueOpenAt(s, s.phase.fd, isFile)) == ListedFds(s)
  {
    var fd := s.phase.fd;
    var u := s.(refs := s.refs[fd := s.refs[fd] + 1]);
    SamePlaces(s, u);
    RaisedRoles(s, u, fd);
    EnqueueOpenAtRoles(u, Some(fd), isFile);
    EnqueueParts(u, OpenAt, OpenAtRequest(Some(fd), isFile));
    SameOk(u, QueueOpenAt(s, fd, isFile));
  }

  lemma QueueRootRoles(s: Loop, isFile: bool)
    requires BaseInv(s) && RolesOk(s)
    ensures var r := Enqueue(s, OpenAt, OpenAtRequest(None, isFile)); RolesOk(r) && ListedFds(r) == ListedFds(s)
  {
    EnqueueOpenAtRoles(s, None, isFile);
    EnqueueParts(s, OpenAt, OpenAtRequest(None, isFile));
    SameOk(s, Enqueue(s, OpenAt, OpenAtRequest(None, isFile)));
  }

  lemma HandleRoles(s: Loop)
    requires BaseInv(s) && RolesOk(s) && PumpReady(s)
    ensures RolesOk(HandleStep(s))
  {
    match s.phase
    case OpenDone(i, res) => OpenDoneRoles(s, i, res);
    case Unref(i) => UnrefRoles(s, i);
    case ReadDone(i, res) =>
      if res == 0 { ReadEndRoles(s, i); } else if res > 0 { HandOverRoles(s, i); } else { ReadFailedRoles(s, i); }
    case Requeue(i) => RequeueRoles(s, i);
    case Finished(t) => FreedRoles(s, FinishedStep(s, t));
  }

  lemma RolesKept(s: Loop, e: Event)
    requires BaseInv(s) && RolesOk(s) && ListedOnce(s) && Enabled(s, e)
    ensures RolesOk(Apply(s, e))
  {
    match e
    case QueueRoot(isFile) => QueueRootRoles(s, isFile);
    case BeginDir => BeginDirRoles(s);
    case ListEntry(isFile) => ListEntryRoles(s, isFile);
    case EndDir => EndDirRoles(s);
    case PopOverflow => PopRoles(s, FirstWaiting(s));
    case Submit(moved) => SubmitRoles(s, moved);
    case Reap(t) => ReapRoles(s, t);
    case Handle => HandleRoles(s);
    case KernelOpens(t, fd, content) => KernelOpensRoles(s, t, fd, content);
    case KernelCloses(t, res) => KernelClosesRoles(s, t, res);
    case KernelReads(t, amount) => KernelReadsRoles(s, t, amount);
    case KernelFails(t, error) => KernelFailsRoles(s, t, error);
    case _ => FreedRoles(s, Apply(s, e));
  }

  lemma SameListed(s: Loop, r: Loop)
    requires ListedOnce(s) && r.dents == s.dents
    requires !s.phase.Dirs? && !s.phase.InDir? && !r.phase.Dirs? && !r.phase.InDir?
    ensures ListedOnce(r)
  {
    assert ListedFds(r) == ListedFds(s);
  }

  // A descriptor joins the list of directories only when it has just been opened.
  lemma PushListed(s: Loop, r: Loop, fd: Fd)
    requires ListedOnce(s) && r.dents == s.dents + [fd] && Count(ListedFds(s), fd) == 0
    requires !s.phase.Dirs? && !s.phase.InDir? && !r.phase.Dirs? && !r.phase.InDir?
    ensures ListedOnce(r)
  {
    assert ListedFds(s) == s.dents && ListedFds(r) == s.dents + [fd];
    forall f: Fd ensures Count(ListedFds(r), f) <= 1 { CountPush(s.dents, fd, f); }
  }

  lemma OpenDoneListed(s: Loop, i: nat, res: int)
    requires BaseInv(s) && RolesOk(s) && ListedOnce(s) && s.phase == OpenDone(i, res) && IsOpenAt(s, i)
    ensures ListedOnce(OpenDoneStep(s, i, res))
  {
    var r := OpenDoneStep(s, i, res);
    if res >= 0 && !s.pools.openat.slots[i].isFile {
      assert Role(s, res, Answer(i)) && !Role(s, res, Listed);
      PushListed(s, r, res);
    } else {
      if res >= 0 { EnqueueParts(s, Read, ReadRequest(res, 0, [])); }
      SameListed(s, r);
    }
  }

  lemma ReadEndListed(s: Loop, i: nat)
    requires PoolsInRange(s) && ListedOnce(s) && s.phase.ReadDone? && s.phase.slot == i && PumpReady(s)
    ensures ListedOnce(ReadEndStep(s, i))
  {
    EnqueueParts(s, Close, CloseRequest(s.pools.read.slots[i].fd));
    SameListed(s, ReadEndStep(s, i));
  }

  lemma RequeueListed(s: Loop, i: nat)
    requires PoolsInRange(s) && ListedOnce(s) && s.phase == Requeue(i) && IsRead(s, i)
    ensures ListedOnce(RequeueStep(s, i))
  {
    var r := s.pools.read.slots[i];
    EnqueueParts(s, Read, ReadRequest(r.fd, r.offset + |r.data|, []));
    SameListed(s, RequeueStep(s, i));
  }

  lemma HandleListed(s: Loop)
    requires BaseInv(s) && RolesOk(s) && ListedOnce(s) && PumpReady(s)
    ensures ListedOnce(HandleStep(s))
  {
    match s.phase
    case OpenDone(i, res) => OpenDoneListed(s, i, res);
    case Unref(i) => UnrefRoles(s, i);
    case ReadDone(i, res) =>
      if res == 0 { ReadEndListed(s, i); } else if res > 0 { SameListed(s, HandOverStep(s, i)); } else { SameListed(s, ReadFailedStep(s, i)); }
    case Requeue(i) => RequeueListed(s, i);
    case Finished(t) => SameListed(s, FinishedStep(s, t));
  }

  lemma ListedKept(s: Loop, e: Event)
    requires BaseInv(s) && RolesOk(s) && ListedOnce(s) && Enabled(s, e)
    ensures ListedOnce(Apply(s, e))
  {
    match e
    case QueueRoot(isFile) => QueueRootRoles(s, isFile);
    case BeginDir => BeginDirRoles(s);
    case ListEntry(isFile) => ListEntryRoles(s, isFile);
    case EndDir => EndDirRoles(s);
    case Handle => HandleListed(s);
    case _ => assert ListedFds(Apply(s, e)) == ListedFds(s);
  }

  lemma WorkerPhase(s: Loop, e: Event)
    requires PhaseOk(s) && Enabled(s, e) && (e.WorkerTakes? || e.WorkerFinishes?)
    ensures PhaseOk(Apply(s, e))
  {
    if s.phase.Requeue? {
      var h, i := s.hand, s.phase.slot;
      if e.WorkerTakes? {
        PopCounts(h.toProcess, i);
        CountPush(h.hands, h.toProcess[0], i);
      } else {
        CountRemove(h.hands, e.index, i);
        CountPush(h.freed, h.hands[e.index], i);
      }
    }
  }

  lemma PhaseKept(s: Loop, e: Event)
    requires SlotsOk(s) && PhaseOk(s) && Enabled(s, e)
    ensures PhaseOk(Apply(s, e))
  {
    match e
    case WorkerTakes => WorkerPhase(s, e);
    case WorkerFinishes(_) => WorkerPhase(s, e);
    case Handle => HandlePhase(s);
    case _ =>
  }

  lemma HandlePhase(s: Loop)
    requires SlotsOk(s) && PhaseOk(s) && PumpReady(s)
    ensures PhaseOk(HandleStep(s))
  {
    if s.phase.ReadDone? { CountPush(s.hand.toProcess, s.phase.slot, s.phase.slot); }
  }
}
