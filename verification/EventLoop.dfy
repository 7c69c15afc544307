/** The io_uring event loop with its three request pools, the kernel behind the ring and the regex
    workers that read buffers are handed to. One event is one atomic action of the pump, of the kernel
    or of a worker, so everything below holds under every interleaving of the three.

    The user's handlers are the obvious ones: an opened directory is queued for enumeration, an opened
    file for a read at offset 0, and a listed entry may be opened relative to its directory. */
module EventLoop {
  import opened Wrappers
  import opened RequestPool

  type Fd = nat
  type Bytes = seq<bv8>

  datatype Op = OpenAt | Close | Read

  datatype Request =
    | Blank
    | OpenAtRequest(parent: Option<Fd>, isFile: bool)
    | CloseRequest(fd: Fd)
    | ReadRequest(fd: Fd, offset: nat, data: Bytes)  // `data` is the part of the buffer that was filled

  // The user data of a ring entry: the address of the request, hence its pool and slot.
  datatype Token = Token(op: Op, slot: nat)

  datatype Pools = Pools(openat: Pool<Request>, close: Pool<Request>, read: Pool<Request>) {
    function At(op: Op): Pool<Request> {
      match op
      case OpenAt => openat
      case Close => close
      case Read => read
    }

    function With(op: Op, p: Pool<Request>): (r: Pools)
      ensures r.At(op) == p && forall o :: o != op ==> r.At(o) == At(o)
    {
      match op
      case OpenAt => this.(openat := p)
      case Close => this.(close := p)
      case Read => this.(read := p)
    }
  }

  // Entries not yet submitted, requests inside the kernel, completions the pump has not looked at.
  datatype Ring = Ring(sq: set<Token>, kernel: set<Token>, cq: map<Token, int>)

  // Read slots outside the pump's hands: queued for a worker, held by one, on their way back, and
  // those of failed reads, which nobody ever returns.
  datatype Handoff = Handoff(toProcess: seq<nat>, hands: seq<nat>, freed: seq<nat>, leaked: set<nat>)

  // What an open descriptor is waiting for; bookkeeping of the model, not of the program.
  datatype Owner =
    | Answer(slot: nat)   // its openat has completed and has not been handled
    | Listed              // queued for enumeration
    | Dir                 // has a reference count
    | Reader(slot: nat)   // has a read outstanding
    | Requeuing           // between two reads
    | Closer(slot: nat)   // has a close outstanding
    | Abandoned           // its read failed

  // The kernel's descriptor table and, for files, what is in them and what the read handler was given.
  datatype Files = Files(owner: map<Fd, Owner>, content: map<Fd, Bytes>, delivered: map<Fd, Bytes>, closed: seq<(Bytes, Bytes)>)

  datatype Phase =
    | Idle
    | Dirs(rest: seq<Fd>)                 // the swapped-out getdents queue
    | InDir(fd: Fd, rest: seq<Fd>)
    | Overflow
    | Returning(slots: seq<nat>)          // the swapped-out queue of freed read requests
    | Waiting                             // submitted; blocks until a completion is there
    | Reaping
    | OpenDone(slot: nat, res: int)
    | Unref(slot: nat)
    | ReadDone(slot: nat, res: int)
    | Requeue(slot: nat)
    | Finished(token: Token)              // about to free the request's slot
    | Failed

  datatype Loop = Loop(
    pools: Pools,
    ring: Ring,
    inFlight: int,
    dents: seq<Fd>,
    refs: map<Fd, nat>,
    hand: Handoff,
    files: Files,
    phase: Phase)

  const QUEUE_SIZE: nat := 4096
  const BUFFER_SIZE: nat := 65536

  datatype Event =
    | QueueRoot(isFile: bool)
    | Start
    | BeginDir
    | ListEntry(isFile: bool)
    | EndDir
    | DirsDone
    | PopOverflow
    | OverflowDone
    | ReturnSlot
    | Return
    | Submit(moved: set<Token>)
    | SubmitFails
    | Reap(token: Token)
    | Handle
    | ReapDone
    | KernelOpens(token: Token, fd: Fd, content: Bytes)
    | KernelCloses(token: Token, res: int)
    | KernelReads(token: Token, amount: nat)
    | KernelFails(token: Token, error: int)
    | WorkerTakes
    | WorkerFinishes(index: nat)

  function Initial(): Loop {
    var p := Fresh(QUEUE_SIZE, Blank);
    Loop(Pools(p, p, p), Ring({}, {}, map[]), 0, [], map[], Handoff([], [], [], {}), Files(map[], map[], map[], []), Idle)
  }

  predicate PoolsInRange(s: Loop) {
    InRange(s.pools.openat) && InRange(s.pools.close) && InRange(s.pools.read)
  }

  predicate Room(s: Loop) {
    |s.ring.sq| < QUEUE_SIZE
  }

  // `RequestPool::next`: a slot is filled in and gets a ring entry, or waits for one.
  function Enqueue(s: Loop, op: Op, request: Request): Loop
    requires PoolsInRange(s)
  {
    var p := s.pools.At(op);
    var i, q := NextSlot(p), Take(p, request);
    if Room(s) then
      s.(pools := s.pools.With(op, q), ring := s.ring.(sq := s.ring.sq + {Token(op, i)}), inFlight := Inc(s.inFlight))
    else
      s.(pools := s.pools.With(op, q.(waiting := q.waiting + [i])))
  }

  function Own(s: Loop, fd: Fd, o: Owner): Loop {
    s.(files := s.files.(owner := s.files.owner[fd := o]))
  }

  function QueueClose(s: Loop, fd: Fd): Loop
    requires PoolsInRange(s)
  {
    Own(Enqueue(s, Close, CloseRequest(fd)), fd, Closer(NextSlot(s.pools.close)))
  }

  function QueueRead(s: Loop, fd: Fd, offset: nat): Loop
    requires PoolsInRange(s)
  {
    Own(Enqueue(s, Read, ReadRequest(fd, offset, [])), fd, Reader(NextSlot(s.pools.read)))
  }

  // `queue_openat` relative to a directory: one more reference to the directory.
  function QueueOpenAt(s: Loop, fd: Fd, isFile: bool): Loop
    requires PoolsInRange(s) && fd in s.refs
  {
    Enqueue(s.(refs := s.refs[fd := s.refs[fd] + 1]), OpenAt, OpenAtRequest(Some(fd), isFile))
  }

  function DropRef(s: Loop, fd: Fd): Loop
    requires PoolsInRange(s) && fd in s.refs && s.refs[fd] > 0
  {
    if s.refs[fd] == 1 then QueueClose(s.(refs := s.refs - {fd}), fd)
    else s.(refs := s.refs[fd := s.refs[fd] - 1])
  }

  // The pool `pump` would take the next overflowed request from.
  function FirstWaiting(s: Loop): Op {
    if s.pools.openat.waiting != [] then OpenAt else if s.pools.close.waiting != [] then Close else Read
  }

  predicate NoneWaiting(s: Loop) {
    s.pools.openat.waiting == [] && s.pools.close.waiting == [] && s.pools.read.waiting == []
  }

  predicate IsRead(s: Loop, slot: nat) {
    slot < |s.pools.read.slots| && s.pools.read.slots[slot].ReadRequest?
  }

  predicate IsClose(s: Loop, slot: nat) {
    slot < |s.pools.close.slots| && s.pools.close.slots[slot].CloseRequest?
  }

  predicate IsOpenAt(s: Loop, slot: nat) {
    slot < |s.pools.openat.slots| && s.pools.openat.slots[slot].OpenAtRequest?
  }

  // When the pump can go on from its present phase. The asserts of the code and the reads through
  // request pointers appear here as conditions; that they never fail is proved, not presumed.
  predicate PumpReady(s: Loop) {
    match s.phase
    case OpenDone(i, res) => IsOpenAt(s, i)
    case Unref(i) => IsOpenAt(s, i) &&
      (var parent := s.pools.openat.slots[i].parent; parent.Some? ==> parent.value in s.refs && s.refs[parent.value] > 0)
    case ReadDone(i, res) => IsRead(s, i) && (var fd := s.pools.read.slots[i].fd; fd in s.files.delivered && fd in s.files.content)
    case Requeue(i) => IsRead(s, i)
    case Finished(t) => t.slot < |s.pools.At(t.op).slots|
    case _ => false
  }

  predicate Enabled(s: Loop, e: Event) {
    PoolsInRange(s) &&
    match e
    case QueueRoot(_) => s.phase.Idle?
    case Start => s.phase.Idle?
    case BeginDir => s.phase.Dirs? && s.phase.rest != []
    case ListEntry(_) => s.phase.InDir? && s.phase.fd in s.refs
    case EndDir => s.phase.InDir? && s.phase.fd in s.refs && s.refs[s.phase.fd] > 0
    case DirsDone => s.phase.Dirs? && s.phase.rest == []
    case PopOverflow => s.phase.Overflow? && !NoneWaiting(s) && Room(s)
    case OverflowDone => s.phase.Overflow? && (NoneWaiting(s) || !Room(s))
    case ReturnSlot => s.phase.Returning? && s.phase.slots != [] && s.phase.slots[0] < |s.pools.read.slots|
    case Return => s.phase == Returning([]) && s.inFlight == 0
    case Submit(moved) => s.phase == Returning([]) && s.inFlight != 0 && moved <= s.ring.sq
    case SubmitFails => s.phase == Returning([]) && s.inFlight != 0
    case Reap(t) => (s.phase.Waiting? || s.phase.Reaping?) && t in s.ring.cq
    case Handle => PumpReady(s)
    case ReapDone => s.phase.Reaping?
    case KernelOpens(t, fd, content) => t in s.ring.kernel && t.op.OpenAt? && fd !in s.files.owner
    case KernelCloses(t, res) => t in s.ring.kernel && t.op.Close? && IsClose(s, t.slot)
    case KernelReads(t, amount) => t in s.ring.kernel && t.op.Read? && ReadableBy(s, t.slot, amount)
    case KernelFails(t, error) => t in s.ring.kernel && !t.op.Close? && error < 0
    case WorkerTakes => s.hand.toProcess != []
    case WorkerFinishes(k) => k < |s.hand.hands|
  }

  // --- the pump ---

  function BeginDirStep(s: Loop): Loop
    requires s.phase.Dirs? && s.phase.rest != []
  {
    var fd := s.phase.rest[0];
    Own(s, fd, Dir).(refs := s.refs[fd := 1], phase := InDir(fd, s.phase.rest[1..]))
  }

  // `RequestPool::try_pop_overflow`, when it finds a request and room for it.
  function PopStep(s: Loop, op: Op): Loop
    requires s.pools.At(op).waiting != []
  {
    var p := s.pools.At(op);
    s.(pools := s.pools.With(op, p.(waiting := p.waiting[1..])),
       ring := s.ring.(sq := s.ring.sq + {Token(op, p.waiting[0])}),
       inFlight := Inc(s.inFlight))
  }

  function OverflowDoneStep(s: Loop): Loop {
    s.(phase := Returning(s.hand.freed), hand := s.hand.(freed := []))
  }

  function ReturnSlotStep(s: Loop): Loop
    requires PoolsInRange(s) && s.phase.Returning? && s.phase.slots != [] && s.phase.slots[0] < |s.pools.read.slots|
  {
    s.(pools := s.pools.With(Read, Free(s.pools.read, s.phase.slots[0])),
       inFlight := Inc(Dec(s.inFlight)),
       phase := Returning(s.phase.slots[1..]))
  }

  function SubmitStep(s: Loop, moved: set<Token>): Loop {
    s.(ring := s.ring.(sq := s.ring.sq - moved, kernel := s.ring.kernel + moved), phase := Waiting)
  }

  function ReapStep(s: Loop, t: Token): Loop
    requires t in s.ring.cq
  {
    var res := s.ring.cq[t];
    s.(ring := s.ring.(cq := s.ring.cq - {t}),
       phase := match t.op case OpenAt => OpenDone(t.slot, res) case Close => Finished(t) case Read => ReadDone(t.slot, res))
  }

  function OpenDoneStep(s: Loop, i: nat, res: int): Loop
    requires PoolsInRange(s) && IsOpenAt(s, i)
  {
    if res < 0 then s.(phase := Unref(i))
    else if s.pools.openat.slots[i].isFile then QueueRead(s, res, 0).(phase := Unref(i))
    else Own(s.(dents := s.dents + [res]), res, Listed).(phase := Unref(i))
  }

  function UnrefStep(s: Loop, i: nat): Loop
    requires PoolsInRange(s) && s.phase == Unref(i) && PumpReady(s)
  {
    var parent := s.pools.openat.slots[i].parent;
    (if parent.Some? then DropRef(s, parent.value) else s).(phase := Finished(Token(OpenAt, i)))
  }

  // A completed read: at the end of the file the descriptor is closed, ...
  function ReadEndStep(s: Loop, i: nat): Loop
    requires PoolsInRange(s) && IsRead(s, i)
    requires var fd := s.pools.read.slots[i].fd; fd in s.files.delivered && fd in s.files.content
  {
    var fd := s.pools.read.slots[i].fd;
    var t := QueueClose(s, fd);
    t.(files := t.files.(closed := t.files.closed + [(t.files.content[fd], t.files.delivered[fd])]),
       phase := Finished(Token(Read, i)))
  }

  // ... otherwise the buffer goes to the workers, ...
  function HandOverStep(s: Loop, i: nat): Loop
    requires IsRead(s, i) && s.pools.read.slots[i].fd in s.files.delivered
  {
    var r := s.pools.read.slots[i];
    s.(inFlight := Dec(s.inFlight),
       hand := s.hand.(toProcess := s.hand.toProcess + [i]),
       files := s.files.(owner := s.files.owner[r.fd := Requeuing],
                         delivered := s.files.delivered[r.fd := s.files.delivered[r.fd] + r.data]),
       phase := Requeue(i))
  }

  // ... and a failed read is dropped, slot and count included.
  function ReadFailedStep(s: Loop, i: nat): Loop
    requires IsRead(s, i)
  {
    Own(s, s.pools.read.slots[i].fd, Abandoned).(hand := s.hand.(leaked := s.hand.leaked + {i}), phase := Reaping)
  }

  function RequeueStep(s: Loop, i: nat): Loop
    requires PoolsInRange(s) && IsRead(s, i)
  {
    var r := s.pools.read.slots[i];
    QueueRead(s, r.fd, r.offset + |r.data|).(phase := Reaping)
  }

  function FinishedStep(s: Loop, t: Token): Loop
    requires PoolsInRange(s) && t.slot < |s.pools.At(t.op).slots|
  {
    s.(pools := s.pools.With(t.op, Free(s.pools.At(t.op), t.slot)), inFlight := Dec(s.inFlight), phase := Reaping)
  }

  function HandleStep(s: Loop): Loop
    requires PoolsInRange(s) && PumpReady(s)
  {
    match s.phase
    case OpenDone(i, res) => OpenDoneStep(s, i, res)
    case Unref(i) => UnrefStep(s, i)
    case ReadDone(i, res) =>
      if res == 0 then ReadEndStep(s, i) else if res > 0 then HandOverStep(s, i) else ReadFailedStep(s, i)
    case Requeue(i) => RequeueStep(s, i)
    case Finished(t) => FinishedStep(s, t)
  }

  // --- the kernel answers a request it holds ---

  function Complete(s: Loop, t: Token, res: int): Loop {
    s.(ring := s.ring.(kernel := s.ring.kernel - {t}, cq := s.ring.cq[t := res]))
  }

  function KernelOpensStep(s: Loop, t: Token, fd: Fd, content: Bytes): Loop {
    Complete(s, t, fd).(files := s.files.(
      owner := s.files.owner[fd := Answer(t.slot)],
      content := s.files.content[fd := content],
      delivered := s.files.delivered[fd := []]))
  }

  function KernelClosesStep(s: Loop, t: Token, res: int): Loop
    requires IsClose(s, t.slot)
  {
    Complete(s, t, res).(files := s.files.(owner := s.files.owner - {s.pools.close.slots[t.slot].fd}))
  }

  predicate ReadableBy(s: Loop, i: nat, amount: nat) {
    IsRead(s, i) && amount <= BUFFER_SIZE &&
    var r := s.pools.read.slots[i];
    r.fd in s.files.content && r.offset + amount <= |s.files.content[r.fd]| &&
    (amount == 0 ==> r.offset == |s.files.content[r.fd]|)
  }

  function KernelReadsStep(s: Loop, t: Token, amount: nat): Loop
    requires ReadableBy(s, t.slot, amount)
  {
    var p := s.pools.read;
    var r := p.slots[t.slot];
    var filled := ReadRequest(r.fd, r.offset, s.files.content[r.fd][r.offset..r.offset + amount]);
    Complete(s, t, amount).(pools := s.pools.With(Read, p.(slots := p.slots[t.slot := filled])))
  }

  // --- the workers ---

  function WorkerTakesStep(s: Loop): Loop
    requires s.hand.toProcess != []
  {
    var h := s.hand;
    s.(hand := h.(toProcess := h.toProcess[1..], hands := h.hands + [h.toProcess[0]]))
  }

  function WorkerFinishesStep(s: Loop, k: nat): Loop
    requires k < |s.hand.hands|
  {
    var h := s.hand;
    s.(hand := h.(hands := h.hands[..k] + h.hands[k + 1..], freed := h.freed + [h.hands[k]]))
  }

  function Apply(s: Loop, e: Event): Loop
    requires Enabled(s, e)
  {
    match e
    case QueueRoot(isFile) => Enqueue(s, OpenAt, OpenAtRequest(None, isFile))
    case Start => s.(phase := Dirs(s.dents), dents := [])
    case BeginDir => BeginDirStep(s)
    case ListEntry(isFile) => QueueOpenAt(s, s.phase.fd, isFile)
    case EndDir => DropRef(s, s.phase.fd).(phase := Dirs(s.phase.rest))
    case DirsDone => s.(phase := Overflow)
    case PopOverflow => PopStep(s, FirstWaiting(s))
    case OverflowDone => OverflowDoneStep(s)
    case ReturnSlot => ReturnSlotStep(s)
    case Return => s.(phase := Idle)
    case Submit(moved) => SubmitStep(s, moved)
    case SubmitFails => s.(phase := Failed)
    case Reap(t) => ReapStep(s, t)
    case Handle => HandleStep(s)
    case ReapDone => s.(phase := Dirs(s.dents), dents := [])
    case KernelOpens(t, fd, content) => KernelOpensStep(s, t, fd, content)
    case KernelCloses(t, res) => KernelClosesStep(s, t, res)
    case KernelReads(t, amount) => KernelReadsStep(s, t, amount)
    case KernelFails(t, error) => Complete(s, t, error)
    case WorkerTakes => WorkerTakesStep(s)
    case WorkerFinishes(k) => WorkerFinishesStep(s, k)
  }

  predicate Possible(s: Loop, events: seq<Event>)
    decreases events
  {
    events == [] || (Enabled(s, events[0]) && Possible(Apply(s, events[0]), events[1..]))
  }

  function Run(s: Loop, events: seq<Event>): Loop
    requires Possible(s, events)
    decreases events
  {
    if events == [] then s else Run(Apply(s, events[0]), events[1..])
  }
}
