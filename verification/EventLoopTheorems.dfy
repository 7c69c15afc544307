/** What every run of the event loop does, whatever the kernel answers and however pump, kernel and
    workers interleave. */
module EventLoopTheorems {
  import opened Sequences
  import opened Wrappers
  import opened RequestPool
  import opened EventLoop
  import opened EventLoopSlots
  import opened EventLoopDirs
  import opened EventLoopOwners
  import opened EventLoopDelivery

  lemma InitialInv()
    ensures FullInv(Initial())
  {
    var s := Initial();
    InitialSlots();
    forall t: Token ensures t.slot < |s.pools.At(t.op).slots| ==> FreeCount(s.pools.At(t.op), t.slot) > 0 {
      FreshCounts(QUEUE_SIZE, Blank, t.slot);
    }
    forall fd: Fd ensures Children(s, fd) == {} { }
    assert RefsOk(s);
    assert RolesOk(s);
  }

  lemma StepInv(s: Loop, e: Event)
    requires FullInv(s) && Enabled(s, e)
    ensures FullInv(Apply(s, e))
  {
    if e.BeginDir? { BeginDirRoles(s); }
    SlotsKept(s, e);
    KindsKept(s, e);
    RefsKept(s, e);
    PhaseKept(s, e);
    RolesKept(s, e);
    ListedKept(s, e);
    DeliveryKept(s, e);
  }

  lemma {:induction false} RunInv(s: Loop, events: seq<Event>)
    requires FullInv(s) && Possible(s, events)
    ensures FullInv(Run(s, events))
    decreases events
  {
    if events != [] {
      StepInv(s, events[0]);
      RunInv(Apply(s, events[0]), events[1..]);
    }
  }

  ghost predicate Reachable(s: Loop) {
    exists events :: Possible(Initial(), events) && s == Run(Initial(), events)
  }

  lemma ReachableInv(s: Loop)
    requires Reachable(s)
    ensures FullInv(s)
  {
    var events :| Possible(Initial(), events) && s == Run(Initial(), events);
    InitialInv();
    RunInv(Initial(), events);
  }

  // --- slots ---

  /** Every slot of every pool is in exactly one place, and nothing else is anywhere. */
  lemma SlotInExactlyOnePlace(s: Loop, t: Token)
    requires Reachable(s)
    ensures Places(s, t) == if t.slot < |s.pools.At(t.op).slots| then 1 else 0
  {
    ReachableInv(s);
    AtPlace(s, t);
  }

  // The slot the pump frees next: after a completion, or because a worker has sent it back.
  function Freeing(ph: Phase): Option<Token> {
    match ph
    case Finished(t) => Some(t)
    case Returning(slots) => if slots == [] then None else Some(Token(Read, slots[0]))
    case _ => None
  }

  /** The unchecked push onto the primary free list never overruns it, wherever the pump frees a slot. */
  lemma FreeListNeverOverruns(s: Loop, t: Token)
    requires Reachable(s) && Freeing(s.phase) == Some(t) && t.slot < s.pools.At(t.op).n
    ensures |s.pools.At(t.op).free| < s.pools.At(t.op).n
  {
    ReachableInv(s);
    var p := s.pools.At(t.op);
    forall i: nat ensures Count(p.free, i) + Count(p.overflowFree, i) <= if i < |p.slots| then 1 else 0 { AtPlace(s, Token(t.op, i)); }
    AtPlace(s, t);
    if s.phase.Returning? { CountMember(s.phase.slots, t.slot); }
    FreeListHasRoom(p, t.slot);
  }

  predicate LiveSlot(s: Loop, t: Token) {
    t.slot < |s.pools.At(t.op).slots| && FreeCount(s.pools.At(t.op), t.slot) == 0
  }

  predicate Keeps(s: Loop, r: Loop, t: Token)
    requires t.slot < |s.pools.At(t.op).slots|
  {
    t.slot < |r.pools.At(t.op).slots| && r.pools.At(t.op).slots[t.slot] == s.pools.At(t.op).slots[t.slot]
  }

  lemma NextIsFree<T>(p: Pool<T>)
    requires InRange(p) && NextSlot(p) < |p.slots|
    ensures FreeCount(p, NextSlot(p)) > 0
  {
  }

  lemma EnqueueKeeps(s: Loop, op: Op, request: Request, t: Token)
    requires PoolsInRange(s) && LiveSlot(s, t)
    ensures Keeps(s, Enqueue(s, op, request), t)
  {
    var p := s.pools.At(op);
    EnqueueParts(s, op, request);
    if NextSlot(p) < |p.slots| { NextIsFree(p); }
    if t.op == op { assert t.slot != NextSlot(p); }
  }

  lemma DropRefKeeps(s: Loop, fd: Fd, t: Token)
    requires PoolsInRange(s) && LiveSlot(s, t) && fd in s.refs && s.refs[fd] > 0
    ensures Keeps(s, DropRef(s, fd), t)
  {
    if s.refs[fd] == 1 { EnqueueKeeps(s.(refs := s.refs - {fd}), Close, CloseRequest(fd), t); }
  }

  lemma RequeueKeeps(s: Loop, i: nat, t: Token)
    requires PoolsInRange(s) && IsRead(s, i) && LiveSlot(s, t)
    ensures Keeps(s, RequeueStep(s, i), t)
  {
    var r := s.pools.read.slots[i];
    var next := r.offset + |r.data|;
    EnqueueKeeps(s, Read, ReadRequest(r.fd, next, []), t);
  }

  lemma HandleKeeps(s: Loop, t: Token)
    requires PoolsInRange(s) && PumpReady(s) && LiveSlot(s, t)
    ensures Keeps(s, HandleStep(s), t)
  {
    match s.phase
    case OpenDone(i, res) => if res >= 0 { EnqueueKeeps(s, Read, ReadRequest(res, 0, []), t); }
    case Unref(i) =>
      var parent := s.pools.openat.slots[i].parent;
      if parent.Some? { DropRefKeeps(s, parent.value, t); }
    case ReadDone(i, res) => EnqueueKeeps(s, Close, CloseRequest(s.pools.read.slots[i].fd), t);
    case Requeue(i) => RequeueKeeps(s, i, t);
    case Finished(_) =>
  }

  /** No event writes to a slot in use, except the kernel filling the buffer of the read it answers, and
      that leaves descriptor and offset alone: a request is never reset under the kernel, the pump or a
      worker. */
  lemma LiveSlotsKeepTheirRequest(s: Loop, e: Event, t: Token)
    requires Enabled(s, e) && LiveSlot(s, t)
    ensures var r := Apply(s, e);
            if e.KernelReads? && t == Token(Read, e.token.slot) then
              IsRead(r, t.slot) && IsRead(s, t.slot) &&
              r.pools.read.slots[t.slot].fd == s.pools.read.slots[t.slot].fd &&
              r.pools.read.slots[t.slot].offset == s.pools.read.slots[t.slot].offset
            else Keeps(s, r, t)
  {
    match e
    case QueueRoot(isFile) => EnqueueKeeps(s, OpenAt, OpenAtRequest(None, isFile), t);
    case ListEntry(isFile) =>
      EnqueueKeeps(s.(refs := s.refs[s.phase.fd := s.refs[s.phase.fd] + 1]), OpenAt, OpenAtRequest(Some(s.phase.fd), isFile), t);
    case EndDir => DropRefKeeps(s, s.phase.fd, t);
    case Handle => HandleKeeps(s, t);
    case _ =>
  }

  // --- the pump never trips over its own books ---

  lemma HandleReady(s: Loop)
    requires FullInv(s) && (Current(s.phase).Some? || s.phase.Requeue?)
    ensures PumpReady(s)
  {
    match s.phase
    case OpenDone(i, _) => AtPlace(s, Token(OpenAt, i)); assert Fits(OpenAt, s.pools.At(OpenAt).slots[i]);
    case Unref(i) => UnrefReady(s, i);
    case ReadDone(i, _) => ReadDoneReady(s, i);
    case Requeue(i) => RequeueReady(s, i);
    case Finished(t) => AtPlace(s, t);
  }

  /** The asserts of `increase_dir_ref` and `decrease_dir_ref` hold wherever the pump reaches them, and
      every request pointer it follows leads to a request of the right kind. */
  lemma PumpNeverTrips(s: Loop)
    requires Reachable(s)
    ensures s.phase.InDir? ==> s.phase.fd in s.refs && s.refs[s.phase.fd] > 0
    ensures Current(s.phase).Some? || s.phase.Requeue? ==> Enabled(s, Handle)
    ensures s.phase.Returning? && s.phase.slots != [] ==> Enabled(s, ReturnSlot)
  {
    ReachableInv(s);
    if s.phase.InDir? {
      assert RefSum(s, s.phase.fd) > 0;
    } else if s.phase.Returning? {
      var slots := s.phase.slots;
      if slots != [] { AtPlace(s, Token(Read, slots[0])); CountMember(slots, slots[0]); }
    } else if Current(s.phase).Some? || s.phase.Requeue? {
      HandleReady(s);
    }
  }

  lemma UnrefReady(s: Loop, i: nat)
    requires FullInv(s) && s.phase == Unref(i)
    ensures PumpReady(s)
  {
    AtPlace(s, Token(OpenAt, i));
    assert Fits(OpenAt, s.pools.At(OpenAt).slots[i]);
    var parent := s.pools.openat.slots[i].parent;
    if parent.Some? {
      assert i in Children(s, parent.value);
      assert RefSum(s, parent.value) > 0;
    }
  }

  lemma ReadDoneReady(s: Loop, i: nat)
    requires FullInv(s) && s.phase.ReadDone? && s.phase.slot == i
    ensures PumpReady(s)
  {
    AtPlace(s, Token(Read, i));
    assert Fits(Read, s.pools.At(Read).slots[i]);
    var fd := s.pools.read.slots[i].fd;
    assert Role(s, fd, Reader(i));
    assert DeliveryOf(s, fd);
  }

  lemma RequeueReady(s: Loop, i: nat)
    requires FullInv(s) && s.phase == Requeue(i)
    ensures PumpReady(s)
  {
    AtPlace(s, Token(Read, i));
    assert Fits(Read, s.pools.At(Read).slots[i]);
  }

  // --- reference counts and descriptors ---

  /** A directory's count is one while it is being enumerated plus one for each relative openat that is
      queued or outstanding, and it has an entry exactly while that sum is positive. */
  lemma RefCountIsExact(s: Loop, fd: Fd)
    requires Reachable(s)
    ensures fd in s.refs <==> RefSum(s, fd) > 0
    ensures fd in s.refs ==> s.refs[fd] == RefSum(s, fd)
  {
    ReachableInv(s);
    assert RefSum(s, fd) == if fd in s.refs then s.refs[fd] else 0;
  }

  /** An open descriptor is waiting for exactly one thing: in particular there is never more than one
      read outstanding for a file, and never a second close. */
  lemma OneRolePerDescriptor(s: Loop, fd: Fd, o: Owner, p: Owner)
    requires Reachable(s) && Role(s, fd, o) && Role(s, fd, p)
    ensures o == p && fd in s.files.owner
  {
    ReachableInv(s);
  }

  /** While the close of a descriptor is queued or outstanding, no openat relative to it is. */
  lemma CloseComesLast(s: Loop, fd: Fd, i: nat)
    requires Reachable(s) && Role(s, fd, Closer(i))
    ensures Children(s, fd) == {} && fd !in s.refs
  {
    ReachableInv(s);
    assert !Role(s, fd, Dir);
    assert RefSum(s, fd) == 0;
  }

  /** Every file whose close has been queued had been given to the read handler completely, chunk after
      chunk, for any schedule of short reads. */
  lemma ClosedFilesWereGivenWhole(s: Loop, k: nat)
    requires Reachable(s) && k < |s.files.closed|
    ensures s.files.closed[k].0 == s.files.closed[k].1
  {
    ReachableInv(s);
  }

  // --- in_flight_, waiting and returning ---

  function SlotTotal(s: Loop): nat {
    |s.pools.openat.slots| + |s.pools.close.slots| + |s.pools.read.slots|
  }

  function TokensOf(op: Op, n: nat): set<Token> {
    set i: nat | i < n :: Token(op, i)
  }

  lemma {:induction false} TokensOfSize(op: Op, n: nat)
    ensures |TokensOf(op, n)| == n
  {
    if n > 0 {
      TokensOfSize(op, n - 1);
      assert TokensOf(op, n) == TokensOf(op, n - 1) + {Token(op, n - 1)};
    }
  }

  lemma {:induction false} LeakedSize(leaked: set<nat>)
    ensures |set i | i in leaked :: Token(Read, i)| == |leaked|
  {
    if leaked != {} {
      var x :| x in leaked;
      LeakedSize(leaked - {x});
      assert (set i | i in leaked :: Token(Read, i)) == (set i | i in leaked - {x} :: Token(Read, i)) + {Token(Read, x)};
    }
  }

  ghost function AllTokens(s: Loop): set<Token> {
    TokensOf(OpenAt, |s.pools.openat.slots|) + TokensOf(Close, |s.pools.close.slots|) + TokensOf(Read, |s.pools.read.slots|)
  }

  lemma AllTokensSize(s: Loop)
    ensures |AllTokens(s)| <= SlotTotal(s)
  {
    TokensOfSize(OpenAt, |s.pools.openat.slots|);
    TokensOfSize(Close, |s.pools.close.slots|);
    TokensOfSize(Read, |s.pools.read.slots|);
  }

  ghost function LostTokens(s: Loop): set<Token> {
    set i | i in s.hand.leaked :: Token(Read, i)
  }

  function CurrentTokens(s: Loop): set<Token> {
    if Current(s.phase).Some? then {Current(s.phase).value} else {}
  }

  lemma CountedOnce(s: Loop, t: Token)
    requires SlotsOk(s)
    ensures OneIf(t in s.ring.sq) + OneIf(t in s.ring.kernel) + OneIf(t in s.ring.cq.Keys) + OneIf(t in CurrentTokens(s)) + OneIf(t in LostTokens(s))
         <= OneIf(t in AllTokens(s))
  {
    AtPlace(s, t);
    assert t in LostTokens(s) <==> t.op.Read? && t.slot in s.hand.leaked;
    assert t in AllTokens(s) <==> t.slot < |s.pools.At(t.op).slots|;
  }

  // Everything counted is a different slot.
  lemma CountedSlotsAreDistinct(s: Loop)
    requires SlotsOk(s)
    ensures Outstanding(s) + |s.hand.leaked| <= SlotTotal(s)
  {
    AllTokensSize(s);
    LeakedSize(s.hand.leaked);
    forall t: Token ensures
      OneIf(t in s.ring.sq) + OneIf(t in s.ring.kernel) + OneIf(t in s.ring.cq.Keys) + OneIf(t in CurrentTokens(s)) + OneIf(t in LostTokens(s))
      <= OneIf(t in AllTokens(s))
    {
      CountedOnce(s, t);
    }
    FiveDisjoint(s.ring.sq, s.ring.kernel, s.ring.cq.Keys, CurrentTokens(s), LostTokens(s), AllTokens(s));
  }

  lemma FiveDisjoint<T(!new)>(a: set<T>, b: set<T>, c: set<T>, d: set<T>, e: set<T>, all: set<T>)
    requires forall t: T :: OneIf(t in a) + OneIf(t in b) + OneIf(t in c) + OneIf(t in d) + OneIf(t in e) <= OneIf(t in all)
    ensures |a| + |b| + |c| + |d| + |e| <= |all|
  {
    assert a !! b && (a + b) !! c && (a + b + c) !! d && (a + b + c + d) !! e;
    Subset(a + b + c + d + e, all);
  }

  lemma {:induction false} Subset<T>(a: set<T>, b: set<T>)
    requires a <= b
    ensures |a| <= |b|
  {
    assert b == a + (b - a);
  }

  /** `in_flight_` counts the requests in the ring and in the pump's hand, plus the failed reads, which
      are never taken off again; it does not wrap while the slots fit into memory. */
  lemma InFlightIsExact(s: Loop)
    requires Reachable(s) && SlotTotal(s) < WORD
    ensures s.inFlight == Outstanding(s) + |s.hand.leaked|
  {
    ReachableInv(s);
    CountedSlotsAreDistinct(s);
  }

  /** When there is nothing outstanding, the pump returns if no read has ever failed, and otherwise
      goes to wait for completions that cannot come. */
  lemma ReturnsUnlessAReadFailed(s: Loop)
    requires Reachable(s) && SlotTotal(s) < WORD && s.phase == Returning([]) && Outstanding(s) == 0
    ensures Enabled(s, Return) <==> s.hand.leaked == {}
    ensures Enabled(s, Submit(s.ring.sq)) <==> s.hand.leaked != {}
  {
    assert PoolsInRange(s) by { ReachableInv(s); }
    InFlightIsExact(s);
  }

  /** So the pump never waits with nothing outstanding as long as no read has failed. */
  lemma WaitsOnlyForSomething(s: Loop, moved: set<Token>)
    requires Reachable(s) && SlotTotal(s) < WORD && Enabled(s, Submit(moved)) && s.hand.leaked == {}
    ensures Outstanding(s) > 0 && s.ring.sq + s.ring.kernel + s.ring.cq.Keys != {}
  {
    InFlightIsExact(s);
  }

  lemma {:induction false} LeaksStay(s: Loop, events: seq<Event>, i: nat)
    requires Possible(s, events) && i in s.hand.leaked
    ensures i in Run(s, events).hand.leaked
    decreases events
  {
    if events != [] { LeaksStay(Apply(s, events[0]), events[1..], i); }
  }

  /** Once a read has failed, the pump never returns normally again, whatever happens afterwards. */
  lemma NeverReturnsAfterFailedRead(s: Loop, events: seq<Event>, i: nat)
    requires FullInv(s) && i in s.hand.leaked && Possible(s, events) && SlotTotal(Run(s, events)) < WORD
    ensures !Enabled(Run(s, events), Return)
  {
    LeaksStay(s, events, i);
    RunInv(s, events);
    LeakKeepsCounting(Run(s, events), i);
  }

  lemma LeakKeepsCounting(s: Loop, i: nat)
    requires SlotInv(s) && i in s.hand.leaked && SlotTotal(s) < WORD
    ensures s.inFlight != 0
  {
    CountedSlotsAreDistinct(s);
  }

  // --- a normal return ---

  lemma NoPendingOpenAt(s: Loop, fd: Fd)
    requires FullInv(s) && s.phase == Returning([]) && Outstanding(s) == 0 && NoneWaiting(s)
    ensures fd !in s.refs
  {
    forall i: nat ensures !Pending(s, i) { AtPlace(s, Token(OpenAt, i)); }
    assert Children(s, fd) == {};
    assert RefSum(s, fd) == 0;
  }

  lemma HeldRole(s: Loop, fd: Fd) returns (o: Owner)
    requires RolesOk(s) && fd in s.files.owner
    ensures Role(s, fd, o)
  {
    o := s.files.owner[fd];
  }

  lemma NobodyWaits(s: Loop, fd: Fd)
    requires FullInv(s) && s.phase == Returning([]) && Outstanding(s) == 0 && NoneWaiting(s) && s.hand.leaked == {}
    ensures fd !in s.files.owner
  {
    if fd in s.files.owner {
      var o := HeldRole(s, fd);
      NoPendingOpenAt(s, fd);
      assert false;
    }
  }

  /** When the pump returns normally, no request is in the ring or waiting for it, no directory is queued
      or counted, and every descriptor the kernel ever handed out has been closed. */
  lemma ReturnMeansDone(s: Loop)
    requires Reachable(s) && SlotTotal(s) < WORD && Enabled(s, Return)
    ensures Outstanding(s) == 0 && NoneWaiting(s) && s.hand.leaked == {}
    ensures s.dents == [] && s.refs == map[] && s.files.owner == map[]
  {
    ReachableInv(s);
    InFlightIsExact(s);
    forall fd: Fd ensures fd !in s.refs && fd !in s.files.owner {
      NoPendingOpenAt(s, fd);
      NobodyWaits(s, fd);
    }
  }
}
