/** The pool of request slots: `n` primary slots, overflow slots created when all others are live, two
    free lists, and the queue of requests that found no room in the submission queue. Slots are named
    by index; the primary ones come first. */
module RequestPool {
  import opened Sequences

  datatype Pool<T> = Pool(n: nat, slots: seq<T>, free: seq<nat>, overflowFree: seq<nat>, waiting: seq<nat>)

  const WORD: int := 0x1_0000_0000_0000_0000

  // `std::size_t` arithmetic on the number of requests in flight.
  function Inc(x: int): int { (x + 1) % WORD }
  function Dec(x: int): int { (x - 1) % WORD }

  function Fresh<T>(n: nat, blank: T): Pool<T> {
    Pool(n, seq(n, _ => blank), seq(n, i => i), [], [])
  }

  function FreeCount<T>(p: Pool<T>, i: nat): nat {
    Count(p.free, i) + Count(p.overflowFree, i)
  }

  // The slot the next request gets ...
  function NextSlot<T>(p: Pool<T>): nat {
    if p.free != [] then p.free[|p.free| - 1]
    else if p.overflowFree != [] then p.overflowFree[|p.overflowFree| - 1]
    else |p.slots|
  }

  predicate InRange<T>(p: Pool<T>) {
    p.n <= |p.slots| &&
    (forall k :: 0 <= k < |p.free| ==> p.free[k] < p.n) &&
    (forall k :: 0 <= k < |p.overflowFree| ==> p.n <= p.overflowFree[k] < |p.slots|)
  }

  // ... and the pool once it has been taken off its free list, or created, and filled in.
  function Take<T>(p: Pool<T>, request: T): (r: Pool<T>)
    requires InRange(p)
    ensures InRange(r) && NextSlot(p) < |r.slots| && r.slots[NextSlot(p)] == request
    ensures |p.slots| <= |r.slots| && forall i :: 0 <= i < |p.slots| && i != NextSlot(p) ==> r.slots[i] == p.slots[i]
  {
    if p.free != [] then p.(slots := p.slots[NextSlot(p) := request], free := p.free[..|p.free| - 1])
    else if p.overflowFree != [] then
      p.(slots := p.slots[NextSlot(p) := request], overflowFree := p.overflowFree[..|p.overflowFree| - 1])
    else p.(slots := p.slots + [request])
  }

  function Free<T>(p: Pool<T>, i: nat): (r: Pool<T>)
    requires InRange(p) && i < |p.slots|
    ensures InRange(r)
  {
    if i < p.n then p.(free := p.free + [i]) else p.(overflowFree := p.overflowFree + [i])
  }

  // --- counting ---

  lemma {:induction false} CountIota(n: nat, x: nat)
    ensures Count<nat>(seq(n, i => i), x) == if x < n then 1 else 0
  {
    if n > 0 {
      CountIota(n - 1, x);
      assert seq<nat>(n, i => i)[..n - 1] == seq<nat>(n - 1, i => i);
    }
  }

  // Distinct numbers below `n`: there are at most `n` of them.
  lemma {:induction false} DistinctBounded(s: seq<nat>, n: nat)
    requires forall x: nat :: Count(s, x) <= if x < n then 1 else 0
    ensures |s| <= n
  {
    if n == 0 {
      if s != [] { CountMember(s, s[0]); assert false; }
    } else if n - 1 in s {
      var k :| 0 <= k < |s| && s[k] == n - 1;
      var r := s[..k] + s[k + 1..];
      forall x: nat ensures Count(r, x) <= if x < n - 1 then 1 else 0 { CountRemove(s, k, x); }
      DistinctBounded(r, n - 1);
    } else {
      CountMember<nat>(s, n - 1);
      DistinctBounded(s, n - 1);
    }
  }

  lemma FreshCounts<T>(n: nat, blank: T, i: nat)
    ensures InRange(Fresh(n, blank))
    ensures FreeCount(Fresh(n, blank), i) == if i < n then 1 else 0
  {
    CountIota(n, i);
  }

  // Taking a slot removes it from the free lists, or creates it.
  lemma TakeCounts<T>(p: Pool<T>, request: T, i: nat)
    requires InRange(p)
    ensures FreeCount(Take(p, request), i) + (if i == NextSlot(p) && NextSlot(p) < |p.slots| then 1 else 0) == FreeCount(p, i)
    ensures |Take(p, request).slots| == if NextSlot(p) == |p.slots| then |p.slots| + 1 else |p.slots|
  {
  }

  lemma FreeCounts<T>(p: Pool<T>, j: nat, i: nat)
    requires InRange(p) && j < |p.slots|
    ensures FreeCount(Free(p, j), i) == FreeCount(p, i) + if i == j then 1 else 0
  {
    CountPush(p.free, j, i);
    CountPush(p.overflowFree, j, i);
  }

  /** An overflow slot is used only when no primary one is free, and a slot is created only when none is free at
      all. */
  lemma PrimarySlotsFirst<T>(p: Pool<T>)
    requires InRange(p)
    ensures NextSlot(p) >= p.n ==> forall i :: 0 <= i < p.n ==> Count(p.free, i) == 0
    ensures if NextSlot(p) < |p.slots| then FreeCount(p, NextSlot(p)) > 0 else forall i: nat :: FreeCount(p, i) == 0
  {
  }

  /** Taking right after freeing a primary slot gives back that slot, and the pool as it was. */
  lemma FreeThenTake<T>(p: Pool<T>, i: nat)
    requires InRange(p) && i < p.n
    ensures NextSlot(Free(p, i)) == i && Take(Free(p, i), p.slots[i]) == p
  {
    assert (p.free + [i])[..|p.free|] == p.free;
    assert p.slots[i := p.slots[i]] == p.slots;
  }

  // --- any sequence of calls ---

  datatype Call<T> = Acquire(request: T) | Release(slot: nat)

  ghost predicate Sound<T>(p: Pool<T>) {
    InRange(p) && forall i: nat :: Count(p.free, i) + Count(p.overflowFree, i) <= if i < |p.slots| then 1 else 0
  }

  predicate Live<T>(p: Pool<T>, i: nat) {
    i < |p.slots| && FreeCount(p, i) == 0
  }

  function LiveCount<T>(p: Pool<T>): int {
    |p.slots| - |p.free| - |p.overflowFree|
  }

  ghost function Perform<T>(p: Pool<T>, c: Call<T>): (r: Pool<T>)
    requires Sound(p) && (c.Release? ==> Live(p, c.slot))
    ensures Sound(r) && r.n == p.n
    ensures LiveCount(r) == LiveCount(p) + if c.Acquire? then 1 else -1
  {
    match c
    case Acquire(request) => TakeSound(p, request); Take(p, request)
    case Release(slot) => FreeSound(p, slot); Free(p, slot)
  }

  lemma TakeSound<T>(p: Pool<T>, request: T)
    requires Sound(p)
    ensures Sound(Take(p, request))
  {
    var r := Take(p, request);
    forall i: nat ensures FreeCount(r, i) <= FreeCount(p, i) <= if i < |r.slots| then 1 else 0 {
      TakeCounts(p, request, i);
    }
    assert forall i: nat :: Count(r.free, i) + Count(r.overflowFree, i) == FreeCount(r, i);
  }

  lemma FreeSound<T>(p: Pool<T>, slot: nat)
    requires Sound(p) && Live(p, slot)
    ensures Sound(Free(p, slot))
  {
    var r := Free(p, slot);
    forall i: nat ensures FreeCount(r, i) <= if i < |r.slots| then 1 else 0 {
      FreeCounts(p, slot, i);
      FreeOnce(p, i);
    }
    assert forall i: nat :: Count(r.free, i) + Count(r.overflowFree, i) == FreeCount(r, i);
  }

  lemma FreeOnce<T>(p: Pool<T>, i: nat)
    requires Sound(p)
    ensures FreeCount(p, i) <= if i < |p.slots| then 1 else 0
  {
  }

  // The callers' side of the bargain: only live requests are freed.
  ghost predicate Disciplined<T>(p: Pool<T>, calls: seq<Call<T>>)
    requires Sound(p)
    decreases calls
  {
    calls == [] ||
    ((calls[0].Release? ==> Live(p, calls[0].slot)) && Disciplined(Perform(p, calls[0]), calls[1..]))
  }

  ghost function After<T>(p: Pool<T>, calls: seq<Call<T>>): Pool<T>
    requires Sound(p) && Disciplined(p, calls)
    decreases calls
  {
    if calls == [] then p else After(Perform(p, calls[0]), calls[1..])
  }

  function Max(a: int, b: int): int { if a < b then b else a }

  // The largest number of requests live at once, from the calls alone.
  function Peak<T>(live: int, peak: int, calls: seq<Call<T>>): int
    decreases calls
  {
    if calls == [] then peak else
    var now := if calls[0].Acquire? then live + 1 else live - 1;
    Peak(now, Max(peak, now), calls[1..])
  }

  lemma PerformGrows<T>(p: Pool<T>, c: Call<T>, peak: int)
    requires Sound(p) && (c.Release? ==> Live(p, c.slot))
    requires LiveCount(p) <= peak && |p.slots| == Max(p.n, peak)
    ensures |Perform(p, c).slots| == Max(p.n, Max(peak, LiveCount(Perform(p, c))))
  {
  }

  lemma {:induction false} GrowsOnlyAtPeak<T>(p: Pool<T>, calls: seq<Call<T>>, peak: int)
    requires Sound(p) && Disciplined(p, calls)
    requires LiveCount(p) <= peak && |p.slots| == Max(p.n, peak)
    ensures |After(p, calls).slots| == Max(p.n, Peak(LiveCount(p), peak, calls))
    decreases calls
  {
    if calls != [] {
      var r := Perform(p, calls[0]);
      PerformGrows(p, calls[0], peak);
      GrowsOnlyAtPeak(r, calls[1..], Max(peak, LiveCount(r)));
    }
  }

  /** However `next` and `free` are called, a pool that started with `n` slots owns exactly the larger
      of `n` and the peak number of requests live at once: overflow slots appear only when every
      existing slot is live. */
  lemma SlotsMatchPeak<T>(n: nat, blank: T, calls: seq<Call<T>>)
    requires Sound(Fresh(n, blank)) && Disciplined(Fresh(n, blank), calls)
    ensures |After(Fresh(n, blank), calls).slots| == Max(n, Peak(0, 0, calls))
  {
    GrowsOnlyAtPeak(Fresh(n, blank), calls, 0);
  }

  lemma FreshSound<T>(n: nat, blank: T)
    ensures Sound(Fresh(n, blank))
  {
    var p := Fresh(n, blank);
    forall i: nat ensures Count(p.free, i) + Count(p.overflowFree, i) <= if i < |p.slots| then 1 else 0 {
      FreshCounts(n, blank, i);
    }
  }

  lemma FreeListFits<T>(p: Pool<T>)
    requires Sound(p)
    ensures |p.free| <= p.n
  {
    forall x: nat ensures Count(p.free, x) <= if x < p.n then 1 else 0 { CountMember(p.free, x); }
    DistinctBounded(p.free, p.n);
  }

  /** The unchecked push in `free` always has room: a live primary slot is missing from the list. */
  lemma FreeListHasRoom<T>(p: Pool<T>, i: nat)
    requires Sound(p) && Live(p, i) && i < p.n
    ensures |p.free| < p.n
  {
    FreeSound(p, i);
    FreeListFits(Free(p, i));
  }

  // --- the pool as the event loop uses it ---

  // The submission side of the ring, shared by all pools: what has been handed an entry and not been
  // submitted yet, and the count of requests in flight.
  class SubmissionQueue<T> {
    const capacity: nat
    var entries: seq<T>
    var inFlight: int

    constructor (capacity: nat)
      ensures this.capacity == capacity && entries == [] && inFlight == 0
    {
      this.capacity := capacity;
      entries := [];
      inFlight := 0;
    }
  }

  class RequestPool<T(0)> {
    const ring: SubmissionQueue<(nat, T)>
    const n: nat
    var slots: seq<T>
    var freeList: seq<nat>
    var overflowFreeList: seq<nat>
    var sqeOverflow: seq<nat>

    ghost function Model(): Pool<T>
      reads this
    {
      Pool(n, slots, freeList, overflowFreeList, sqeOverflow)
    }

    ghost predicate Valid()
      reads this
    {
      Sound(Model()) && forall k :: 0 <= k < |sqeOverflow| ==> Live(Model(), sqeOverflow[k])
    }

    constructor (ring: SubmissionQueue<(nat, T)>, n: nat, blank: T)
      ensures this.ring == ring && Valid() && Model() == Fresh(n, blank)
    {
      this.ring := ring;
      this.n := n;
      slots := seq(n, _ => blank);
      freeList := seq(n, i => i);
      overflowFreeList := [];
      sqeOverflow := [];
      new;
      FreshSound(n, blank);
    }

    // Fills in a slot and gives it a submission entry, or parks it when there is none.
    method Next(request: T)
      requires Valid()
      modifies this, ring
      ensures Valid()
      ensures var p, q := old(Model()), Take(old(Model()), request);
              if |old(ring.entries)| < ring.capacity then
                Model() == q && ring.entries == old(ring.entries) + [(NextSlot(p), request)] &&
                ring.inFlight == Inc(old(ring.inFlight))
              else
                Model() == q.(waiting := q.waiting + [NextSlot(p)]) &&
                ring.entries == old(ring.entries) && ring.inFlight == old(ring.inFlight)
    {
      StillLive(Model(), request);
      TakeSound(Model(), request);
      var next := Grab(request);
      if |ring.entries| < ring.capacity {
        ring.entries := ring.entries + [(next, request)];
        ring.inFlight := Inc(ring.inFlight);
      } else {
        sqeOverflow := sqeOverflow + [next];
      }
    }

    method Grab(request: T) returns (next: nat)
      requires Valid()
      modifies this
      ensures Model() == Take(old(Model()), request) && next == NextSlot(old(Model()))
    {
      if freeList != [] {
        next := freeList[|freeList| - 1];
        freeList := freeList[..|freeList| - 1];
        slots := slots[next := request];
      } else if overflowFreeList != [] {
        next := overflowFreeList[|overflowFreeList| - 1];
        overflowFreeList := overflowFreeList[..|overflowFreeList| - 1];
        slots := slots[next := request];
      } else {
        next := |slots|;
        slots := slots + [request];
      }
    }

    // Moves the oldest parked request to the ring if there is one and room for it.
    method TryPopOverflow() returns (popped: bool)
      requires Valid()
      modifies this, ring
      ensures Valid()
      ensures popped == (old(sqeOverflow) != [] && |old(ring.entries)| < ring.capacity)
      ensures if popped then
                Model() == old(Model()).(waiting := old(sqeOverflow)[1..]) &&
                ring.entries == old(ring.entries) + [(old(sqeOverflow)[0], old(slots)[old(sqeOverflow)[0]])] &&
                ring.inFlight == Inc(old(ring.inFlight))
              else
                Model() == old(Model()) && ring.entries == old(ring.entries) && ring.inFlight == old(ring.inFlight)
    {
      if sqeOverflow == [] || |ring.entries| >= ring.capacity {
        return false;
      }
      assert Live(Model(), sqeOverflow[0]);
      ring.entries := ring.entries + [(sqeOverflow[0], slots[sqeOverflow[0]])];
      sqeOverflow := sqeOverflow[1..];
      ring.inFlight := Inc(ring.inFlight);
      return true;
    }

    method Release(i: nat)
      requires Valid() && Live(Model(), i) && i !in sqeOverflow
      modifies this, ring
      ensures Valid() && Model() == Free(old(Model()), i)
      ensures |freeList| <= n
      ensures ring.entries == old(ring.entries) && ring.inFlight == Dec(old(ring.inFlight))
    {
      ghost var p := Model();
      FreeSound(p, i);
      if i < n {
        FreeListHasRoom(p, i);
        freeList := freeList + [i];
      } else {
        overflowFreeList := overflowFreeList + [i];
      }
      FreeListFits(Model());
      ring.inFlight := Dec(ring.inFlight);
      forall k | 0 <= k < |sqeOverflow| ensures Live(Model(), sqeOverflow[k]) { FreeCounts(p, i, sqeOverflow[k]); }
    }
  }

  lemma StillLive<T>(p: Pool<T>, request: T)
    requires Sound(p)
    ensures Live(Take(p, request), NextSlot(p))
    ensures forall i: nat :: Live(p, i) ==> Live(Take(p, request), i)
  {
    var r := Take(p, request);
    forall i: nat ensures Live(p, i) ==> Live(r, i) { TakeCounts(p, request, i); }
    TakeCounts(p, request, NextSlot(p));
    assert FreeCount(p, NextSlot(p)) <= if NextSlot(p) < |p.slots| then 1 else 0;
  }
}
