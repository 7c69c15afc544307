/** From a transform to stdout: the batching stage, the short-write loop, and any number of workers
    sharing stdout under the sink's mutex. */
module Output {
  import opened Sequences
  import opened Wrappers

  const BUFFER_SIZE: nat := 65536

  // What a system call asked for `want` of `available` bytes answers: an error, or any short count,
  // which is zero only when there is nothing to transfer.
  function Transferred(available: nat, want: nat, raw: int): (n: int)
    ensures -1 <= n <= available && n <= want
    ensures n == 0 ==> available == 0 || want == 0
  {
    var most := if available < want then available else want;
    if raw < 0 then -1 else if raw == 0 && most > 0 then 1 else if raw < most then raw else most
  }

  class Stdout {
    var written: string

    constructor ()
      ensures written == ""
    {
      written := "";
    }
  }

  // Some of `data`, at most its first `most` bytes, has been added to what was out before.
  predicate AddedUpTo(before: string, after: string, data: string, k: nat) {
    k <= |data| && after == before + data[..k]
  }

  ghost predicate PartlyAdded(before: string, after: string, data: string, most: nat) {
    exists k: nat :: k <= most && AddedUpTo(before, after, data, k)
  }

  ghost predicate NoErrors(raw: nat -> int) {
    forall i: nat :: raw(i) >= 0
  }

  // `WriteNode`: everything goes out in as many writes as it takes, or the first error ends it.
  method Write(out: Stdout, data: string, forceNewline: bool, raw: nat -> int) returns (r: Result<nat>)
    modifies out
    ensures r.Ok? && !forceNewline ==> out.written == old(out.written) + data && r.value == |data|
    ensures r.Ok? && forceNewline ==> r.value == |data| + 1
    ensures r.Ok? && forceNewline ==> out.written == old(out.written) + data || out.written == old(out.written) + data + "\n"
    ensures r.Err? ==> data != "" && PartlyAdded(old(out.written), out.written, data, |data| - 1)
    ensures NoErrors(raw) ==> r.Ok? && out.written == old(out.written) + data + if forceNewline then "\n" else ""
  {
    var amount, call := 0, 0;
    while amount < |data|
      invariant amount <= |data| && out.written == old(out.written) + data[..amount]
    {
      var n := Transferred(|data| - amount, |data| - amount, raw(call));
      if n == -1 {
        assert AddedUpTo(old(out.written), out.written, data, amount);
        return Err;
      }
      out.written := out.written + data[amount..amount + n];
      assert data[..amount] + data[amount..amount + n] == data[..amount + n];
      amount, call := amount + n, call + 1;
    }
    assert data[..amount] == data;
    if forceNewline {
      if raw(call) >= 0 {
        out.written := out.written + "\n";
      }
      amount := amount + 1;
    }
    r := Ok(amount);
  }

  // `BatchNode`: pieces are collected until there are 64 KiB of them.
  class Batch {
    const out: Stdout
    var buffer: string

    constructor (out: Stdout)
      ensures this.out == out && buffer == ""
    {
      this.out := out;
      buffer := "";
    }

    // The data call. After a success less than a buffer's worth is held back and nothing is lost or
    // reordered; after a failure the whole buffer is still there, part of it possibly already written.
    method Data(data: string, raw: nat -> int) returns (r: Result<nat>)
      modifies this, out
      ensures r.Ok? ==> out.written + buffer == old(out.written) + old(buffer) + data && |buffer| < BUFFER_SIZE
      ensures r.Ok? ==> r.value == |old(buffer) + data| - |buffer| && (buffer == "" || r.value == 0)
      ensures |old(buffer) + data| < BUFFER_SIZE ==>
                r == Ok(0) && buffer == old(buffer) + data && out.written == old(out.written)
      ensures NoErrors(raw) ==> r.Ok?
      ensures r.Err? ==> buffer == old(buffer) + data
      ensures r.Err? ==> buffer != "" && PartlyAdded(old(out.written), out.written, buffer, |buffer| - 1)
    {
      var amount := 0;
      buffer := buffer + data;
      if |buffer| >= BUFFER_SIZE {
        r := Write(out, buffer, false, raw);
        if r.Err? {
          return;
        }
        amount := r.value;
        buffer := "";
      }
      assert out.written + buffer == old(out.written) + old(buffer) + data;
      r := Ok(amount);
    }

    // The flush call. It does not clear the buffer: a second flush would send it again.
    method Flush(raw: nat -> int) returns (r: Result<nat>)
      modifies out
      ensures r.Ok? ==> out.written == old(out.written) + buffer && r.value == |buffer|
      ensures NoErrors(raw) ==> r.Ok?
      ensures r.Err? ==> buffer != "" && PartlyAdded(old(out.written), out.written, buffer, |buffer| - 1)
    {
      r := Write(out, buffer, false, raw);
      if r.Ok? {
        r := Ok(|buffer|);
      }
    }
  }

  // --- many workers, one stdout ---

  // `Waiting` wants the sink's mutex; `Writing` holds it, with one part of the buffer gone out and the
  // other still to go.
  datatype Step = Ready | Waiting(final: bool) | Writing(gone: string, left: string, final: bool) | Finished

  // `emitted` is all its transform has ever pushed.
  datatype Worker = Worker(emitted: string, buffer: string, step: Step)

  // Stdout remembers who wrote each byte and `batches` what was sent as a whole.
  datatype State = State(workers: seq<Worker>, mutex: Option<nat>, out: seq<(nat, char)>, batches: seq<(nat, string)>)

  datatype Event =
    | Emit(worker: nat, piece: string)
    | Flush(worker: nat)
    | Lock(worker: nat)
    | WriteSome(worker: nat, count: nat)
    | Unlock(worker: nat)

  function Init(n: nat): State {
    State(seq(n, _ => Worker("", "", Ready)), None, [], [])
  }

  predicate Enabled(s: State, e: Event) {
    e.worker < |s.workers| &&
    var w := s.workers[e.worker];
    match e
    case Emit(_, _) => w.step.Ready?
    case Flush(_) => w.step.Ready?
    case Lock(_) => w.step.Waiting? && s.mutex.None?
    case WriteSome(_, count) => w.step.Writing? && 1 <= count <= |w.step.left|
    case Unlock(_) => w.step.Writing? && w.step.left == ""
  }

  function Tag(i: nat, data: string): (r: seq<(nat, char)>)
    ensures |r| == |data|
  {
    seq(|data|, k requires 0 <= k < |data| => (i, data[k]))
  }

  function Next(s: State, e: Event): Worker
    requires Enabled(s, e)
  {
    var w := s.workers[e.worker];
    match e
    case Emit(_, piece) =>
      var b := w.buffer + piece;
      Worker(w.emitted + piece, b, if |b| >= BUFFER_SIZE then Waiting(false) else Ready)
    case Flush(_) => w.(step := Waiting(true))
    case Lock(_) => w.(step := Writing("", w.buffer, w.step.final))
    case WriteSome(_, count) =>
      w.(step := Writing(w.step.gone + w.step.left[..count], w.step.left[count..], w.step.final))
    case Unlock(_) => if w.step.final then w.(step := Finished) else Worker(w.emitted, "", Ready)
  }

  function Apply(s: State, e: Event): State
    requires Enabled(s, e)
  {
    var i, w := e.worker, s.workers[e.worker];
    State(
      s.workers[i := Next(s, e)],
      if e.Lock? then Some(i) else if e.Unlock? then None else s.mutex,
      if e.WriteSome? then s.out + Tag(i, w.step.left[..e.count]) else s.out,
      if e.Unlock? then s.batches + [(i, w.buffer)] else s.batches)
  }

  // What worker `i` wrote, in order.
  function Written(out: seq<(nat, char)>, i: nat): string {
    if out == [] then ""
    else Written(out[..|out| - 1], i) + if out[|out| - 1].0 == i then [out[|out| - 1].1] else []
  }

  // The batches one after the other.
  function Merged(batches: seq<(nat, string)>): seq<(nat, char)> {
    if batches == [] then [] else
    var b := batches[|batches| - 1];
    Merged(batches[..|batches| - 1]) + Tag(b.0, b.1)
  }

  // What a worker has emitted and not written yet.
  function Held(w: Worker): string {
    match w.step
    case Ready => w.buffer
    case Waiting(_) => w.buffer
    case Writing(_, left, _) => left
    case Finished => ""
  }

  // What the worker holding the mutex has put out of its batch so far.
  function Partial(s: State): seq<(nat, char)> {
    if s.mutex.Some? && s.mutex.value < |s.workers| then
      var w := s.workers[s.mutex.value];
      if w.step.Writing? then Tag(s.mutex.value, w.step.gone) else []
    else []
  }

  predicate WorkerOk(s: State, i: nat)
    requires i < |s.workers|
  {
    var w := s.workers[i];
    (w.step.Writing? <==> s.mutex == Some(i)) &&
    (w.step.Writing? ==> w.buffer == w.step.gone + w.step.left) &&
    (w.step.Ready? ==> |w.buffer| < BUFFER_SIZE)
  }

  predicate Conserved(out: seq<(nat, char)>, w: Worker, i: nat) {
    Written(out, i) + Held(w) == w.emitted
  }

  ghost predicate Inv(s: State) {
    (s.mutex.Some? ==> s.mutex.value < |s.workers|) &&
    s.out == Merged(s.batches) + Partial(s) &&
    forall i :: 0 <= i < |s.workers| ==> WorkerOk(s, i) && Conserved(s.out, s.workers[i], i)
  }

  lemma {:induction false} WrittenAppend(out: seq<(nat, char)>, data: string, j: nat, i: nat)
    ensures Written(out + Tag(j, data), i) == Written(out, i) + if i == j then data else ""
    decreases |data|
  {
    if data == "" {
      assert out + Tag(j, data) == out;
    } else {
      var d := data[..|data| - 1];
      var all := out + Tag(j, data);
      assert all[..|all| - 1] == out + Tag(j, d);
      assert data == d + [data[|data| - 1]];
      WrittenAppend(out, d, j, i);
    }
  }

  lemma WrittenByOther(out: seq<(nat, char)>, data: string, j: nat, i: nat)
    requires i != j
    ensures Written(out + Tag(j, data), i) == Written(out, i)
  {
    WrittenAppend(out, data, j, i);
  }

  lemma WriteConserves(out: seq<(nat, char)>, i: nat, emitted: string, part: string, left: string)
    requires Written(out, i) + (part + left) == emitted
    ensures Written(out + Tag(i, part), i) + left == emitted
  {
    WrittenAppend(out, part, i, i);
    Assoc(Written(out, i), part, left);
  }

  lemma WriteSomeConserves(out: seq<(nat, char)>, w: Worker, i: nat, n: nat)
    requires Conserved(out, w, i) && w.step.Writing? && n <= |w.step.left|
    ensures Conserved(out + Tag(i, w.step.left[..n]),
                      w.(step := Writing(w.step.gone + w.step.left[..n], w.step.left[n..], w.step.final)), i)
  {
    assert w.step.left == w.step.left[..n] + w.step.left[n..];
    WriteConserves(out, i, w.emitted, w.step.left[..n], w.step.left[n..]);
  }

  lemma EmitConserves(out: seq<(nat, char)>, w: Worker, i: nat, piece: string, step: Step)
    requires Conserved(out, w, i) && w.step.Ready? && (step.Ready? || step.Waiting?)
    ensures Conserved(out, Worker(w.emitted + piece, w.buffer + piece, step), i)
  {
  }

  lemma SentConserves(out: seq<(nat, char)>, w: Worker, i: nat)
    requires Conserved(out, w, i) && w.step.Writing? && w.step.left == ""
    ensures Conserved(out, w.(step := Finished), i) && Conserved(out, Worker(w.emitted, "", Ready), i)
  {
  }

  lemma MoverConserves(s: State, e: Event)
    requires Inv(s) && Enabled(s, e)
    ensures Conserved(Apply(s, e).out, Next(s, e), e.worker)
  {
    var i, w := e.worker, s.workers[e.worker];
    assert Conserved(s.out, w, i);
    match e
    case Emit(_, piece) => EmitConserves(s.out, w, i, piece, Next(s, e).step);
    case WriteSome(_, n) => WriteSomeConserves(s.out, w, i, n);
    case Unlock(_) => SentConserves(s.out, w, i);
    case _ =>
  }

  lemma OtherConserves(s: State, e: Event, j: nat)
    requires Inv(s) && Enabled(s, e) && j < |s.workers| && j != e.worker
    ensures Conserved(Apply(s, e).out, s.workers[j], j)
  {
    assert Conserved(s.out, s.workers[j], j);
    if e.WriteSome? {
      var w := s.workers[e.worker];
      WrittenByOther(s.out, w.step.left[..e.count], e.worker, j);
    }
  }

  lemma LocksKept(s: State, e: Event, j: nat)
    requires Inv(s) && Enabled(s, e) && j < |s.workers|
    ensures WorkerOk(Apply(s, e), j)
  {
    assert WorkerOk(s, j) && WorkerOk(s, e.worker);
    var w := s.workers[e.worker];
    if e.WriteSome? {
      assert w.step.left == w.step.left[..e.count] + w.step.left[e.count..];
      Assoc(w.step.gone, w.step.left[..e.count], w.step.left[e.count..]);
    }
  }

  lemma TagAppend(i: nat, a: string, b: string)
    ensures Tag(i, a + b) == Tag(i, a) + Tag(i, b)
  {
  }

  lemma WritePartial(i: nat, merged: seq<(nat, char)>, gone: string, part: string)
    ensures (merged + Tag(i, gone)) + Tag(i, part) == merged + Tag(i, gone + part)
  {
    TagAppend(i, gone, part);
  }

  lemma MergedPush(batches: seq<(nat, string)>, i: nat, data: string)
    ensures Merged(batches + [(i, data)]) == Merged(batches) + Tag(i, data)
  {
    assert (batches + [(i, data)])[..|batches|] == batches;
  }

  lemma NoMore(out: seq<(nat, char)>)
    ensures out + [] == out
  {
  }

  lemma MergeKept(s: State, e: Event)
    requires Inv(s) && Enabled(s, e)
    ensures Apply(s, e).out == Merged(Apply(s, e).batches) + Partial(Apply(s, e))
  {
    var t, i, w := Apply(s, e), e.worker, s.workers[e.worker];
    assert WorkerOk(s, i);
    match e
    case WriteSome(_, n) => WritePartial(i, Merged(s.batches), w.step.gone, w.step.left[..n]);
    case Unlock(_) =>
      assert w.step.gone == w.buffer;
      MergedPush(s.batches, i, w.buffer);
      NoMore(Merged(t.batches));
    case Lock(_) => assert Tag(i, "") == [];
    case _ => assert Partial(t) == Partial(s);
  }

  lemma StepInv(s: State, e: Event)
    requires Inv(s) && Enabled(s, e)
    ensures Inv(Apply(s, e))
  {
    var t := Apply(s, e);
    MergeKept(s, e);
    forall j | 0 <= j < |t.workers| ensures WorkerOk(t, j) && Conserved(t.out, t.workers[j], j) {
      LocksKept(s, e, j);
      if j == e.worker { MoverConserves(s, e); } else { OtherConserves(s, e, j); }
    }
  }

  predicate Possible(s: State, events: seq<Event>)
    decreases events
  {
    events == [] || (Enabled(s, events[0]) && Possible(Apply(s, events[0]), events[1..]))
  }

  function Run(s: State, events: seq<Event>): State
    requires Possible(s, events)
    decreases events
  {
    if events == [] then s else Run(Apply(s, events[0]), events[1..])
  }

  lemma {:induction false} RunInv(s: State, events: seq<Event>)
    requires Inv(s) && Possible(s, events)
    ensures Inv(Run(s, events))
    decreases events
  {
    if events != [] {
      StepInv(s, events[0]);
      RunInv(Apply(s, events[0]), events[1..]);
    }
  }

  /** At every point of every interleaving, stdout is the completed batches one after the other plus a
      prefix of the batch being written, and what a worker has emitted is what it has written followed
      by what it holds back. */
  lemma StdoutIsMergedBatches(n: nat, events: seq<Event>, i: nat)
    requires Possible(Init(n), events)
    ensures var s := Run(Init(n), events);
            s.out == Merged(s.batches) + Partial(s) && (s.mutex.None? ==> s.out == Merged(s.batches)) &&
            (i < |s.workers| ==> s.workers[i].emitted == Written(s.out, i) + Held(s.workers[i])) &&
            (i < |s.workers| && s.workers[i].step.Ready? ==> |s.workers[i].buffer| < BUFFER_SIZE)
  {
    RunInv(Init(n), events);
    var s := Run(Init(n), events);
    if i < |s.workers| { assert WorkerOk(s, i) && Conserved(s.out, s.workers[i], i); }
    if s.mutex.None? { assert Merged(s.batches) + [] == Merged(s.batches); }
  }

  /** After its flush a worker's output is exactly what its transform emitted. */
  lemma FlushedWorkerIsComplete(n: nat, events: seq<Event>, i: nat)
    requires Possible(Init(n), events)
    requires i < |Run(Init(n), events).workers| && Run(Init(n), events).workers[i].step.Finished?
    ensures Written(Run(Init(n), events).out, i) == Run(Init(n), events).workers[i].emitted
  {
    StdoutIsMergedBatches(n, events, i);
    var s := Run(Init(n), events);
    assert Written(s.out, i) + "" == Written(s.out, i);
  }

  // --- batches are whole buffers ---

  // A worker about to write, not for the last time, has a full buffer.
  predicate Fills(w: Worker) {
    (w.step.Waiting? && !w.step.final) || (w.step.Writing? && !w.step.final) ==> |w.buffer| >= BUFFER_SIZE
  }

  predicate FinalBatch(s: State, k: nat)
    requires k < |s.batches|
  {
    var i := s.batches[k].0;
    i < |s.workers| && s.workers[i].step.Finished? && forall j :: k < j < |s.batches| ==> s.batches[j].0 != i
  }

  ghost predicate Batched(s: State) {
    (forall i :: 0 <= i < |s.workers| ==> Fills(s.workers[i])) &&
    (forall k :: 0 <= k < |s.batches| ==> |s.batches[k].1| >= BUFFER_SIZE || FinalBatch(s, k))
  }

  lemma FinalBatchKept(s: State, e: Event, k: nat)
    requires Enabled(s, e) && k < |s.batches| && FinalBatch(s, k)
    ensures k < |Apply(s, e).batches| && FinalBatch(Apply(s, e), k)
  {
    var t := Apply(s, e);
    assert s.batches[k].0 != e.worker;
    forall j | k < j < |t.batches| ensures t.batches[j].0 != s.batches[k].0 { }
  }

  lemma BatchedKept(s: State, e: Event)
    requires Batched(s) && Enabled(s, e)
    ensures Batched(Apply(s, e))
  {
    var t := Apply(s, e);
    assert Fills(s.workers[e.worker]);
    forall i | 0 <= i < |t.workers| ensures Fills(t.workers[i]) { assert Fills(s.workers[i]); }
    forall k | 0 <= k < |t.batches| ensures |t.batches[k].1| >= BUFFER_SIZE || FinalBatch(t, k) {
      if k < |s.batches| && FinalBatch(s, k) { FinalBatchKept(s, e, k); }
    }
  }

  lemma {:induction false} RunBatched(s: State, events: seq<Event>)
    requires Batched(s) && Possible(s, events)
    ensures Batched(Run(s, events))
    decreases events
  {
    if events != [] {
      BatchedKept(s, events[0]);
      RunBatched(Apply(s, events[0]), events[1..]);
    }
  }

  /** In every interleaving each batch that went out holds at least 64 KiB, except the last one of a worker that
      has finished. */
  lemma BatchesAreFull(n: nat, events: seq<Event>, k: nat)
    requires Possible(Init(n), events) && k < |Run(Init(n), events).batches|
    ensures var s := Run(Init(n), events); |s.batches[k].1| >= 65536 || FinalBatch(s, k)
  {
    RunBatched(Init(n), events);
  }
}
