/** The ways `cat` moves a file to stdout: `copy_file_range`, a direct splice into a pipe, a splice
    through a pipe of its own, and read and write. All must amount to "output the file". */
module Cat {
  import opened Wrappers
  import opened Output
  import ReadFile

  datatype FileType = Regular | Fifo | CharDevice | Other

  datatype Strategy = CopyRange | DirectPipe | Middleman | Coloured | Plain

  function Choose(input: FileType, output: FileType, colour: bool, terminal: bool): (r: Strategy)
    ensures r.CopyRange? <==> input.Regular? && output.Regular?
    ensures r.DirectPipe? <==> output.Fifo?
    ensures r.Middleman? <==> output.CharDevice? || (output.Regular? && !input.Regular?)
    ensures r.Coloured? <==> output.Other? && (colour || terminal)
  {
    if input.Regular? && output.Regular? then CopyRange
    else if output.Fifo? then DirectPipe
    else if output.CharDevice? || output.Regular? then Middleman
    else if colour || terminal then Coloured
    else Plain
  }

  /** Terminals are character devices. So the test for a terminal changes nothing, and a terminal's output is
      spliced and never coloured, whatever was asked for. */
  lemma TerminalsGetNoColour(input: FileType, output: FileType, colour: bool, terminal: bool)
    requires terminal ==> output.CharDevice?
    ensures Choose(input, output, colour, terminal) == Choose(input, output, colour, false)
    ensures terminal ==> Choose(input, output, colour, terminal).Middleman?
  {
  }

  // A copy ends, fails, or blocks for good.
  datatype Ending = Done(value: nat) | Failed | Blocked

  function Min(a: nat, b: nat): nat { if a < b then a else b }

  const PIPE_SIZE: nat := 1048576
  const RANGE_SIZE: nat := 1073741824

  lemma Extend(before: string, file: string, a: nat, n: nat)
    requires a + n <= |file|
    ensures (before + file[..a]) + file[a..a + n] == before + file[..a + n]
  {
    assert file[..a] + file[a..a + n] == file[..a + n];
  }

  // The loop of `DirectSplice` and `CopyFileRange`: the descriptor's own offset advances.
  method CopyChunks(out: Stdout, file: string, size: nat, most: nat, raw: nat -> int) returns (r: Ending)
    requires most > 0
    modifies out
    ensures !r.Blocked?
    ensures r.Done? ==> r.value == Min(size, |file|) && out.written == old(out.written) + file[..r.value]
    ensures r.Failed? ==> PartlyAdded(old(out.written), out.written, file, Min(size, |file|))
    ensures NoErrors(raw) ==> r.Done?
  {
    var offset, call := 0, 0;
    while offset != size
      invariant offset <= Min(size, |file|) && out.written == old(out.written) + file[..offset]
      decreases size - offset
    {
      var n := Transferred(|file| - offset, Min(most, size - offset), raw(call));
      if n == -1 {
        assert AddedUpTo(old(out.written), out.written, file, offset);
        return Failed;
      } else if n == 0 {
        break;
      }
      Extend(old(out.written), file, offset, n);
      out.written := out.written + file[offset..offset + n];
      offset, call := offset + n, call + 1;
    }
    r := Done(offset);
  }

  // --- through a pipe of our own ---

  // Every fill of the pipe, from `offset` on, delivers the whole chunk it was asked for.
  predicate WholeFills(file: string, size: nat, pipeSize: nat, fill: nat -> int, offset: nat, i: nat)
    requires offset <= size && offset <= |file| && pipeSize > 0
    decreases size - offset
  {
    offset == size ||
    var n := Transferred(|file| - offset, Min(pipeSize, size - offset), fill(i));
    n <= 0 || (n == Min(pipeSize, size - offset) && WholeFills(file, size, pipeSize, fill, offset + n, i + 1))
  }

  lemma FillIsWhole(file: string, size: nat, pipeSize: nat, fill: nat -> int, offset: nat, i: nat, sent: int)
    requires offset < size && offset <= |file| && pipeSize > 0
    requires sent == Transferred(|file| - offset, Min(pipeSize, size - offset), fill(i))
    ensures sent <= 0 ==> WholeFills(file, size, pipeSize, fill, offset, i)
    ensures 0 < sent < Min(pipeSize, size - offset) ==> !WholeFills(file, size, pipeSize, fill, offset, i)
    ensures 0 < sent == Min(pipeSize, size - offset) ==>
              WholeFills(file, size, pipeSize, fill, offset, i) == WholeFills(file, size, pipeSize, fill, offset + sent, i + 1)
  {
  }

  // Two bytes, of which the first fill delivers one: no error, and no end.
  lemma ShortFillBlocks(fill: nat -> int)
    requires fill(0) == 1 && NoErrors(fill)
    ensures !WholeFills("ab", 2, PIPE_SIZE, fill, 0, 0)
  {
    FillIsWhole("ab", 2, PIPE_SIZE, fill, 0, 0, 1);
  }

  // The sink asks for `want` bytes however many there are in the pipe, whose write end stays open: once
  // the pipe is empty, asking for more blocks.
  method Drain(out: Stdout, pipe: string, want: nat, raw: nat -> int, first: nat)
    returns (left: string, next: nat, r: Ending)
    requires |pipe| <= want
    modifies out
    ensures r.Done? ==> |pipe| == want == r.value && left == "" && out.written == old(out.written) + pipe
    ensures r.Blocked? ==> |pipe| < want && left == "" && out.written == old(out.written) + pipe
    ensures r.Failed? ==> PartlyAdded(old(out.written), out.written, pipe, |pipe|)
    ensures out.written + left == old(out.written) + pipe
    ensures NoErrors(raw) ==> !r.Failed?
  {
    var amount := 0;
    next := first;
    left := pipe;
    while amount < want
      invariant amount <= |pipe| && left == pipe[amount..] && out.written == old(out.written) + pipe[..amount]
    {
      Extend(old(out.written), pipe, amount, |left|);
      if left == "" {
        assert pipe[..amount] == pipe;
        return left, next, Blocked;
      }
      var n := Transferred(|left|, want, raw(next));
      if n == -1 {
        assert AddedUpTo(old(out.written), out.written, pipe, amount);
        return left, next, Failed;
      }
      Extend(old(out.written), pipe, amount, n);
      out.written := out.written + pipe[amount..amount + n];
      amount, next := amount + n, next + 1;
      left := pipe[amount..];
    }
    assert pipe[..amount] == pipe;
    r := Done(amount);
  }

  // One round: `sent` bytes are put into the empty pipe and the sink is asked for the whole chunk.
  method FillAndDrain(out: Stdout, file: string, offset: nat, sent: nat, chunk: nat, drain: nat -> int, first: nat, ghost start: string)
    returns (next: nat, r: Ending)
    requires offset + sent <= |file| && sent <= chunk && out.written == start + file[..offset]
    modifies out
    ensures r.Done? ==> sent == chunk == r.value && out.written == start + file[..offset + sent]
    ensures r.Blocked? ==> sent < chunk
    ensures !r.Done? ==> PartlyAdded(start, out.written, file, offset + sent)
    ensures NoErrors(drain) ==> !r.Failed?
  {
    var pipe := file[offset..offset + sent];
    pipe, next, r := Drain(out, pipe, chunk, drain, first);
    Extend(start, file, offset, sent);
    if r.Failed? {
      PartOfChunk(start, old(out.written), out.written, file, offset, sent);
    } else {
      assert AddedUpTo(start, out.written, file, offset + sent);
    }
  }

  lemma PartIsPart(start: string, after: string, file: string, a: nat, b: nat)
    requires a <= b && PartlyAdded(start, after, file, a)
    ensures PartlyAdded(start, after, file, b)
  {
    var k: nat :| k <= a && AddedUpTo(start, after, file, k);
    assert k <= b && AddedUpTo(start, after, file, k);
  }

  /** The splice pair. Without errors it ends exactly when every fill of the pipe is whole, and then it
      has delivered the file; after a short fill the sink waits for bytes that nobody will send. */
  method SplicePair(out: Stdout, file: string, size: nat, pipeSize: nat, fill: nat -> int, drain: nat -> int)
    returns (r: Ending)
    requires pipeSize > 0
    modifies out
    ensures r.Done? ==> r.value == Min(size, |file|) && out.written == old(out.written) + file[..r.value]
    ensures !r.Done? ==> PartlyAdded(old(out.written), out.written, file, Min(size, |file|))
    ensures r.Done? ==> WholeFills(file, size, pipeSize, fill, 0, 0)
    ensures r.Blocked? ==> !WholeFills(file, size, pipeSize, fill, 0, 0)
    ensures NoErrors(fill) && NoErrors(drain) ==> !r.Failed?
  {
    var offset, bytesOutput, i, j := 0, 0, 0, 0;
    while offset != size
      invariant offset == bytesOutput <= Min(size, |file|)
      invariant out.written == old(out.written) + file[..offset]
      invariant WholeFills(file, size, pipeSize, fill, 0, 0) == WholeFills(file, size, pipeSize, fill, offset, i)
      decreases size - offset
    {
      var chunk := Min(pipeSize, size - offset);
      var sent := Transferred(|file| - offset, chunk, fill(i));
      FillIsWhole(file, size, pipeSize, fill, offset, i, sent);
      if sent == -1 {
        assert AddedUpTo(old(out.written), out.written, file, offset);
        return Failed;
      } else if sent == 0 {
        break;
      }
      j, r := FillAndDrain(out, file, offset, sent, chunk, drain, j, old(out.written));
      if !r.Done? {
        PartIsPart(old(out.written), out.written, file, offset + sent, Min(size, |file|));
        return;
      }
      offset, bytesOutput, i := offset + sent, bytesOutput + r.value, i + 1;
    }
    r := Done(bytesOutput);
  }

  lemma PartOfChunk(start: string, before: string, after: string, file: string, offset: nat, sent: nat)
    requires offset + sent <= |file| && before == start + file[..offset]
    requires PartlyAdded(before, after, file[offset..offset + sent], sent)
    ensures PartlyAdded(start, after, file, offset + sent)
  {
    var k: nat :| k <= sent && AddedUpTo(before, after, file[offset..offset + sent], k);
    assert file[offset..offset + sent][..k] == file[offset..offset + k];
    Extend(start, file, offset, k);
    assert AddedUpTo(start, after, file, offset + k);
  }

  // --- read and write ---

  // `ReadFile` into `Write`, without a transform between them.
  method ReadAndWrite(out: Stdout, file: string, fill: nat -> int, writes: nat -> (nat -> int)) returns (r: Ending)
    modifies out
    ensures !r.Blocked?
    ensures r.Done? ==> r.value == |file| && out.written == old(out.written) + file
    ensures r.Failed? ==> PartlyAdded(old(out.written), out.written, file, |file|)
    ensures NoErrors(fill) && (forall i: nat :: NoErrors(writes(i))) ==> r.Done?
  {
    var amount, bytesOutput, call := 0, 0, 0;
    while true
      invariant amount == bytesOutput <= |file| && out.written == old(out.written) + file[..amount]
      decreases |file| - amount
    {
      var n := Transferred(|file| - amount, ReadFile.READ_SIZE, fill(call));
      if n == -1 {
        assert AddedUpTo(old(out.written), out.written, file, amount);
        return Failed;
      } else if n == 0 {
        assert file[..amount] == file;
        return Done(bytesOutput);
      }
      ghost var before := out.written;
      var w := Write(out, file[amount..amount + n], false, writes(call));
      if w.Err? {
        PartOfChunk(old(out.written), before, out.written, file, amount, n);
        return Failed;
      }
      Extend(old(out.written), file, amount, n);
      amount, bytesOutput, call := amount + n, bytesOutput + w.value, call + 1;
    }
  }

  /** Whatever the strategy, a run that comes to an end without error has put out the file. The coloured
      strategy is not among them. */
  method Deliver(strategy: Strategy, out: Stdout, file: string, fill: nat -> int, drain: nat -> int, writes: nat -> (nat -> int))
    returns (r: Ending)
    requires !strategy.Coloured?
    modifies out
    ensures r.Done? ==> r.value == |file| && out.written == old(out.written) + file
    ensures !r.Done? ==> PartlyAdded(old(out.written), out.written, file, |file|)
    ensures r.Blocked? ==> strategy.Middleman? && !WholeFills(file, |file|, PIPE_SIZE, fill, 0, 0)
    ensures NoErrors(fill) && NoErrors(drain) && (forall i: nat :: NoErrors(writes(i))) ==> !r.Failed?
  {
    match strategy
    case CopyRange => r := CopyChunks(out, file, |file|, RANGE_SIZE, fill);
    case DirectPipe => r := CopyChunks(out, file, |file|, PIPE_SIZE, fill);
    case Middleman => r := SplicePair(out, file, |file|, PIPE_SIZE, fill, drain);
    case Plain => r := ReadAndWrite(out, file, fill, writes);
    assert file[..|file|] == file;
  }
}
