/** The source stage that reads a file in chunks and hands each to the next stage as it comes. */
module ReadFile {
  import opened Wrappers
  import opened Sequences
  import opened Lines
  import opened Output
  import opened FilterTheorems

  const READ_SIZE: nat := 10485760

  lemma {:induction false} ConcatPush(chunks: seq<string>, c: string)
    ensures Concat(chunks + [c]) == Concat(chunks) + c
  {
    if chunks == [] {
      assert chunks + [c] == [c] && [c][1..] == [];
      assert c + [] == c;
    } else {
      ConcatPush(chunks[1..], c);
      assert (chunks + [c])[1..] == chunks[1..] + [c];
      assert chunks[0] + (Concat(chunks[1..]) + c) == (chunks[0] + Concat(chunks[1..])) + c;
    }
  }

  // What the next stage reported for the chunks before index `n`, added up.
  function Total(gives: nat -> Result<nat>, n: nat): nat {
    if n == 0 then 0 else Total(gives, n - 1) + if gives(n - 1).Ok? then gives(n - 1).value else 0
  }

  predicate ProperChunks(chunks: seq<string>) {
    forall k :: 0 <= k < |chunks| ==> chunks[k] != [] && |chunks[k]| <= READ_SIZE
  }

  // `ReadFileNode`: `raw` is how the reads turn out, `gives` what the next stage answers for each chunk.
  method ReadChunks(file: string, raw: nat -> int, gives: nat -> Result<nat>) returns (chunks: seq<string>, r: Result<nat>)
    ensures ProperChunks(chunks)
    ensures r.Ok? ==> Concat(chunks) == file && r.value == Total(gives, |chunks|)
    ensures r.Err? ==> |Concat(chunks)| <= |file| && Concat(chunks) == file[..|Concat(chunks)|]
    ensures r.Ok? <==> Concat(chunks) == file && raw(|chunks|) >= 0 && forall k :: 0 <= k < |chunks| ==> gives(k).Ok?
  {
    var amount, output := 0, 0;
    chunks := [];
    while true
      invariant amount <= |file| && Concat(chunks) == file[..amount] && output == Total(gives, |chunks|)
      invariant ProperChunks(chunks) && forall k :: 0 <= k < |chunks| ==> gives(k).Ok?
      decreases |file| - amount
    {
      var n := Transferred(|file| - amount, READ_SIZE, raw(|chunks|));
      if n == -1 {
        return chunks, Err;
      } else if n == 0 {
        assert file[..amount] == file;
        return chunks, Ok(output);
      }
      var chunk := file[amount..amount + n];
      ConcatPush(chunks, chunk);
      assert file[..amount] + chunk == file[..amount + n];
      var processed := gives(|chunks|);
      chunks := chunks + [chunk];
      if processed.Err? {
        return chunks, Err;
      }
      amount, output := amount + n, output + processed.value;
    }
  }

  // What the line filter answers for each chunk.
  function Reports(chunks: seq<string>, picks: string -> bool): nat -> Result<nat> {
    (k: nat) => if k < |chunks| then Ok(|FilterLines(chunks[k], picks)|) else Err
  }

  lemma {:induction false} FilterChunksPush(chunks: seq<string>, c: string, picks: string -> bool)
    ensures FilterChunks(chunks + [c], picks) == FilterChunks(chunks, picks) + FilterLines(c, picks)
  {
    if chunks == [] {
      assert chunks + [c] == [c] && [c][1..] == [];
    } else {
      FilterChunksPush(chunks[1..], c, picks);
      assert (chunks + [c])[1..] == chunks[1..] + [c];
      Assoc(FilterLines(chunks[0], picks), FilterChunks(chunks[1..], picks), FilterLines(c, picks));
    }
  }

  lemma {:induction false} TotalIsFound(chunks: seq<string>, picks: string -> bool, n: nat)
    requires n <= |chunks|
    ensures Total(Reports(chunks, picks), n) == |FilterChunks(chunks[..n], picks)|
  {
    if n > 0 {
      TotalIsFound(chunks, picks, n - 1);
      FilterChunksPush(chunks[..n - 1], chunks[n - 1], picks);
      assert chunks[..n] == chunks[..n - 1] + [chunks[n - 1]];
    }
  }

  // The count `ReadFile` returns for a file it has read in these chunks.
  function Returned(chunks: seq<string>, picks: string -> bool): nat {
    Total(Reports(chunks, picks), |chunks|)
  }

  lemma CountOf(chunks: seq<string>, picks: string -> bool)
    requires ProperChunks(chunks)
    ensures Returned(chunks, picks) == |FilterChunks(chunks, picks)|
    ensures SplitLines(chunks) == 0 ==> Returned(chunks, picks) == |FilterLines(Concat(chunks), picks)|
    ensures picks == ALL ==> Returned(chunks, picks) == |FilterLines(Concat(chunks), picks)| + SplitLines(chunks)
  {
    TotalIsFound(chunks, picks, |chunks|);
    assert chunks[..|chunks|] == chunks;
    ChunksAgree(chunks, picks);
  }

  /** The count returned for a file is the number of its matching lines, for every predicate, if and only if no
      chunk boundary splits a line; when every non-empty line matches, it is too high by the number of lines
      split. */
  lemma CountIsRightExactlyWithoutSplits(file: string, chunks: seq<string>)
    requires ProperChunks(chunks) && Concat(chunks) == file
    ensures SplitLines(chunks) == 0 <==> forall picks: string -> bool :: Returned(chunks, picks) == |FilterLines(file, picks)|
    ensures Returned(chunks, ALL) == |FilterLines(file, ALL)| + SplitLines(chunks)
  {
    CountOf(chunks, ALL);
    if SplitLines(chunks) == 0 {
      forall picks: string -> bool ensures Returned(chunks, picks) == |FilterLines(file, picks)| { CountOf(chunks, picks); }
    } else {
      assert Returned(chunks, ALL) != |FilterLines(file, ALL)|;
    }
  }

  // A file of one line, read byte by byte: counted twice.
  lemma SplitLineIsCountedTwice()
    ensures Returned(["a", "b"], ALL) == 2 && |FilterLines("ab", ALL)| == 1
  {
    CountOf(["a", "b"], ALL);
    assert ["a", "b"][1..] == ["b"] && ["b"][1..] == [];
    assert "a" + ("b" + "") == "ab";
    NextNewlineIs("ab", 0, 2);
    assert "ab"[..2] == "ab";
  }
}
