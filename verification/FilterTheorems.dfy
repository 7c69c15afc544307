/** The three filters agree where they promise the same, and filtering chunk by chunk is filtering the
    file exactly when every chunk boundary touches a newline. */
module FilterTheorems {
  import opened Sequences
  import opened Wrappers
  import opened Lines
  import opened Filters

  // --- match ends against line by line ---

  // Some match end from index `i` on lies in this line, its end included.
  ghost predicate Hit(ends: seq<nat>, i: nat, start: nat, len: nat) {
    exists k :: i <= k < |ends| && start <= ends[k] <= start + len
  }

  ghost function Hits(ends: seq<nat>, i: nat): (nat, nat) -> bool {
    (start: nat, len: nat) => Hit(ends, i, start, len)
  }

  // Repeats of the same line collapsed, empty lines dropped.
  function Distinct(ls: List<Span>): List<Span> {
    match ls
    case Nil => Nil
    case Cons(l, rest) =>
      if rest.Cons? && rest.head == l then Distinct(rest)
      else if l.len > 0 then Cons(l, Distinct(rest))
      else Distinct(rest)
  }

  predicate NonDecreasing(text: string, ends: seq<nat>) {
    InText(text, ends) && forall j, k :: 0 <= j < k < |ends| ==> ends[j] <= ends[k]
  }

  lemma {:induction false} SamePicks(text: string, from: nat, p: (nat, nat) -> bool, q: (nat, nat) -> bool)
    requires from <= |text| && forall s: nat, l: nat :: s >= from ==> p(s, l) == q(s, l)
    ensures KeptFrom(text, from, p) == KeptFrom(text, from, q)
    decreases |text| - from
  {
    var n := NextNewline(text, from);
    if n < |text| { SamePicks(text, n + 1, p, q); }
  }

  // An end before `from` hits no line from `from` on.
  lemma KeptByLaterEnds(text: string, from: nat, ends: seq<nat>, i: nat)
    requires from <= |text| && i < |ends| && ends[i] < from
    ensures KeptFrom(text, from, Hits(ends, i)) == KeptFrom(text, from, Hits(ends, i + 1))
  {
    forall s: nat, l: nat | s >= from ensures Hits(ends, i)(s, l) == Hits(ends, i + 1)(s, l) { }
    SamePicks(text, from, Hits(ends, i), Hits(ends, i + 1));
  }

  // Of two ends in the first line one is enough.
  lemma KeptByFewerEnds(text: string, from: nat, n: nat, ends: seq<nat>, i: nat)
    requires from <= |text| && n == NextNewline(text, from) && i + 1 < |ends|
    requires from <= ends[i] <= ends[i + 1] <= n
    ensures KeptFrom(text, from, Hits(ends, i)) == KeptFrom(text, from, Hits(ends, i + 1))
  {
    assert Hit(ends, i, from, n - from) && Hit(ends, i + 1, from, n - from);
    if n < |text| { KeptByLaterEnds(text, n + 1, ends, i); }
  }

  // No end in the first line: it is not kept.
  lemma FirstLineMissed(text: string, from: nat, n: nat, ends: seq<nat>, i: nat)
    requires from <= |text| && n == NextNewline(text, from) && NonDecreasing(text, ends)
    requires i <= |ends| && (i == |ends| || ends[i] > n)
    ensures KeptFrom(text, from, Hits(ends, i)) == if n == |text| then Nil else KeptFrom(text, n + 1, Hits(ends, i))
  {
    assert !Hit(ends, i, from, n - from);
  }

  // One end in the first line: the line is kept unless empty, and the end has served.
  lemma FirstLineHit(text: string, from: nat, n: nat, ends: seq<nat>, i: nat)
    requires from <= |text| && n == NextNewline(text, from) && i < |ends| && from <= ends[i] <= n
    ensures var rest := if n == |text| then Nil else KeptFrom(text, n + 1, Hits(ends, i + 1));
            KeptFrom(text, from, Hits(ends, i)) == if from < n then Cons(Span(from, n - from), rest) else rest
  {
    assert Hit(ends, i, from, n - from);
    if n < |text| { KeptByLaterEnds(text, n + 1, ends, i); }
  }

  // An end past the first line is in another line.
  lemma LaterLine(text: string, from: nat, n: nat, at: nat)
    requires from <= |text| && n == NextNewline(text, from) && n < at <= |text|
    ensures LineAt(text, at).start > n
  {
    NextNewlineFacts(text, from);
    LineStartFacts(text, 0, at);
    assert LineStart(text, 0, at) > n;
  }

  ghost predicate Agree(text: string, from: nat, ends: seq<nat>, i: nat)
    requires from <= |text| && i <= |ends| && InText(text, ends)
  {
    Distinct(LinesAt(text, ends, i)) == KeptFrom(text, from, Hits(ends, i))
  }

  lemma AgreeRepeat(text: string, from: nat, n: nat, ends: seq<nat>, i: nat)
    requires from <= |text| && (from > 0 ==> text[from - 1] == '\n') && n == NextNewline(text, from) && InText(text, ends)
    requires i + 1 < |ends| && from <= ends[i] <= ends[i + 1] <= n && Agree(text, from, ends, i + 1)
    ensures Agree(text, from, ends, i)
  {
    FirstLine(text, from, n, ends[i]);
    FirstLine(text, from, n, ends[i + 1]);
    KeptByFewerEnds(text, from, n, ends, i);
  }

  lemma AgreeLast(text: string, from: nat, n: nat, ends: seq<nat>, i: nat)
    requires from <= |text| && (from > 0 ==> text[from - 1] == '\n') && n == NextNewline(text, from) && InText(text, ends)
    requires i < |ends| && from <= ends[i] <= n && (i + 1 < |ends| ==> ends[i + 1] > n)
    requires n < |text| ==> Agree(text, n + 1, ends, i + 1)
    ensures Agree(text, from, ends, i)
  {
    FirstLine(text, from, n, ends[i]);
    FirstLineHit(text, from, n, ends, i);
    if i + 1 < |ends| { LaterLine(text, from, n, ends[i + 1]); }
  }

  /** For any text and any non-decreasing match ends, the lines VectorScan sends, with repeats of a line
      collapsed and empty lines dropped, are those the line-by-line filter keeps for "some match end
      lies in this line". */
  lemma {:induction false} EndsAgreeWithLines(text: string, from: nat, ends: seq<nat>, i: nat)
    requires from <= |text| && (from > 0 ==> text[from - 1] == '\n') && NonDecreasing(text, ends)
    requires i <= |ends| && (i < |ends| ==> from <= ends[i])
    ensures Distinct(LinesAt(text, ends, i)) == KeptFrom(text, from, Hits(ends, i))
    decreases |text| - from, |ends| - i
  {
    var n := NextNewline(text, from);
    NextNewlineFacts(text, from);
    if i == |ends| || ends[i] > n {
      FirstLineMissed(text, from, n, ends, i);
      if n < |text| { EndsAgreeWithLines(text, n + 1, ends, i); }
    } else if i + 1 < |ends| && ends[i + 1] <= n {
      EndsAgreeWithLines(text, from, ends, i + 1);
      AgreeRepeat(text, from, n, ends, i);
    } else {
      if n < |text| { EndsAgreeWithLines(text, n + 1, ends, i + 1); }
      AgreeLast(text, from, n, ends, i);
    }
  }

  /** Every line VectorScan sends is a complete line of the text. */
  lemma EndsSendCompleteLines(text: string, at: nat)
    requires at <= |text|
    ensures exists k: nat :: k < Length(LinesFrom(text, 0)) && Nth(LinesFrom(text, 0), k) == LineAt(text, at)
    ensures Within(text, LineAt(text, at)) && NewlineFree(Slice(text, LineAt(text, at)))
  {
    LineAtIsLine(text, 0, at);
    LinesAreNewlineFree(text, 0, Count(text[0..at], '\n'));
  }

  // --- search and skip against line by line ---

  // A regex engine whose matches stay inside a line, and a search that returns a leftmost one.
  ghost predicate Leftmost(text: string, isMatch: Span -> bool, search: Search) {
    (forall m: Span :: isMatch(m) ==> Within(text, m) && NoNewline(text, m.start, m.start + m.len)) &&
    (forall from: nat :: from <= |text| ==> LeftmostFrom(isMatch, from, search(from)))
  }

  ghost predicate LeftmostFrom(isMatch: Span -> bool, from: nat, found: Option<Span>) {
    match found
    case None => forall m: Span :: isMatch(m) ==> m.start < from
    case Some(best) =>
      isMatch(best) && from <= best.start && forall m: Span :: isMatch(m) && from <= m.start ==> best.start <= m.start
  }

  ghost predicate MatchIn(isMatch: Span -> bool, start: nat, len: nat) {
    exists m: Span :: isMatch(m) && start <= m.start && m.start + m.len <= start + len
  }

  ghost function Matching(isMatch: Span -> bool): (nat, nat) -> bool {
    (start: nat, len: nat) => MatchIn(isMatch, start, len)
  }

  // All lines a predicate picks, empty ones included.
  function PickedFrom(text: string, from: nat, picks: (nat, nat) -> bool): List<Span>
    requires from <= |text|
    decreases |text| - from
  {
    var n := NextNewline(text, from);
    var rest := if n == |text| then Nil else PickedFrom(text, n + 1, picks);
    if picks(from, n - from) then Cons(Span(from, n - from), rest) else rest
  }

  lemma {:induction false} StopIsLineEnd(text: string, a: nat, b: nat)
    requires a <= b <= |text| && NoNewline(text, a, b)
    ensures NextNewline(text, a) == NextNewline(text, b)
    decreases b - a
  {
    if a < b { StopIsLineEnd(text, a + 1, b); }
  }

  lemma {:induction false} StartPastNewline(text: string, from: nat, n: nat, at: nat)
    requires from <= n < at <= |text| && text[n] == '\n'
    ensures LineStart(text, from, at) == LineStart(text, n + 1, at)
    decreases at
  {
    if at > n + 1 && text[at - 1] != '\n' { StartPastNewline(text, from, n, at - 1); }
  }

  // A match that begins in the first line ends in it.
  lemma MatchInFirstLine(text: string, from: nat, n: nat, m: Span)
    requires from <= |text| && n == NextNewline(text, from) && from <= m.start <= n
    requires Within(text, m) && NoNewline(text, m.start, m.start + m.len)
    ensures m.start + m.len <= n && LineStart(text, from, m.start) == from && NextNewline(text, m.start + m.len) == n
  {
    NextNewlineFacts(text, from);
    StopIsLineEnd(text, m.start, m.start + m.len);
    StopIsLineEnd(text, from, m.start);
    LineStartFacts(text, from, m.start);
  }

  // Two leftmost matches from different offsets, nothing between: they begin at the same place.
  lemma SameLeftmost(isMatch: Span -> bool, from: nat, to: nat, a: Option<Span>, b: Option<Span>)
    requires from <= to && LeftmostFrom(isMatch, from, a) && LeftmostFrom(isMatch, to, b)
    requires a.Some? ==> a.value.start >= to
    ensures a.Some? <==> b.Some?
    ensures a.Some? ==> a.value.start == b.value.start
  {
  }

  // What the loop visits is settled by the bounds of the first line.
  lemma FoundAs(text: string, from: nat, search: Search, start: nat, stop: nat)
    requires from <= |text| && SearchInBounds(text, search) && search(from).Some?
    requires start == LineStart(text, from, search(from).value.start)
    requires stop == NextNewline(text, search(from).value.start + search(from).value.len)
    ensures FoundFrom(text, from, search) ==
            Cons(Span(start, stop - start), if stop == |text| then Nil else FoundFrom(text, stop + 1, search))
  {
  }

  // Two matches from the same position, inside a line, lie in lines that end at the same place.
  lemma SameStop(text: string, m: Span, k: Span)
    requires m.start == k.start && Within(text, m) && Within(text, k)
    requires NoNewline(text, m.start, m.start + m.len) && NoNewline(text, k.start, k.start + k.len)
    ensures NextNewline(text, m.start + m.len) == NextNewline(text, k.start + k.len)
  {
    StopIsLineEnd(text, m.start, m.start + m.len);
    StopIsLineEnd(text, k.start, k.start + k.len);
  }

  // Searching on from the second line finds the same when the first has no match.
  lemma FoundLater(text: string, from: nat, n: nat, isMatch: Span -> bool, search: Search)
    requires from <= |text| && n == NextNewline(text, from) && n < |text|
    requires SearchInBounds(text, search) && Leftmost(text, isMatch, search)
    requires search(from).Some? ==> search(from).value.start > n
    ensures FoundFrom(text, from, search) == FoundFrom(text, n + 1, search)
  {
    NextNewlineFacts(text, from);
    SameLeftmost(isMatch, from, n + 1, search(from), search(n + 1));
    if search(from).Some? {
      var m, k := search(from).value, search(n + 1).value;
      SameStop(text, m, k);
      StartPastNewline(text, from, n, m.start);
      var start, stop := LineStart(text, from, m.start), NextNewline(text, m.start + m.len);
      FoundAs(text, from, search, start, stop);
      FoundAs(text, n + 1, search, start, stop);
    } else {
      NothingFound(text, from, search);
      NothingFound(text, n + 1, search);
    }
  }

  lemma FirstLineFound(text: string, from: nat, n: nat, isMatch: Span -> bool, search: Search)
    requires from <= |text| && n == NextNewline(text, from)
    requires SearchInBounds(text, search) && Leftmost(text, isMatch, search)
    requires search(from).Some? && search(from).value.start <= n
    ensures MatchIn(isMatch, from, n - from)
    ensures FoundFrom(text, from, search) == Cons(Span(from, n - from), if n == |text| then Nil else FoundFrom(text, n + 1, search))
  {
    assert LeftmostFrom(isMatch, from, search(from));
    MatchInFirstLine(text, from, n, search(from).value);
    FoundAs(text, from, search, from, n);
  }

  lemma FirstLineNotFound(text: string, from: nat, n: nat, isMatch: Span -> bool, search: Search)
    requires from <= n <= |text| && Leftmost(text, isMatch, search)
    requires search(from).Some? ==> search(from).value.start > n
    ensures !MatchIn(isMatch, from, n - from)
  {
    assert LeftmostFrom(isMatch, from, search(from));
  }

  lemma PickedStep(text: string, from: nat, n: nat, picks: (nat, nat) -> bool, rest: List<Span>)
    requires from <= |text| && n == NextNewline(text, from)
    requires rest == if n == |text| then Nil else PickedFrom(text, n + 1, picks)
    ensures PickedFrom(text, from, picks) == if picks(from, n - from) then Cons(Span(from, n - from), rest) else rest
  {
  }

  lemma NoneInLastLine(text: string, from: nat, search: Search)
    requires from <= |text| && SearchInBounds(text, search)
    requires search(from).Some? ==> search(from).value.start > |text|
    ensures search(from).None?
  {
  }

  lemma FoundStep(text: string, from: nat, n: nat, isMatch: Span -> bool, search: Search, rest: List<Span>)
    requires from <= |text| && n == NextNewline(text, from)
    requires SearchInBounds(text, search) && Leftmost(text, isMatch, search)
    requires rest == if n == |text| then Nil else FoundFrom(text, n + 1, search)
    ensures FoundFrom(text, from, search) == if MatchIn(isMatch, from, n - from) then Cons(Span(from, n - from), rest) else rest
  {
    if search(from).Some? && search(from).value.start <= n {
      FirstLineFound(text, from, n, isMatch, search);
    } else {
      FirstLineNotFound(text, from, n, isMatch, search);
      if n < |text| {
        FoundLater(text, from, n, isMatch, search);
      } else {
        NoneInLastLine(text, from, search);
        NothingFound(text, from, search);
      }
    }
  }

  /** With a leftmost search whose matches stay inside a line, search and skip visits exactly the lines
      that contain a match, each once and in order. */
  lemma {:induction false} SearchFindsMatchingLines(text: string, from: nat, isMatch: Span -> bool, search: Search)
    requires from <= |text| && SearchInBounds(text, search) && Leftmost(text, isMatch, search)
    ensures FoundFrom(text, from, search) == PickedFrom(text, from, Matching(isMatch))
    decreases |text| - from
  {
    var n := NextNewline(text, from);
    var rest := if n == |text| then Nil else FoundFrom(text, n + 1, search);
    if n < |text| { SearchFindsMatchingLines(text, n + 1, isMatch, search); }
    FoundStep(text, from, n, isMatch, search, rest);
    PickedStep(text, from, n, Matching(isMatch), rest);
  }

  function NonEmpty(ss: seq<string>): seq<string> {
    if ss == [] then [] else NonEmpty(ss[..|ss| - 1]) + if ss[|ss| - 1] != [] then [ss[|ss| - 1]] else []
  }

  lemma {:induction false} NonEmptyAppend(a: seq<string>, b: seq<string>)
    ensures NonEmpty(a + b) == NonEmpty(a) + NonEmpty(b)
  {
    if b == [] {
      assert a + b == a;
    } else {
      assert (a + b)[..|a + b| - 1] == a + b[..|b| - 1];
      NonEmptyAppend(a, b[..|b| - 1]);
    }
  }

  lemma NonEmptyOne(x: string)
    ensures NonEmpty([x]) == if x != [] then [x] else []
  {
    assert [x][..0] == [];
  }

  function NonEmptySpans(ls: List<Span>): List<Span> {
    match ls
    case Nil => Nil
    case Cons(l, rest) => if l.len > 0 then Cons(l, NonEmptySpans(rest)) else NonEmptySpans(rest)
  }

  // Line by line drops the empty ones among the lines picked, ...
  lemma {:induction false} KeptArePicked(text: string, from: nat, picks: (nat, nat) -> bool)
    requires from <= |text|
    ensures KeptFrom(text, from, picks) == NonEmptySpans(PickedFrom(text, from, picks))
    decreases |text| - from
  {
    var n := NextNewline(text, from);
    if n < |text| { KeptArePicked(text, n + 1, picks); }
  }

  // ... and those would be trimmed to nothing.
  lemma {:induction false} EmptyLinesTrimAway(text: string, ls: List<Span>)
    ensures NonEmpty(Trimmed(text, ls)) == NonEmpty(Trimmed(text, NonEmptySpans(ls)))
  {
    match ls
    case Nil =>
    case Cons(l, rest) =>
      EmptyLinesTrimAway(text, rest);
      TrimOneMore(text, l, rest, NonEmptySpans(rest));
  }

  lemma TrimOneMore(text: string, l: Span, p: List<Span>, k: List<Span>)
    requires NonEmpty(Trimmed(text, p)) == NonEmpty(Trimmed(text, k))
    ensures NonEmpty(Trimmed(text, Cons(l, p))) == NonEmpty(Trimmed(text, if l.len > 0 then Cons(l, k) else k))
  {
    var x := Trim(text, l);
    NonEmptyOne(x);
    NonEmptyAppend([x], Trimmed(text, p));
    NonEmptyAppend([x], Trimmed(text, k));
    if l.len == 0 { assert x == []; assert [] + NonEmpty(Trimmed(text, p)) == NonEmpty(Trimmed(text, p)); }
  }

  /** So the two agree on what they send, up to leading carriage returns and empty lines. */
  lemma SearchAgreesWithLines(text: string, isMatch: Span -> bool, search: Search)
    requires SearchInBounds(text, search) && Leftmost(text, isMatch, search)
    ensures NonEmpty(Trimmed(text, FoundFrom(text, 0, search))) ==
            NonEmpty(Trimmed(text, KeptFrom(text, 0, Matching(isMatch))))
  {
    SearchFindsMatchingLines(text, 0, isMatch, search);
    KeptArePicked(text, 0, Matching(isMatch));
    EmptyLinesTrimAway(text, PickedFrom(text, 0, Matching(isMatch)));
  }

  // --- chunk by chunk ---

  // The line-by-line filter on a piece of text, for a predicate on the line's content.
  function FilterLines(text: string, picks: string -> bool): seq<string>
    decreases |text|
  {
    if text == [] then [] else
    var n := NextNewline(text, 0);
    var line := text[..n];
    var rest := if n == |text| then [] else FilterLines(text[n + 1..], picks);
    if line != [] && picks(line) then [line] + rest else rest
  }

  function Concat(chunks: seq<string>): string {
    if chunks == [] then [] else chunks[0] + Concat(chunks[1..])
  }

  // What the filter sends when it is handed one chunk after the other.
  function FilterChunks(chunks: seq<string>, picks: string -> bool): seq<string> {
    if chunks == [] then [] else FilterLines(chunks[0], picks) + FilterChunks(chunks[1..], picks)
  }

  // A boundary that does not touch a newline on either side.
  predicate Splits(left: string, right: string) {
    left != [] && right != [] && left[|left| - 1] != '\n' && right[0] != '\n'
  }

  function SplitLines(chunks: seq<string>): nat {
    if |chunks| < 2 then 0 else (if Splits(chunks[0], chunks[1]) then 1 else 0) + SplitLines(chunks[1..])
  }

  lemma {:induction false} NewlineInFront(a: string, b: string, n: nat)
    requires n == NextNewline(a, 0) && n < |a|
    ensures NextNewline(a + b, 0) == n && a[n] == '\n'
  {
    NextNewlineFacts(a, 0);
    NextNewlineIs(a + b, 0, n);
  }

  // A predicate that picks everything; it shows every split.
  const ALL: string -> bool := s => true

  ghost predicate BoundaryOk(a: string, b: string, picks: string -> bool) {
    (!Splits(a, b) ==> FilterLines(a + b, picks) == FilterLines(a, picks) + FilterLines(b, picks)) &&
    |FilterLines(a, ALL)| + |FilterLines(b, ALL)| == |FilterLines(a + b, ALL)| + if Splits(a, b) then 1 else 0
  }

  lemma FilterStep(text: string, n: nat, tail: string, picks: string -> bool, rest: seq<string>)
    requires text != [] && n == NextNewline(text, 0) && tail == (if n == |text| then [] else text[n + 1..])
    requires rest == FilterLines(tail, picks)
    ensures FilterLines(text, picks) == if text[..n] != [] && picks(text[..n]) then [text[..n]] + rest else rest
  {
  }

  // The same first line in front of both sides.
  lemma FrontLine(line: string, taken: bool, a: seq<string>, b: seq<string>, c: seq<string>, a': seq<string>, c': seq<string>)
    requires a' == (if taken then [line] + a else a) && c' == (if taken then [line] + c else c)
    ensures c == a + b ==> c' == a' + b
    ensures |c'| - |a'| == |c| - |a|
  {
  }

  /** One boundary: filtering the halves is filtering the whole, unless the boundary splits a line; then
      a filter that picks everything sends one piece more. */
  lemma {:induction false} OneBoundary(a: string, b: string, picks: string -> bool)
    requires a != [] && b != []
    ensures BoundaryOk(a, b, picks)
    decreases |a|
  {
    var n := NextNewline(a, 0);
    if n < |a| {
      if n + 1 < |a| { OneBoundary(a[n + 1..], b, picks); }
      BoundaryLater(a, b, n, picks);
    } else {
      BoundaryInFirstLine(a, b, picks);
    }
  }

  lemma BoundaryLater(a: string, b: string, n: nat, picks: string -> bool)
    requires b != [] && n == NextNewline(a, 0) && n < |a|
    requires n + 1 < |a| ==> BoundaryOk(a[n + 1..], b, picks)
    ensures BoundaryOk(a, b, picks)
  {
    var t := a[n + 1..];
    NewlineInFront(a, b, n);
    SplitsLater(a, b, n);
    InFront(a, b, n, t, picks);
    InFront(a, b, n, t, ALL);
    if t == [] { assert t + b == b; }
  }

  lemma SplitsLater(a: string, b: string, n: nat)
    requires n < |a| && a[n] == '\n'
    ensures Splits(a, b) <==> Splits(a[n + 1..], b)
  {
  }

  lemma InFront(a: string, b: string, n: nat, t: string, picks: string -> bool)
    requires b != [] && n == NextNewline(a, 0) && n < |a| && t == a[n + 1..]
    ensures FilterLines(t + b, picks) == FilterLines(t, picks) + FilterLines(b, picks) ==>
            FilterLines(a + b, picks) == FilterLines(a, picks) + FilterLines(b, picks)
    ensures |FilterLines(a + b, picks)| - |FilterLines(a, picks)| == |FilterLines(t + b, picks)| - |FilterLines(t, picks)|
  {
    NewlineInFront(a, b, n);
    assert (a + b)[..n] == a[..n] && (a + b)[n + 1..] == t + b;
    FilterStep(a, n, t, picks, FilterLines(t, picks));
    FilterStep(a + b, n, t + b, picks, FilterLines(t + b, picks));
    FrontLine(a[..n], a[..n] != [] && picks(a[..n]), FilterLines(t, picks), FilterLines(b, picks), FilterLines(t + b, picks),
              FilterLines(a, picks), FilterLines(a + b, picks));
  }

  // `a` is the beginning of a line that `b` continues, or ends with its first newline.
  lemma BoundaryInFirstLine(a: string, b: string, picks: string -> bool)
    requires a != [] && b != [] && NextNewline(a, 0) == |a|
    ensures BoundaryOk(a, b, picks)
  {
    var m := NextNewline(b, 0);
    var t := if m == |b| then [] else b[m + 1..];
    JoinedLine(a, b, m, t);
    FirstLines(a, b, m, t, picks);
    FirstLines(a, b, m, t, ALL);
    if m == 0 { assert b[..0] == [] && a + [] == a; }
  }

  // The first line of `a + b` when `a` has no newline.
  lemma JoinedLine(a: string, b: string, m: nat, t: string)
    requires a != [] && b != [] && NextNewline(a, 0) == |a| && m == NextNewline(b, 0)
    requires t == if m == |b| then [] else b[m + 1..]
    ensures NextNewline(a + b, 0) == |a| + m && (a + b)[..|a| + m] == a + b[..m] && a[..|a|] == a
    ensures m < |b| ==> (a + b)[|a| + m + 1..] == t
    ensures Splits(a, b) <==> m > 0
  {
    NextNewlineFacts(a, 0);
    NextNewlineFacts(b, 0);
    NextNewlineIs(a + b, 0, |a| + m);
  }

  lemma OneLine(a: string, picks: string -> bool)
    requires a != [] && NextNewline(a, 0) == |a|
    ensures FilterLines(a, picks) == if picks(a) then [a] else []
  {
    assert a[..|a|] == a;
    FilterStep(a, |a|, [], picks, []);
  }

  lemma FirstLines(a: string, b: string, m: nat, t: string, picks: string -> bool)
    requires a != [] && b != [] && NextNewline(a, 0) == |a| && m == NextNewline(b, 0) && NextNewline(a + b, 0) == |a| + m
    requires t == (if m == |b| then [] else b[m + 1..]) && (m < |b| ==> (a + b)[|a| + m + 1..] == t)
    requires (a + b)[..|a| + m] == a + b[..m] && a[..|a|] == a
    ensures FilterLines(a, picks) == if picks(a) then [a] else []
    ensures FilterLines(b, picks) == if b[..m] != [] && picks(b[..m]) then [b[..m]] + FilterLines(t, picks) else FilterLines(t, picks)
    ensures FilterLines(a + b, picks) == if picks(a + b[..m]) then [a + b[..m]] + FilterLines(t, picks) else FilterLines(t, picks)
  {
    OneLine(a, picks);
    FilterStep(b, m, t, picks, FilterLines(t, picks));
    FilterStep(a + b, |a| + m, t, picks, FilterLines(t, picks));
  }

  /** For any chunks, none empty: chunk by chunk and all at once agree for every predicate if and only if
      no boundary splits a line, that is, every boundary has a newline on one side. */
  lemma ChunksAgreeExactlyWithoutSplits(chunks: seq<string>)
    requires forall k :: 0 <= k < |chunks| ==> chunks[k] != []
    ensures SplitLines(chunks) == 0 <==> forall picks: string -> bool :: FilterChunks(chunks, picks) == FilterLines(Concat(chunks), picks)
  {
    if SplitLines(chunks) == 0 {
      forall picks: string -> bool ensures FilterChunks(chunks, picks) == FilterLines(Concat(chunks), picks) {
        ChunksAgree(chunks, picks);
      }
    } else {
      ChunksAgree(chunks, ALL);
      assert FilterChunks(chunks, ALL) != FilterLines(Concat(chunks), ALL);
    }
  }

  lemma {:induction false} ChunksAgree(chunks: seq<string>, picks: string -> bool)
    requires forall k :: 0 <= k < |chunks| ==> chunks[k] != []
    ensures SplitLines(chunks) == 0 ==> FilterChunks(chunks, picks) == FilterLines(Concat(chunks), picks)
    ensures |FilterChunks(chunks, ALL)| == |FilterLines(Concat(chunks), ALL)| + SplitLines(chunks)
  {
    if chunks != [] {
      var a, rest := chunks[0], chunks[1..];
      ChunksAgree(rest, picks);
      if rest == [] {
        assert a + Concat(rest) == a;
      } else {
        assert Concat(rest)[0] == chunks[1][0];
        OneBoundary(a, Concat(rest), picks);
      }
    }
  }

  // The filter by content is the filter by position.
  function ByContent(text: string, picks: string -> bool): (nat, nat) -> bool {
    (start: nat, len: nat) => picks(Slice(text, Span(start, len)))
  }

  function Slices(text: string, ls: List<Span>): seq<string> {
    match ls
    case Nil => []
    case Cons(l, rest) => [Slice(text, l)] + Slices(text, rest)
  }

  lemma KeptSlices(text: string, from: nat, n: nat, picks: string -> bool, rest: seq<string>)
    requires from <= |text| && n == NextNewline(text, from)
    requires rest == if n == |text| then [] else Slices(text, KeptFrom(text, n + 1, ByContent(text, picks)))
    ensures Slices(text, KeptFrom(text, from, ByContent(text, picks))) ==
            if text[from..n] != [] && picks(text[from..n]) then [text[from..n]] + rest else rest
  {
    var p := ByContent(text, picks);
    KeptStep(text, from, n, p, if n == |text| then Nil else KeptFrom(text, n + 1, p));
    assert Slice(text, Span(from, n - from)) == text[from..n];
  }

  lemma KeptStep(text: string, from: nat, n: nat, picks: (nat, nat) -> bool, rest: List<Span>)
    requires from <= |text| && n == NextNewline(text, from)
    requires rest == if n == |text| then Nil else KeptFrom(text, n + 1, picks)
    ensures KeptFrom(text, from, picks) == if from < n && picks(from, n - from) then Cons(Span(from, n - from), rest) else rest
  {
  }

  lemma {:induction false} FilterLinesIsKept(text: string, from: nat, picks: string -> bool)
    requires from <= |text|
    ensures FilterLines(text[from..], picks) == Slices(text, KeptFrom(text, from, ByContent(text, picks)))
    decreases |text| - from
  {
    var n := NextNewline(text, from);
    if n < |text| {
      FilterLinesIsKept(text, n + 1, picks);
      SuffixStep(text, from, n, picks, FilterLines(text[n + 1..], picks));
    } else {
      SuffixStep(text, from, n, picks, []);
    }
  }

  lemma SuffixStep(text: string, from: nat, n: nat, picks: string -> bool, rest: seq<string>)
    requires from <= |text| && n == NextNewline(text, from)
    requires rest == if n == |text| then [] else FilterLines(text[n + 1..], picks)
    requires rest == if n == |text| then [] else Slices(text, KeptFrom(text, n + 1, ByContent(text, picks)))
    ensures FilterLines(text[from..], picks) == Slices(text, KeptFrom(text, from, ByContent(text, picks)))
  {
    KeptSlices(text, from, n, picks, rest);
    if from < |text| {
      FilterOnSuffix(text, from, n, picks, rest);
    } else {
      assert text[from..] == [] && text[from..n] == [];
    }
  }

  // The first line of a suffix, and what comes after it.
  lemma SuffixLine(text: string, from: nat, n: nat, t: string)
    requires from < |text| && n == NextNewline(text, from) && t == text[from..]
    ensures NextNewline(t, 0) == n - from && t[..n - from] == text[from..n]
    ensures n < |text| ==> t[n - from + 1..] == text[n + 1..]
  {
    NextNewlineFacts(text, from);
    NextNewlineIs(t, 0, n - from);
  }

  lemma FilterOnSuffix(text: string, from: nat, n: nat, picks: string -> bool, rest: seq<string>)
    requires from < |text| && n == NextNewline(text, from) && rest == if n == |text| then [] else FilterLines(text[n + 1..], picks)
    ensures FilterLines(text[from..], picks) == if text[from..n] != [] && picks(text[from..n]) then [text[from..n]] + rest else rest
  {
    var t := text[from..];
    SuffixLine(text, from, n, t);
    var tail := if n == |text| then [] else text[n + 1..];
    FilterStep(t, n - from, tail, picks, rest);
  }

  lemma {:induction false} SlicesLength(text: string, ls: List<Span>)
    ensures |Slices(text, ls)| == Length(ls)
  {
    if ls.Cons? { SlicesLength(text, ls.tail); }
  }

  // So the count the loop returns is the number of lines it picks.
  lemma FilterLinesCount(text: string, picks: string -> bool)
    ensures |FilterLines(text, picks)| == Length(KeptFrom(text, 0, ByContent(text, picks)))
  {
    FilterLinesIsKept(text, 0, picks);
    assert text[0..] == text;
    SlicesLength(text, KeptFrom(text, 0, ByContent(text, picks)));
  }

  // --- what search and skip sends ---

  predicate Break(c: char) {
    c == '\n' || c == '\r'
  }

  lemma {:induction false} SkipBreaksFacts(text: string, k: nat, stop: nat)
    requires k <= stop <= |text|
    ensures var n := SkipBreaks(text, k, stop);
            (forall j :: k <= j < n ==> Break(text[j])) && (n < stop ==> !Break(text[n]))
    decreases stop - k
  {
    if k < stop && Break(text[k]) { SkipBreaksFacts(text, k + 1, stop); }
  }

  /** Trimming takes the line breaks off the front of a line and nothing else: what is sent is the rest of the
      line, from its first character that is not a line break. */
  lemma TrimDropsLeadingBreaks(text: string, l: Span) returns (k: nat)
    requires Within(text, l)
    ensures l.start <= k <= l.start + l.len && Trim(text, l) == text[k..l.start + l.len]
    ensures forall j :: l.start <= j < k ==> text[j] == '\n' || text[j] == '\r'
    ensures k < l.start + l.len ==> text[k] != '\n' && text[k] != '\r'
  {
    k := SkipBreaks(text, l.start, l.start + l.len);
    SkipBreaksFacts(text, l.start, l.start + l.len);
  }

  predicate NoReturns(text: string) {
    forall k :: 0 <= k < |text| ==> text[k] != '\r'
  }

  lemma TrimOfPlainLine(text: string, l: Span)
    requires Within(text, l) && NoReturns(text) && NoNewline(text, l.start, l.start + l.len)
    ensures Trim(text, l) == Slice(text, l)
  {
    var k := TrimDropsLeadingBreaks(text, l);
  }

  lemma {:induction false} TrimmedPlainLines(text: string, from: nat, picks: (nat, nat) -> bool)
    requires from <= |text| && NoReturns(text)
    ensures Trimmed(text, PickedFrom(text, from, picks)) == Slices(text, PickedFrom(text, from, picks))
    decreases |text| - from
  {
    var n := NextNewline(text, from);
    NextNewlineFacts(text, from);
    if n < |text| { TrimmedPlainLines(text, n + 1, picks); }
    PickedStep(text, from, n, picks, if n == |text| then Nil else PickedFrom(text, n + 1, picks));
    TrimOfPlainLine(text, Span(from, n - from));
  }

  predicate AllWithin(text: string, ls: List<Span>) {
    ls.Nil? || (Within(text, ls.head) && AllWithin(text, ls.tail))
  }

  lemma {:induction false} PickedWithin(text: string, from: nat, picks: (nat, nat) -> bool)
    requires from <= |text|
    ensures AllWithin(text, PickedFrom(text, from, picks))
    decreases |text| - from
  {
    var n := NextNewline(text, from);
    if n < |text| { PickedWithin(text, n + 1, picks); }
  }

  lemma NonEmptyCons(x: string, a: seq<string>, b: seq<string>)
    requires NonEmpty(a) == b
    ensures NonEmpty([x] + a) == if x != [] then [x] + b else b
  {
    NonEmptyAppend([x], a);
    NonEmptyOne(x);
  }

  // Dropping the empty lines before or after cutting them out.
  lemma {:induction false} NonEmptySlices(text: string, ls: List<Span>)
    requires AllWithin(text, ls)
    ensures NonEmpty(Slices(text, ls)) == Slices(text, NonEmptySpans(ls))
  {
    if ls.Cons? {
      NonEmptySlices(text, ls.tail);
      NonEmptyCons(Slice(text, ls.head), Slices(text, ls.tail), Slices(text, NonEmptySpans(ls.tail)));
    }
  }

  /** In a text without carriage returns, search and skip sends the matching lines as they are, in order and once
      each; leaving out the empty ones, that is exactly what the line-by-line filter sends. */
  lemma SearchSendsMatchingLines(text: string, isMatch: Span -> bool, search: Search)
    requires SearchInBounds(text, search) && Leftmost(text, isMatch, search) && NoReturns(text)
    ensures Trimmed(text, FoundFrom(text, 0, search)) == Slices(text, PickedFrom(text, 0, Matching(isMatch)))
    ensures NonEmpty(Trimmed(text, FoundFrom(text, 0, search))) == Slices(text, KeptFrom(text, 0, Matching(isMatch)))
  {
    SearchFindsMatchingLines(text, 0, isMatch, search);
    TrimmedPlainLines(text, 0, Matching(isMatch));
    PickedWithin(text, 0, Matching(isMatch));
    NonEmptySlices(text, PickedFrom(text, 0, Matching(isMatch)));
    KeptArePicked(text, 0, Matching(isMatch));
  }

  // --- what the line-by-line filter sends ---

  // From `from` on, the text consists of non-empty lines that all end with a newline.
  predicate ProperLines(text: string, from: nat) {
    from <= |text| && (from < |text| ==> text[from] != '\n' && text[|text| - 1] == '\n') &&
    forall k :: from <= k < |text| - 1 ==> !(text[k] == '\n' && text[k + 1] == '\n')
  }

  const EVERY: (nat, nat) -> bool := (_, _) => true

  lemma ConcatTwo(a: string, b: string, rest: seq<string>)
    ensures Concat([a, b] + rest) == a + (b + Concat(rest))
  {
    var all := [a, b] + rest;
    assert all[1..] == [b] + rest && all[1..][1..] == rest;
  }

  lemma EmitJoins(text: string, from: nat, n: nat, rest: List<Span>)
    requires from <= n <= |text|
    ensures Concat(Emit(text, Cons(Span(from, n - from), rest))) == text[from..n] + ("\n" + Concat(Emit(text, rest)))
  {
    ConcatTwo(text[from..n], "\n", Emit(text, rest));
  }

  lemma ProperNext(text: string, from: nat, n: nat)
    requires ProperLines(text, from) && from < |text| && n == NextNewline(text, from)
    ensures from < n < |text| && text[n] == '\n' && ProperLines(text, n + 1)
  {
    NextNewlineFacts(text, from);
    assert text[|text| - 1] == '\n';
  }

  /** If every line is taken, what is sent is the text: each line comes with its own newline, after it. */
  lemma {:induction false} EveryLineGivesTheText(text: string, from: nat)
    requires ProperLines(text, from)
    ensures Concat(Emit(text, KeptFrom(text, from, EVERY))) == text[from..]
    decreases |text| - from
  {
    if from < |text| {
      var n := NextNewline(text, from);
      ProperNext(text, from, n);
      EveryLineGivesTheText(text, n + 1);
      var rest := KeptFrom(text, n + 1, EVERY);
      KeptStep(text, from, n, EVERY, rest);
      EmitJoins(text, from, n, rest);
      CutAtNewline(text, from, n);
    }
  }
}
