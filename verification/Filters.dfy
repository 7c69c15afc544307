/** The three line filters: line by line (Re2), from match ends to lines (VectorScan), and search and
    skip (SimpleRegex). The regex engine is an oracle. Each filter pushes pieces downstream with a call
    that may fail, after which it stops; `limit` is the number of those calls that succeed. */
module Filters {
  import opened Sequences
  import opened Wrappers
  import opened Lines

  // What reaches the next stage out of everything a filter wants to send; the failing call is made.
  function Sent(all: seq<string>, limit: nat): (r: seq<string>)
    ensures r <= all
    ensures |all| <= limit ==> |r| == |all|
    ensures |all| > limit ==> |r| == limit + 1
  {
    if |all| <= limit then all else all[..limit + 1]
  }

  function Outcome(all: seq<string>, limit: nat, count: nat): Result<nat> {
    if |all| <= limit then Ok(count) else Err
  }

  // A line and its newline are sent separately.
  function Emit(text: string, ls: List<Span>): seq<string> {
    match ls
    case Nil => []
    case Cons(l, rest) => [Slice(text, l), "\n"] + Emit(text, rest)
  }

  lemma AllSent(a: seq<string>, b: seq<string>, limit: nat)
    requires |a| == limit + 1
    ensures Sent(a + b, limit) == a
  {
  }

  // One call downstream, with `rest` still to come after it.
  method Push(piece: string, sent: seq<string>, limit: nat, ghost all: seq<string>, ghost rest: seq<string>)
    returns (out: seq<string>, ok: bool)
    requires all == sent + ([piece] + rest) && |sent| <= limit
    ensures all == out + rest && |out| == |sent| + 1 && (ok <==> |out| <= limit)
    ensures !ok ==> |all| > limit && out == Sent(all, limit)
  {
    Assoc(sent, [piece], rest);
    out := sent + [piece];
    ok := |out| <= limit;
    if !ok { AllSent(out, rest, limit); }
  }

  method PushLine(line: string, sent: seq<string>, limit: nat, ghost all: seq<string>, ghost rest: seq<string>)
    returns (out: seq<string>, ok: bool)
    requires all == sent + ([line, "\n"] + rest) && |sent| <= limit
    ensures ok ==> all == out + rest && |out| == |sent| + 2 <= limit
    ensures !ok ==> |all| > limit && out == Sent(all, limit)
  {
    assert [line, "\n"] + rest == [line] + (["\n"] + rest);
    out, ok := Push(line, sent, limit, all, ["\n"] + rest);
    if ok {
      out, ok := Push("\n", out, limit, all, rest);
    }
  }

  // Everything there was has been sent.
  lemma Done(all: seq<string>, sent: seq<string>, rest: seq<string>, limit: nat, count: nat)
    requires all == sent + rest && rest == [] && |sent| <= limit
    ensures all == sent == Sent(all, limit) && Outcome(all, limit, count) == Ok(count)
  {
  }

  // --- line by line ---

  // The non-empty lines a predicate picks, from `from` on, where a line begins. The predicate sees where
  // the line is, as the engine does.
  function KeptFrom(text: string, from: nat, picks: (nat, nat) -> bool): List<Span>
    requires from <= |text|
    decreases |text| - from
  {
    var n := NextNewline(text, from);
    var rest := if n == |text| then Nil else KeptFrom(text, n + 1, picks);
    if from < n && picks(from, n - from) then Cons(Span(from, n - from), rest) else rest
  }

  function Keep(ls: List<Span>, picks: (nat, nat) -> bool): List<Span> {
    match ls
    case Nil => Nil
    case Cons(l, rest) => if l.len > 0 && picks(l.start, l.len) then Cons(l, Keep(rest, picks)) else Keep(rest, picks)
  }

  /** It is the plain filter over the lines of the text: order kept, each line once. */
  lemma {:induction false} KeptIsFilter(text: string, from: nat, picks: (nat, nat) -> bool)
    requires from <= |text|
    ensures KeptFrom(text, from, picks) == Keep(LinesFrom(text, from), picks)
    decreases |text| - from
  {
    var n := NextNewline(text, from);
    if n < |text| { KeptIsFilter(text, n + 1, picks); }
  }

  // What there is to send from one line on, and after it.
  lemma LineTodo(text: string, from: nat, n: nat, picks: (nat, nat) -> bool, kept: List<Span>, rest: List<Span>)
    requires from <= |text| && n == NextNewline(text, from) && kept == KeptFrom(text, from, picks)
    requires rest == if n == |text| then Nil else KeptFrom(text, n + 1, picks)
    ensures from < n && picks(from, n - from) ==>
              Length(kept) == 1 + Length(rest) && Emit(text, kept) == [text[from..n], "\n"] + Emit(text, rest)
    ensures !(from < n && picks(from, n - from)) ==> kept == rest
  {
  }

  method FilterByLine(text: string, picks: (nat, nat) -> bool, limit: nat) returns (sent: seq<string>, r: Result<nat>)
    ensures var kept := KeptFrom(text, 0, picks);
            sent == Sent(Emit(text, kept), limit) && r == Outcome(Emit(text, kept), limit, Length(kept))
  {
    var from, found := 0, 0;
    sent := [];
    ghost var all := Emit(text, KeptFrom(text, 0, picks));
    while from < |text|
      invariant from <= |text| && |sent| <= limit
      invariant Length(KeptFrom(text, 0, picks)) == found + Length(KeptFrom(text, from, picks))
      invariant all == sent + Emit(text, KeptFrom(text, from, picks))
    {
      var n := NextNewline(text, from);
      ghost var rest := if n == |text| then Nil else KeptFrom(text, n + 1, picks);
      LineTodo(text, from, n, picks, KeptFrom(text, from, picks), rest);
      if from < n && picks(from, n - from) {
        var ok;
        sent, ok := PushLine(text[from..n], sent, limit, all, Emit(text, rest));
        if !ok {
          return sent, Err;
        }
        found := found + 1;
      }
      if n == |text| {
        Done(all, sent, Emit(text, rest), limit, found);
        return sent, Ok(found);
      }
      from := n + 1;
    }
    Done(all, sent, Emit(text, KeptFrom(text, from, picks)), limit, found);
    r := Ok(found);
  }

  // --- from match ends to lines ---

  datatype Scan = ScanFailed | Matches(ends: seq<nat>)

  predicate InText(text: string, ends: seq<nat>) {
    forall k :: 0 <= k < |ends| ==> ends[k] <= |text|
  }

  // The lines around the match ends from index `i` on.
  function LinesAt(text: string, ends: seq<nat>, i: nat): List<Span>
    requires i <= |ends| && InText(text, ends)
    decreases |ends| - i
  {
    if i == |ends| then Nil else Cons(LineAt(text, ends[i]), LinesAt(text, ends, i + 1))
  }

  lemma EndTodo(text: string, ends: seq<nat>, i: nat, start: nat, stop: nat)
    requires i < |ends| && InText(text, ends) && start == LineStart(text, 0, ends[i]) && stop == NextNewline(text, ends[i])
    ensures Emit(text, LinesAt(text, ends, i)) == [text[start..stop], "\n"] + Emit(text, LinesAt(text, ends, i + 1))
  {
  }

  method FilterByEnds(text: string, scan: Scan, limit: nat) returns (sent: seq<string>, r: Result<nat>)
    requires scan.Matches? ==> InText(text, scan.ends)
    ensures scan.ScanFailed? ==> sent == [] && r == Err
    ensures scan.Matches? ==>
              var all := Emit(text, LinesAt(text, scan.ends, 0));
              sent == Sent(all, limit) && r == Outcome(all, limit, |scan.ends|)
  {
    sent := [];
    if scan.ScanFailed? {
      return sent, Err;
    }
    var ends := scan.ends;
    ghost var all := Emit(text, LinesAt(text, ends, 0));
    var i := 0;
    while i < |ends|
      invariant 0 <= i <= |ends| && |sent| <= limit
      invariant all == sent + Emit(text, LinesAt(text, ends, i))
    {
      var start := LineStart(text, 0, ends[i]);
      var stop := NextNewline(text, ends[i]);
      EndTodo(text, ends, i, start, stop);
      var ok;
      sent, ok := PushLine(text[start..stop], sent, limit, all, Emit(text, LinesAt(text, ends, i + 1)));
      if !ok {
        return sent, Err;
      }
      i := i + 1;
    }
    Done(all, sent, Emit(text, LinesAt(text, ends, i)), limit, |ends|);
    r := Ok(|ends|);
  }

  // --- search and skip ---

  // `regex_search` on the text from an offset on: where it says the leftmost match is.
  type Search = nat -> Option<Span>

  predicate SearchInBounds(text: string, search: Search) {
    forall from: nat :: from <= |text| && search(from).Some? ==>
      from <= search(from).value.start && Within(text, search(from).value)
  }

  // The lines the search-and-skip loop visits from `from` on.
  function FoundFrom(text: string, from: nat, search: Search): List<Span>
    requires from <= |text| && SearchInBounds(text, search)
    decreases |text| - from
  {
    if search(from).None? then Nil else
    var m := search(from).value;
    var start := LineStart(text, from, m.start);
    var stop := NextNewline(text, m.start + m.len);
    Cons(Span(start, stop - start), if stop == |text| then Nil else FoundFrom(text, stop + 1, search))
  }

  // The first position from `k` on that is neither a newline nor a carriage return.
  function SkipBreaks(text: string, k: nat, stop: nat): (n: nat)
    requires k <= stop <= |text|
    ensures k <= n <= stop
    decreases stop - k
  {
    if k < stop && (text[k] == '\n' || text[k] == '\r') then SkipBreaks(text, k + 1, stop) else k
  }

  // Leading newlines and carriage returns go.
  function Trim(text: string, s: Span): string {
    if Within(text, s) then text[SkipBreaks(text, s.start, s.start + s.len)..s.start + s.len] else []
  }

  function Trimmed(text: string, ls: List<Span>): (r: seq<string>)
    ensures |r| == Length(ls)
  {
    match ls
    case Nil => []
    case Cons(l, rest) => [Trim(text, l)] + Trimmed(text, rest)
  }

  // `remove_prefix` moves the start of the view.
  method TrimLine(text: string, start: nat, stop: nat) returns (line: string)
    requires start <= stop <= |text|
    ensures line == Trim(text, Span(start, stop - start))
  {
    var k := start;
    while k < stop && (text[k] == '\n' || text[k] == '\r')
      invariant k <= stop && SkipBreaks(text, k, stop) == SkipBreaks(text, start, stop)
    {
      k := k + 1;
    }
    line := text[k..stop];
  }

  lemma FoundTodo(text: string, from: nat, search: Search, start: nat, stop: nat, rest: List<Span>)
    requires from <= |text| && SearchInBounds(text, search) && search(from).Some?
    requires start == LineStart(text, from, search(from).value.start)
    requires stop == NextNewline(text, search(from).value.start + search(from).value.len)
    requires rest == if stop == |text| then Nil else FoundFrom(text, stop + 1, search)
    ensures Trimmed(text, FoundFrom(text, from, search)) == [Trim(text, Span(start, stop - start))] + Trimmed(text, rest)
  {
  }

  lemma NothingFound(text: string, from: nat, search: Search)
    requires from <= |text| && SearchInBounds(text, search) && search(from).None?
    ensures FoundFrom(text, from, search) == Nil
  {
  }

  // One round of the loop: the line around the match found from `from` on, up to `stop`, is sent.
  method VisitMatch(text: string, from: nat, search: Search, sent: seq<string>, limit: nat, ghost all: seq<string>)
    returns (out: seq<string>, ok: bool, stop: nat)
    requires from <= |text| && SearchInBounds(text, search) && search(from).Some? && |sent| <= limit
    requires all == sent + Trimmed(text, FoundFrom(text, from, search))
    ensures from <= stop <= |text| && |out| == |sent| + 1 && (ok <==> |out| <= limit)
    ensures all == out + Trimmed(text, if stop == |text| then Nil else FoundFrom(text, stop + 1, search))
    ensures !ok ==> |all| > limit && out == Sent(all, limit)
  {
    var m := search(from).value;
    var start := LineStart(text, from, m.start);
    stop := NextNewline(text, m.start + m.len);
    ghost var rest := if stop == |text| then Nil else FoundFrom(text, stop + 1, search);
    FoundTodo(text, from, search, start, stop, rest);
    var line := TrimLine(text, start, stop);
    out, ok := Push(line, sent, limit, all, Trimmed(text, rest));
  }

  method SearchAndSkip(text: string, search: Search, limit: nat) returns (sent: seq<string>, r: Result<nat>)
    requires SearchInBounds(text, search)
    ensures var all := Trimmed(text, FoundFrom(text, 0, search));
            sent == Sent(all, limit) && r == Outcome(all, limit, |all|)
  {
    var from, found := 0, 0;
    sent := [];
    ghost var rest := FoundFrom(text, 0, search);
    ghost var all := Trimmed(text, rest);
    while search(from).Some?
      invariant from <= |text| && found == |sent| <= limit && rest == FoundFrom(text, from, search)
      invariant all == sent + Trimmed(text, rest)
      decreases |text| - from
    {
      var ok, stop;
      sent, ok, stop := VisitMatch(text, from, search, sent, limit, all);
      if !ok {
        return sent, Err;
      }
      found := found + 1;
      if stop == |text| {
        Done(all, sent, Trimmed(text, Nil), limit, found);
        return sent, Ok(found);
      }
      from := stop + 1;
      rest := FoundFrom(text, from, search);
    }
    NothingFound(text, from, search);
    Done(all, sent, Trimmed(text, rest), limit, found);
    r := Ok(found);
  }
}
