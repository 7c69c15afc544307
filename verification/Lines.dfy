/** Lines of a text, by position. A text with k newlines has k + 1 lines; the last one may be empty. */
module Lines {
  import opened Sequences

  datatype List<T> = Nil | Cons(head: T, tail: List<T>)

  function Length<T>(l: List<T>): nat {
    match l
    case Nil => 0
    case Cons(_, tail) => 1 + Length(tail)
  }

  function Nth<T>(l: List<T>, k: nat): T
    requires k < Length(l)
  {
    if k == 0 then l.head else Nth(l.tail, k - 1)
  }

  // The half-open range [start, start + len) of a text.
  datatype Span = Span(start: nat, len: nat)

  predicate Within(text: string, s: Span) {
    s.start + s.len <= |text|
  }

  // The characters of a range of the text; what is no range of the text has none.
  function Slice(text: string, s: Span): string {
    if Within(text, s) then text[s.start..s.start + s.len] else []
  }

  // `find('\n', from)`: the first newline at or after `from`, or the end of the text.
  function NextNewline(text: string, from: nat): (n: nat)
    requires from <= |text|
    ensures from <= n <= |text|
    decreases |text| - from
  {
    if from == |text| || text[from] == '\n' then from else NextNewline(text, from + 1)
  }

  predicate NoNewline(text: string, from: nat, to: nat)
    requires from <= to <= |text|
  {
    forall k :: from <= k < to ==> text[k] != '\n'
  }

  lemma {:induction false} NextNewlineFacts(text: string, from: nat)
    requires from <= |text|
    ensures var n := NextNewline(text, from); (n < |text| ==> text[n] == '\n') && NoNewline(text, from, n)
    decreases |text| - from
  {
    if from < |text| && text[from] != '\n' { NextNewlineFacts(text, from + 1); }
  }

  // Those facts say which position it is.
  lemma {:induction false} NextNewlineIs(text: string, from: nat, n: nat)
    requires from <= n <= |text| && NoNewline(text, from, n) && (n < |text| ==> text[n] == '\n')
    ensures NextNewline(text, from) == n
    decreases n - from
  {
    if from < n { NextNewlineIs(text, from + 1, n); }
  }

  // Just after the last newline in [from, at), or `from`.
  function LineStart(text: string, from: nat, at: nat): (n: nat)
    requires from <= at <= |text|
    ensures from <= n <= at
    decreases at
  {
    if at == from || text[at - 1] == '\n' then at else LineStart(text, from, at - 1)
  }

  lemma {:induction false} LineStartFacts(text: string, from: nat, at: nat)
    requires from <= at <= |text|
    ensures var n := LineStart(text, from, at); (n > from ==> text[n - 1] == '\n') && NoNewline(text, n, at)
    decreases at
  {
    if at > from && text[at - 1] != '\n' { LineStartFacts(text, from, at - 1); }
  }

  // The line that position `at` lies in.
  function LineAt(text: string, at: nat): Span
    requires at <= |text|
  {
    Span(LineStart(text, 0, at), NextNewline(text, at) - LineStart(text, 0, at))
  }

  // The lines from position `from` on, where a line begins.
  function LinesFrom(text: string, from: nat): List<Span>
    requires from <= |text|
    decreases |text| - from
  {
    var n := NextNewline(text, from);
    Cons(Span(from, n - from), if n == |text| then Nil else LinesFrom(text, n + 1))
  }

  function Join(text: string, ls: List<Span>): string {
    match ls
    case Nil => []
    case Cons(l, Nil) => Slice(text, l)
    case Cons(l, rest) => Slice(text, l) + ("\n" + Join(text, rest))
  }

  lemma CutAtNewline(text: string, from: nat, n: nat)
    requires from <= n < |text| && text[n] == '\n'
    ensures text[from..] == text[from..n] + ("\n" + text[n + 1..])
  {
  }

  lemma JoinCons(text: string, l: Span, rest: List<Span>)
    requires rest.Cons?
    ensures Join(text, Cons(l, rest)) == Slice(text, l) + ("\n" + Join(text, rest))
  {
  }

  /** Splitting loses nothing: joined by newlines, the lines are the text. */
  lemma {:induction false} LinesJoinToText(text: string, from: nat)
    requires from <= |text|
    ensures Join(text, LinesFrom(text, from)) == text[from..]
    decreases |text| - from
  {
    var n := NextNewline(text, from);
    if n < |text| {
      NextNewlineFacts(text, from);
      LinesJoinToText(text, n + 1);
      JoinCons(text, Span(from, n - from), LinesFrom(text, n + 1));
      CutAtNewline(text, from, n);
    }
  }

  predicate NewlineFree(s: string) {
    forall k :: 0 <= k < |s| ==> s[k] != '\n'
  }

  lemma {:induction false} LinesAreNewlineFree(text: string, from: nat, k: nat)
    requires from <= |text| && k < Length(LinesFrom(text, from))
    ensures var l := Nth(LinesFrom(text, from), k); Within(text, l) && NewlineFree(Slice(text, l))
    decreases |text| - from
  {
    if k == 0 {
      NextNewlineFacts(text, from);
    } else {
      LinesAreNewlineFree(text, NextNewline(text, from) + 1, k - 1);
    }
  }

  lemma {:induction false} NoNewlineNoCount(text: string, from: nat, at: nat)
    requires from <= at <= |text| && NoNewline(text, from, at)
    ensures Count(text[from..at], '\n') == 0
    decreases at
  {
    if from < at {
      NoNewlineNoCount(text, from, at - 1);
      assert text[from..at][..at - from - 1] == text[from..at - 1];
    }
  }

  // Within the first line, the line found from any position is that line.
  lemma FirstLine(text: string, from: nat, n: nat, at: nat)
    requires from <= at <= |text| && (from > 0 ==> text[from - 1] == '\n')
    requires n == NextNewline(text, from) && at <= n
    ensures LineAt(text, at) == Span(from, n - from)
  {
    NextNewlineFacts(text, from);
    NextNewlineIs(text, at, n);
    LineStartFacts(text, 0, at);
    assert LineStart(text, 0, at) == from;
  }

  lemma CountPast(text: string, from: nat, n: nat, at: nat)
    requires from <= n < at <= |text| && text[n] == '\n' && NoNewline(text, from, n)
    ensures Count(text[from..at], '\n') == 1 + Count(text[n + 1..at], '\n')
  {
    NoNewlineNoCount(text, from, n);
    assert text[from..n + 1][..n - from] == text[from..n];
    assert Count(text[from..n + 1], '\n') == 1;
    CountAppend(text[from..n + 1], text[n + 1..at], '\n');
    assert text[from..n + 1] + text[n + 1..at] == text[from..at];
  }

  /** The line around a position is the one whose number is the count of newlines before it. */
  lemma {:induction false} LineAtIsLine(text: string, from: nat, at: nat)
    requires from <= at <= |text| && (from > 0 ==> text[from - 1] == '\n')
    ensures var k := Count(text[from..at], '\n');
            k < Length(LinesFrom(text, from)) && Nth(LinesFrom(text, from), k) == LineAt(text, at)
    decreases |text| - from
  {
    var n := NextNewline(text, from);
    NextNewlineFacts(text, from);
    if at <= n {
      FirstLine(text, from, n, at);
      NoNewlineNoCount(text, from, at);
    } else {
      LineAtIsLine(text, n + 1, at);
      CountPast(text, from, n, at);
    }
  }
}
