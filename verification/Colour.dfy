/** The colour renderer: syntax captures fill a mask with one colour per byte, and the text goes out run
    by run with an SGR sequence (section 8.3.117 of ECMA-48) before each run. The parser is an oracle. */
module Colour {
  import opened Wrappers

  const ESC: char := '\U{001B}'
  const RESET: string := [ESC, '[', '0', 'm']
  const COLOURS: nat := 5

  // The escape sequences, by colour id. Colour 0 has none.
  function Code(colour: nat): string
    requires colour < COLOURS
  {
    match colour
    case 0 => []
    case 1 => [ESC, '[', '3', '5', 'm']
    case 2 => [ESC, '[', '3', '4', 'm']
    case 3 => [ESC, '[', '3', '3', 'm']
    case 4 => [ESC, '[', '3', '6', 'm']
  }

  // --- the mask ---

  datatype Capture = Capture(index: nat, begin: nat, end: nat)

  predicate InRange(captures: seq<Capture>, size: nat) {
    forall j :: 0 <= j < |captures| ==> captures[j].begin <= captures[j].end <= size
  }

  function NameColour(name: string): nat {
    if name == "keyword" then 1
    else if name == "function" then 2
    else if name == "string" then 3
    else if name == "variable" then 4
    else 0
  }

  function CaptureColour(names: seq<string>, c: Capture): nat {
    if c.index < |names| then NameColour(names[c.index]) else 0
  }

  // The capture gives byte `k` a colour.
  predicate Paints(names: seq<string>, c: Capture, k: nat) {
    CaptureColour(names, c) != 0 && c.begin <= k < c.end
  }

  // The colour byte `k` has after the first `n` captures.
  function LastColour(names: seq<string>, captures: seq<Capture>, n: nat, k: nat): (r: nat)
    requires n <= |captures|
    ensures r < COLOURS
  {
    if n == 0 then 0
    else if Paints(names, captures[n - 1], k) then CaptureColour(names, captures[n - 1])
    else LastColour(names, captures, n - 1, k)
  }

  // Capture `j` is the last to paint byte `k` among the first `n`.
  predicate LastToPaint(names: seq<string>, captures: seq<Capture>, n: nat, k: nat, j: nat)
    requires n <= |captures|
  {
    j < n && Paints(names, captures[j], k) && forall i :: j < i < n ==> !Paints(names, captures[i], k)
  }

  /** A byte has the colour of the last coloured capture that covers it, and colour 0 exactly when there is
      none. */
  lemma {:induction false} MaskIsLastCapture(names: seq<string>, captures: seq<Capture>, n: nat, k: nat)
    requires n <= |captures|
    ensures LastColour(names, captures, n, k) == 0 <==> forall j :: 0 <= j < n ==> !Paints(names, captures[j], k)
    ensures forall j: nat :: LastToPaint(names, captures, n, k, j) ==>
              LastColour(names, captures, n, k) == CaptureColour(names, captures[j])
  {
    if n > 0 && !Paints(names, captures[n - 1], k) {
      MaskIsLastCapture(names, captures, n - 1, k);
      forall j: nat | LastToPaint(names, captures, n, k, j)
        ensures LastColour(names, captures, n, k) == CaptureColour(names, captures[j])
      {
        assert LastToPaint(names, captures, n - 1, k, j);
      }
    }
  }

  // `memset`.
  method Fill(mask: array<nat>, begin: nat, end: nat, colour: nat)
    requires begin <= end <= mask.Length
    modifies mask
    ensures forall k :: 0 <= k < mask.Length ==> mask[k] == if begin <= k < end then colour else old(mask[k])
  {
    var i := begin;
    while i < end
      invariant begin <= i <= end
      invariant forall k :: 0 <= k < mask.Length ==> mask[k] == if begin <= k < i then colour else old(mask[k])
    {
      mask[i] := colour;
      i := i + 1;
    }
  }

  method FillMask(names: seq<string>, captures: seq<Capture>, size: nat) returns (mask: array<nat>)
    requires InRange(captures, size)
    ensures fresh(mask) && mask.Length == size
    ensures forall k :: 0 <= k < size ==> mask[k] == LastColour(names, captures, |captures|, k)
  {
    mask := new nat[size](_ => 0);
    var n := 0;
    while n < |captures|
      invariant n <= |captures|
      invariant forall k :: 0 <= k < size ==> mask[k] == LastColour(names, captures, n, k)
    {
      var colour := CaptureColour(names, captures[n]);
      if colour != 0 {
        Fill(mask, captures[n].begin, captures[n].end, colour);
      }
      n := n + 1;
    }
  }

  // --- the rendering ---

  predicate Known(mask: seq<nat>) {
    forall k :: 0 <= k < |mask| ==> mask[k] < COLOURS
  }

  // The first `n` bytes, each preceded by its colour's sequence where the mask changes.
  function Coloured(data: string, mask: seq<nat>, n: nat): string
    requires n <= |data| == |mask| && Known(mask)
  {
    if n == 0 then [] else
    Coloured(data, mask, n - 1)
    + (if n == 1 || mask[n - 1] != mask[n - 2] then Code(mask[n - 1]) else [])
    + [data[n - 1]]
  }

  predicate RunFrom(mask: seq<nat>, from: nat, stop: nat) {
    from < stop <= |mask| && (from == 0 || mask[from - 1] != mask[from]) && forall k :: from <= k < stop ==> mask[k] == mask[from]
  }

  lemma Grow(a: string, b: string, data: string, from: nat, stop: nat)
    requires from < stop <= |data|
    ensures a + b + data[from..stop - 1] + [data[stop - 1]] == a + b + data[from..stop]
  {
    assert data[from..stop - 1] + [data[stop - 1]] == data[from..stop];
  }

  // A whole run can be appended at once.
  lemma {:induction false} RunAppends(data: string, mask: seq<nat>, from: nat, stop: nat)
    requires |data| == |mask| && Known(mask) && RunFrom(mask, from, stop)
    ensures Coloured(data, mask, stop) == Coloured(data, mask, from) + Code(mask[from]) + data[from..stop]
    decreases stop
  {
    Grow(Coloured(data, mask, from), Code(mask[from]), data, from, stop);
    if stop > from + 1 {
      assert RunFrom(mask, from, stop - 1);
      RunAppends(data, mask, from, stop - 1);
      assert mask[stop - 1] == mask[from] && mask[stop - 2] == mask[from];
      assert Coloured(data, mask, stop - 1) + [] == Coloured(data, mask, stop - 1);
    }
  }

  // The next chunk of `chunk_by(equal_to)`.
  method RunEnd(mask: array<nat>, from: nat) returns (stop: nat)
    requires from < mask.Length && (from == 0 || mask[from - 1] != mask[from])
    ensures RunFrom(mask[..], from, stop) && (stop < mask.Length ==> mask[stop - 1] != mask[stop])
  {
    stop := from + 1;
    while stop < mask.Length && mask[stop - 1] == mask[stop]
      invariant from < stop <= mask.Length && forall k :: from <= k < stop ==> mask[k] == mask[from]
    {
      stop := stop + 1;
    }
  }

  method Render(data: string, mask: array<nat>) returns (r: Result<string>)
    requires mask.Length == |data|
    ensures r.Ok? <==> Known(mask[..])
    ensures r.Ok? ==> r.value == Coloured(data, mask[..], |data|) + RESET
  {
    var out, index := "", 0;
    ghost var known := Known(mask[..]);
    while index < |data|
      invariant index <= |data| && (0 < index < |data| ==> mask[index - 1] != mask[index])
      invariant forall k :: 0 <= k < index ==> mask[k] < COLOURS
      invariant known ==> out == Coloured(data, mask[..], index)
    {
      var colour := mask[index];
      var stop := RunEnd(mask, index);
      assert forall k :: index <= k < stop ==> mask[k] == mask[..][k];
      if colour >= COLOURS {
        assert mask[..][index] == colour;
        return Err;
      }
      if known {
        RunAppends(data, mask[..], index, stop);
      }
      out := out + Code(colour) + data[index..stop];
      index := stop;
    }
    r := Ok(out + RESET);
  }

  function Mask(names: seq<string>, captures: seq<Capture>, size: nat): (mask: seq<nat>)
    ensures |mask| == size && Known(mask)
  {
    seq(size, k requires 0 <= k => LastColour(names, captures, |captures|, k))
  }

  function Rendering(data: string, names: seq<string>, captures: seq<Capture>): string {
    Coloured(data, Mask(names, captures, |data|), |data|) + RESET
  }

  // The node: `captures` is what the parser finds in the data, if it can be set up and parses it.
  method Highlight(data: string, names: seq<string>, captures: Result<seq<Capture>>) returns (r: Result<string>)
    requires captures.Ok? ==> InRange(captures.value, |data|)
    ensures captures.Err? ==> r.Err?
    ensures captures.Ok? ==> r == Ok(Rendering(data, names, captures.value))
  {
    if captures.Err? {
      return Err;
    }
    var mask := FillMask(names, captures.value, |data|);
    assert mask[..] == Mask(names, captures.value, |data|);
    r := Render(data, mask);
  }

  // --- what a terminal shows ---

  datatype Mode = Text | Escape | Control(params: seq<nat>, current: nat)

  // A character on the screen with its foreground, as the SGR parameter that selects it (0 is the default).
  datatype Cell = Cell(ch: char, foreground: nat)

  datatype Terminal = Terminal(mode: Mode, foreground: nat, screen: seq<Cell>)

  const START: Terminal := Terminal(Text, 0, [])

  // Select graphic rendition: the parameters in turn, of which only those for the foreground matter here.
  function Select(foreground: nat, params: seq<nat>): nat {
    if params == [] then foreground else
    var p := params[|params| - 1];
    if p == 0 || p == 39 then 0
    else if 30 <= p <= 37 then p
    else Select(foreground, params[..|params| - 1])
  }

  function Feed(t: Terminal, ch: char): Terminal {
    match t.mode
    case Text => if ch == ESC then t.(mode := Escape) else t.(screen := t.screen + [Cell(ch, t.foreground)])
    case Escape => t.(mode := if ch == '[' then Control([], 0) else Text)
    case Control(params, current) =>
      if '0' <= ch <= '9' then t.(mode := Control(params, 10 * current + (ch - '0') as nat))
      else if ch == ';' then t.(mode := Control(params + [current], 0))
      else if ch == 'm' then t.(mode := Text, foreground := Select(t.foreground, params + [current]))
      else if '@' <= ch <= '~' then t.(mode := Text)
      else t
  }

  function Shown(t: Terminal, s: string): Terminal {
    if s == [] then t else Feed(Shown(t, s[..|s| - 1]), s[|s| - 1])
  }

  function Characters(screen: seq<Cell>): (s: string)
    ensures |s| == |screen|
  {
    seq(|screen|, k requires 0 <= k < |screen| => screen[k].ch)
  }

  // The text without its control sequences.
  function Strip(s: string): string {
    Characters(Shown(START, s).screen)
  }

  lemma ShownPush(t: Terminal, s: string, ch: char)
    ensures Shown(t, s + [ch]) == Feed(Shown(t, s), ch)
  {
    assert (s + [ch])[..|s|] == s;
  }

  lemma {:induction false} ShownAppend(t: Terminal, a: string, b: string)
    ensures Shown(t, a + b) == Shown(Shown(t, a), b)
  {
    if b == [] {
      assert a + b == a;
    } else {
      ShownAppend(t, a, b[..|b| - 1]);
      assert (a + b)[..|a + b| - 1] == a + b[..|b| - 1];
    }
  }

  function Foreground(colour: nat): nat
    requires colour < COLOURS
  {
    match colour
    case 0 => 0
    case 1 => 35
    case 2 => 34
    case 3 => 33
    case 4 => 36
  }

  lemma ShownFour(t: Terminal, a: char, b: char, c: char, d: char)
    ensures Shown(t, [a, b, c, d]) == Feed(Feed(Feed(Feed(t, a), b), c), d)
  {
    ShownPush(t, [], a);
    ShownPush(t, [a], b);
    ShownPush(t, [a, b], c);
    ShownPush(t, [a, b, c], d);
    assert [] + [a] == [a] && [a] + [b] == [a, b] && [a, b] + [c] == [a, b, c] && [a, b, c] + [d] == [a, b, c, d];
  }

  lemma SelectOne(foreground: nat, p: nat)
    ensures Select(foreground, [] + [p]) ==
            if p == 0 || p == 39 then 0 else if 30 <= p <= 37 then p else foreground
  {
    assert [] + [p] == [p] && [p][..0] == [];
  }

  lemma ResetResets(t: Terminal)
    requires t.mode.Text?
    ensures Shown(t, RESET) == t.(foreground := 0)
  {
    ShownFour(t, ESC, '[', '0', 'm');
    SelectOne(t.foreground, 0);
  }

  lemma CodeSelects(t: Terminal, colour: nat)
    requires t.mode.Text? && colour < COLOURS
    ensures Shown(t, Code(colour)) == if colour == 0 then t else t.(foreground := Foreground(colour))
  {
    if colour != 0 {
      var d := Code(colour)[3];
      ShownFour(t, ESC, '[', '3', d);
      assert Code(colour) == [ESC, '[', '3', d] + ['m'];
      ShownPush(t, [ESC, '[', '3', d], 'm');
      SelectOne(t.foreground, Foreground(colour));
    }
  }

  // --- the rendering on the terminal ---

  // The nearest non-zero mask entry before index `n`.
  function Nearest(mask: seq<nat>, n: nat): (r: nat)
    requires n <= |mask| && Known(mask)
    ensures r < COLOURS
  {
    if n == 0 then 0 else if mask[n - 1] != 0 then mask[n - 1] else Nearest(mask, n - 1)
  }

  predicate EscFree(s: string) {
    forall k :: 0 <= k < |s| ==> s[k] != ESC
  }

  // The first `n` bytes on the screen, each in the nearest colour at or before it.
  function Painted(data: string, mask: seq<nat>, n: nat): seq<Cell>
    requires n <= |data| == |mask| && Known(mask)
  {
    seq(n, k requires 0 <= k < n => Cell(data[k], Foreground(Nearest(mask, k + 1))))
  }

  lemma PaintedPush(data: string, mask: seq<nat>, n: nat)
    requires 0 < n <= |data| == |mask| && Known(mask)
    ensures Painted(data, mask, n) == Painted(data, mask, n - 1) + [Cell(data[n - 1], Foreground(Nearest(mask, n)))]
  {
  }

  // A colour that is repeated needs no sequence: it is still in force.
  lemma NearestInRun(mask: seq<nat>, n: nat)
    requires 0 < n <= |mask| && Known(mask)
    ensures mask[n - 1] != 0 ==> Nearest(mask, n) == mask[n - 1]
    ensures n > 1 && mask[n - 1] == mask[n - 2] ==> Nearest(mask, n) == Nearest(mask, n - 1)
  {
  }

  // One byte after the text shown as `t`, preceded by its sequence where the mask changes.
  lemma ByteShown(t: Terminal, before: string, mask: seq<nat>, n: nat, code: string, ch: char)
    requires 0 < n <= |mask| && Known(mask) && ch != ESC
    requires t == Shown(START, before) && t.mode.Text? && t.foreground == Foreground(Nearest(mask, n - 1))
    requires code == if n == 1 || mask[n - 1] != mask[n - 2] then Code(mask[n - 1]) else []
    ensures var f := Foreground(Nearest(mask, n));
            Shown(START, before + code + [ch]) == Terminal(Text, f, t.screen + [Cell(ch, f)])
  {
    ShownAppend(START, before, code);
    CodeSelects(t, mask[n - 1]);
    NearestInRun(mask, n);
    ShownPush(START, before + code, ch);
  }

  lemma {:induction false} ColouredShown(data: string, mask: seq<nat>, n: nat)
    requires n <= |data| == |mask| && Known(mask) && EscFree(data)
    ensures Shown(START, Coloured(data, mask, n)) ==
            Terminal(Text, Foreground(Nearest(mask, n)), Painted(data, mask, n))
  {
    if n > 0 {
      ColouredShown(data, mask, n - 1);
      var before := Coloured(data, mask, n - 1);
      var code := if n == 1 || mask[n - 1] != mask[n - 2] then Code(mask[n - 1]) else [];
      ByteShown(Shown(START, before), before, mask, n, code, data[n - 1]);
      PaintedPush(data, mask, n);
    }
  }

  /** On a terminal, ESC-free data shows unchanged, each byte in the nearest non-zero colour of the mask at
      or before it, and the terminal is left reset. */
  lemma RenderedShowsData(data: string, mask: seq<nat>)
    requires |data| == |mask| && Known(mask) && EscFree(data)
    ensures Shown(START, Coloured(data, mask, |data|) + RESET) == Terminal(Text, 0, Painted(data, mask, |data|))
  {
    ColouredShown(data, mask, |data|);
    ShownAppend(START, Coloured(data, mask, |data|), RESET);
    ResetResets(Shown(START, Coloured(data, mask, |data|)));
  }

  lemma {:induction false} ScreenHasNoEsc(s: string)
    ensures forall k :: 0 <= k < |Shown(START, s).screen| ==> Shown(START, s).screen[k].ch != ESC
  {
    if s != [] {
      ScreenHasNoEsc(s[..|s| - 1]);
    }
  }

  lemma StripIsEscFree(s: string)
    ensures EscFree(Strip(s))
  {
    ScreenHasNoEsc(s);
  }

  /** Stripping the rendered text gives the data back if and only if the data has no ESC of its own. */
  lemma StripGivesDataBack(data: string, mask: seq<nat>)
    requires |data| == |mask| && Known(mask)
    ensures Strip(Coloured(data, mask, |data|) + RESET) == data <==> EscFree(data)
  {
    var out := Coloured(data, mask, |data|) + RESET;
    StripIsEscFree(out);
    if EscFree(data) {
      RenderedShowsData(data, mask);
      assert Strip(out) == data;
    }
  }

  // One byte, an ESC: nothing of it is left.
  lemma OwnEscIsLost()
    ensures Strip(Coloured([ESC], [0], 1) + RESET) != [ESC]
  {
    StripGivesDataBack([ESC], [0]);
    assert [ESC][0] == ESC;
  }

  // Which entry is the nearest one.
  lemma {:induction false} NearestIs(mask: seq<nat>, n: nat)
    requires n <= |mask| && Known(mask)
    ensures Nearest(mask, n) == 0 <==> forall k :: 0 <= k < n ==> mask[k] == 0
    ensures forall j :: 0 <= j < n && mask[j] != 0 && (forall k :: j < k < n ==> mask[k] == 0) ==> Nearest(mask, n) == mask[j]
  {
    if n > 0 && mask[n - 1] == 0 {
      NearestIs(mask, n - 1);
    }
  }

  predicate Faithful(mask: seq<nat>, n: nat)
    requires n <= |mask| && Known(mask)
  {
    forall k :: 0 <= k < n ==> Nearest(mask, k + 1) == mask[k]
  }

  // Some byte without a colour comes right after a coloured one.
  predicate Uncoloured(mask: seq<nat>, n: nat)
    requires n <= |mask|
  {
    exists k :: 0 < k < n && mask[k] == 0 && mask[k - 1] != 0
  }

  /** Colours stick: every byte shows in its own mask colour if and only if colour 0 never follows another
      colour. */
  lemma {:induction false} ColoursStick(mask: seq<nat>, n: nat)
    requires n <= |mask| && Known(mask)
    ensures Faithful(mask, n) <==> !Uncoloured(mask, n)
  {
    if n > 0 {
      ColoursStick(mask, n - 1);
      assert Nearest(mask, n) == if mask[n - 1] != 0 then mask[n - 1] else Nearest(mask, n - 1);
      if Faithful(mask, n) {
        assert Faithful(mask, n - 1);
        assert n > 1 ==> Nearest(mask, n - 2 + 1) == mask[n - 2];
      } else if Uncoloured(mask, n - 1) {
        var k :| 0 < k < n - 1 && mask[k] == 0 && mask[k - 1] != 0;
        assert Uncoloured(mask, n);
      } else {
        assert Faithful(mask, n - 1);
        assert n > 1 ==> Nearest(mask, n - 2 + 1) == mask[n - 2];
      }
    }
  }

  // The byte after a keyword shows in the keyword's colour.
  lemma ColourRunsOn()
    ensures Nearest([1, 0], 2) == 1 && [1, 0][1] == 0 && !Faithful([1, 0], 2)
  {
    assert [1, 0][1 - 1] != 0;
    ColoursStick([1, 0], 2);
  }

  // --- from the captures to the screen ---

  predicate ColouredName(name: string) {
    name == "keyword" || name == "function" || name == "string" || name == "variable"
  }

  predicate Named(names: seq<string>, c: Capture, name: string) {
    c.index < |names| && names[c.index] == name
  }

  predicate HasColour(names: seq<string>, c: Capture) {
    c.index < |names| && ColouredName(names[c.index])
  }

  predicate Covers(c: Capture, k: nat) {
    c.begin <= k < c.end
  }

  // Capture `j` covers byte `k`, is named `name`, and no later one that has a colour covers the byte.
  predicate Decides(names: seq<string>, captures: seq<Capture>, k: nat, j: nat, name: string) {
    j < |captures| && Covers(captures[j], k) && Named(names, captures[j], name) &&
    forall i :: j < i < |captures| ==> !(Covers(captures[i], k) && HasColour(names, captures[i]))
  }

  lemma DecidingColour(names: seq<string>, captures: seq<Capture>, k: nat, j: nat, name: string)
    requires Decides(names, captures, k, j, name) && ColouredName(name)
    ensures LastColour(names, captures, |captures|, k) == NameColour(name) != 0
  {
    MaskIsLastCapture(names, captures, |captures|, k);
    assert LastToPaint(names, captures, |captures|, k, j);
  }

  lemma ShownInOwnColour(data: string, names: seq<string>, captures: seq<Capture>, k: nat)
    requires EscFree(data) && k < |data| && LastColour(names, captures, |captures|, k) != 0
    ensures var t := Shown(START, Rendering(data, names, captures));
            k < |t.screen| && t.screen[k] == Cell(data[k], Foreground(LastColour(names, captures, |captures|, k)))
  {
    var mask := Mask(names, captures, |data|);
    RenderedShowsData(data, mask);
    NearestInRun(mask, k + 1);
  }

  /** On the terminal, a byte whose deciding capture is a keyword shows in magenta (SGR 35), a function in blue
      (34), a string in yellow (33), a variable in cyan (36). */
  lemma NamesShowInTheirColours(data: string, names: seq<string>, captures: seq<Capture>, k: nat, j: nat, name: string)
    requires EscFree(data) && k < |data| && Decides(names, captures, k, j, name)
    ensures var screen := Shown(START, Rendering(data, names, captures)).screen;
            |screen| == |data| &&
            (name == "keyword" ==> screen[k] == Cell(data[k], 35)) &&
            (name == "function" ==> screen[k] == Cell(data[k], 34)) &&
            (name == "string" ==> screen[k] == Cell(data[k], 33)) &&
            (name == "variable" ==> screen[k] == Cell(data[k], 36))
  {
    RenderedShowsData(data, Mask(names, captures, |data|));
    if ColouredName(name) {
      DecidingColour(names, captures, k, j, name);
      ShownInOwnColour(data, names, captures, k);
    }
  }

  lemma {:induction false} WithoutColour(names: seq<string>, captures: seq<Capture>, j: nat, n: nat, k: nat)
    requires j < n <= |captures| && !HasColour(names, captures[j])
    ensures LastColour(names, captures[..j] + captures[j + 1..], n - 1, k) == LastColour(names, captures, n, k)
  {
    var rest := captures[..j] + captures[j + 1..];
    if n - 1 == j {
      SameFront(names, captures, rest, j, k);
    } else {
      assert rest[n - 2] == captures[n - 1];
      WithoutColour(names, captures, j, n - 1, k);
    }
  }

  lemma {:induction false} SameFront(names: seq<string>, a: seq<Capture>, b: seq<Capture>, n: nat, k: nat)
    requires n <= |a| && n <= |b| && a[..n] == b[..n]
    ensures LastColour(names, a, n, k) == LastColour(names, b, n, k)
  {
    if n > 0 {
      assert a[n - 1] == a[..n][n - 1] && b[n - 1] == b[..n][n - 1];
      assert a[..n - 1] == a[..n][..n - 1] && b[..n - 1] == b[..n][..n - 1];
      SameFront(names, a, b, n - 1, k);
    }
  }

  /** A capture of any other name changes nothing: the rendering is what it is without it. */
  lemma OtherNamesChangeNothing(data: string, names: seq<string>, captures: seq<Capture>, j: nat)
    requires j < |captures| && !HasColour(names, captures[j])
    ensures Rendering(data, names, captures) == Rendering(data, names, captures[..j] + captures[j + 1..])
  {
    var rest := captures[..j] + captures[j + 1..];
    forall k: nat | k < |data|
      ensures LastColour(names, rest, |rest|, k) == LastColour(names, captures, |captures|, k)
    {
      WithoutColour(names, captures, j, |captures|, k);
    }
    assert Mask(names, captures, |data|) == Mask(names, rest, |data|);
  }
}
