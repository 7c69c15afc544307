/** The loop over the bytes of a batch is what the search's transitions do entry by entry: a worker that
    walks over the records of a batch logs the same openings and searches, and collects as many
    subdirectories, as the loop performs on the encoded records. */
module BatchRefinement {
  import opened Sequences
  import opened Lines
  import opened Dirents
  import opened DirectoryTree
  import opened Traversal

  // The record describes the entry of the tree, and opening it turns out accordingly.
  predicate Describes(r: Record, fd: int, e: Entry) {
    if r.kind == DT_DIR && !Dots(r.name) then e.SubDir? && (e.openable <==> fd >= 0)
    else if r.kind == DT_REG then e.File? && (e.openable <==> fd >= 0)
    else e.Other?
  }

  // The records describe the entries of `d` from index `pos` on.
  predicate DescribeFrom(rs: List<Record>, i: nat, opens: nat -> int, d: Dir, pos: nat) {
    match rs
    case Nil => pos <= |d.entries|
    case Cons(r, rest) =>
      pos < |d.entries| && Describes(r, opens(i), d.entries[pos]) && DescribeFrom(rest, i + 1, opens, d, pos + 1)
  }

  // What the loop's actions on one record mean for the entry at path `q`.
  function Meaning(actions: seq<Action>, dirs: seq<int>, q: Path): seq<Event> {
    if dirs != [] then [Event(Opened, q)]
    else if exists k :: 0 <= k < |actions| && actions[k].Execute? then [Event(Searched, q)]
    else []
  }

  function BatchEvents(rs: List<Record>, i: nat, opens: nat -> int, path: Path, pos: nat): seq<Event> {
    match rs
    case Nil => []
    case Cons(r, rest) =>
      Meaning(RecordActions(r, opens(i)), RecordDirs(r, opens(i)), path + [pos]) +
      BatchEvents(rest, i + 1, opens, path, pos + 1)
  }

  lemma RecordIsVisit(r: Record, fd: int, item: Item, pos: nat)
    requires pos < |item.dir.entries| && Describes(r, fd, item.dir.entries[pos])
    ensures Visited(item, pos) == Meaning(RecordActions(r, fd), RecordDirs(r, fd), item.path + [pos])
    ensures Discovered(item, pos) ==
            if RecordDirs(r, fd) == [] then [] else [Item(item.path + [pos], item.dir.entries[pos].dir)]
  {
    var actions := RecordActions(r, fd);
    if r.kind == DT_REG && fd >= 0 { assert actions[1].Execute?; }
  }

  // The subdirectories among the entries described whose openat succeeded, where they are in the tree.
  function Collected(rs: List<Record>, i: nat, opens: nat -> int, item: Item, pos: nat): (items: seq<Item>)
    requires DescribeFrom(rs, i, opens, item.dir, pos)
  {
    match rs
    case Nil => []
    case Cons(r, rest) =>
      (if RecordDirs(r, opens(i)) == [] then [] else [Item(item.path + [pos], item.dir.entries[pos].dir)]) +
      Collected(rest, i + 1, opens, item, pos + 1)
  }

  // One for each descriptor the byte loop collects.
  lemma {:induction false} CollectedAsMany(rs: List<Record>, i: nat, opens: nat -> int, item: Item, pos: nat)
    requires DescribeFrom(rs, i, opens, item.dir, pos)
    ensures |Collected(rs, i, opens, item, pos)| == |BatchDirs(rs, i, opens)|
    decreases rs
  {
    if rs.Cons? { CollectedAsMany(rs.tail, i + 1, opens, item, pos + 1); }
  }

  // A worker's transitions over `n` records of its batch.
  function Turns(worker: nat, n: nat): (labels: seq<Label>)
    ensures |labels| == n
  {
    if n == 0 then [] else [Label(worker, 0)] + Turns(worker, n - 1)
  }

  predicate Walking(s: State, worker: nat, item: Item, pos: nat, hi: nat, found: seq<Item>) {
    worker < |s.workers| && s.workers[worker] == Busy(item, pos, Walk(hi, found))
  }

  // Between the two states the worker has moved and logged `events`, and nothing else has changed.
  predicate OnlyLogged(s: State, t: State, worker: nat, events: seq<Event>) {
    t == s.(workers := t.workers, log := s.log + events) && worker < |s.workers| == |t.workers| &&
    t.workers == s.workers[worker := t.workers[worker]]
  }

  lemma LoggedBoth(s: State, u: State, t: State, worker: nat, a: seq<Event>, b: seq<Event>)
    requires OnlyLogged(s, u, worker, a) && OnlyLogged(u, t, worker, b)
    ensures OnlyLogged(s, t, worker, a + b)
  {
    Assoc(s.log, a, b);
  }

  lemma OneTurn(s: State, worker: nat, item: Item, pos: nat, hi: nat, found: seq<Item>) returns (t: State)
    requires Walking(s, worker, item, pos, hi, found) && pos < hi && pos < |item.dir.entries|
    ensures Enabled(s, Label(worker, 0)) && t == Apply(s, Label(worker, 0))
    ensures Walking(t, worker, item, pos + 1, hi, found + Discovered(item, pos))
    ensures OnlyLogged(s, t, worker, Visited(item, pos))
  {
    t := Apply(s, Label(worker, 0));
  }

  lemma FirstTurn(s: State, worker: nat, n: nat, t: State)
    requires n > 0 && Enabled(s, Label(worker, 0)) && t == Apply(s, Label(worker, 0)) && Possible(t, Turns(worker, n - 1))
    ensures Possible(s, Turns(worker, n)) && Run(s, Turns(worker, n)) == Run(t, Turns(worker, n - 1))
  {
    assert Turns(worker, n)[1..] == Turns(worker, n - 1);
  }

  lemma NoTurn(s: State, worker: nat, found: seq<Item>)
    requires worker < |s.workers|
    ensures OnlyLogged(s, s, worker, []) && found + [] == found && Possible(s, Turns(worker, 0)) && Run(s, Turns(worker, 0)) == s
  {
  }

  /** From any state in which a worker is about to walk a batch that the records describe, its transitions
      over the batch are possible, log what the byte loop does to each record in order, collect exactly the
      subdirectories whose descriptors the loop collects, and touch nothing else. */
  lemma {:induction false} WalkRefinesBatch(s: State, worker: nat, item: Item, pos: nat, found: seq<Item>,
                                            rs: List<Record>, i: nat, opens: nat -> int)
    returns (t: State)
    requires Walking(s, worker, item, pos, pos + Length(rs), found)
    requires DescribeFrom(rs, i, opens, item.dir, pos)
    ensures Possible(s, Turns(worker, Length(rs))) && t == Run(s, Turns(worker, Length(rs)))
    ensures Walking(t, worker, item, pos + Length(rs), pos + Length(rs), found + Collected(rs, i, opens, item, pos))
    ensures OnlyLogged(s, t, worker, BatchEvents(rs, i, opens, item.path, pos))
    decreases rs
  {
    match rs
    case Nil =>
      t := s;
      NoTurn(s, worker, found);
    case Cons(r, rest) =>
      var u := OneTurn(s, worker, item, pos, pos + Length(rs), found);
      RecordIsVisit(r, opens(i), item, pos);
      t := WalkRefinesBatch(u, worker, item, pos + 1, found + Discovered(item, pos), rest, i + 1, opens);
      Assoc(found, Discovered(item, pos), Collected(rest, i + 1, opens, item, pos + 1));
      LoggedBoth(s, u, t, worker, Visited(item, pos), BatchEvents(rest, i + 1, opens, item.path, pos + 1));
      FirstTurn(s, worker, Length(rs), u);
  }
}
