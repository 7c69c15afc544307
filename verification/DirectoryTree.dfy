/** The directory tree a search walks over, and the events that one complete walk has to produce.
    A directory is the list of records `getdents64` yields before it returns 0 or an error; an
    entry's identity is its path of record indices, so equal names never confuse two entries. */
module DirectoryTree {

  type Path = seq<nat>

  datatype Dir = Dir(entries: seq<Entry>)

  datatype Entry =
    | SubDir(openable: bool, dir: Dir)
    | File(openable: bool)
    | Other  // ".", ".." and every record that is neither a directory nor a regular file

  datatype Kind = Opened | Enumerated | Closed | Searched

  datatype Event = Event(kind: Kind, path: Path)

  function One(a: Event, b: Event): nat {
    if a == b then 1 else 0
  }

  // How often `ev` happens to a directory that has already been opened, or below it.
  ghost function DirOwes(d: Dir, p: Path, ev: Event): nat
    decreases d, |d.entries| + 1
  {
    One(Event(Enumerated, p), ev) + EntriesOwe(d, p, 0, ev) + One(Event(Closed, p), ev)
  }

  // The part of that which comes from the records of `d` from index `i` onwards.
  ghost function EntriesOwe(d: Dir, p: Path, i: nat, ev: Event): nat
    requires i <= |d.entries|
    decreases d, |d.entries| - i
  {
    if i == |d.entries| then 0
    else EntryOwes(d.entries[i], p + [i], ev) + EntriesOwe(d, p, i + 1, ev)
  }

  ghost function EntryOwes(e: Entry, q: Path, ev: Event): nat
    decreases e, 0
  {
    match e
    case SubDir(true, sub) => One(Event(Opened, q), ev) + DirOwes(sub, q, ev)
    case File(true) => One(Event(Searched, q), ev)
    case _ => 0
  }

  // Independent reading of the tree: `q` leads from `d` through openable directories to a directory.
  predicate LeadsToDir(d: Dir, q: Path) {
    q == [] ||
    (q[0] < |d.entries| && d.entries[q[0]].SubDir? && d.entries[q[0]].openable &&
     LeadsToDir(d.entries[q[0]].dir, q[1..]))
  }

  // `q` leads from `d` through openable directories to an openable regular file.
  predicate LeadsToFile(d: Dir, q: Path) {
    q != [] && q[0] < |d.entries| &&
    match d.entries[q[0]]
    case File(openable) => openable && |q| == 1
    case SubDir(openable, sub) => openable && LeadsToFile(sub, q[1..])
    case Other => false
  }

  // How often a complete walk from `root` must produce `ev`.
  ghost function Due(root: Dir, ev: Event): nat {
    if ev.kind == Searched then (if LeadsToFile(root, ev.path) then 1 else 0)
    else if LeadsToDir(root, ev.path) then 1 else 0
  }

  // Everything a search owes once it sets out from `root`.
  ghost function RootOwes(root: Dir, ev: Event): nat {
    One(Event(Opened, []), ev) + DirOwes(root, [], ev)
  }

  // Events of an entry carry the entry's own path as a prefix.
  lemma {:induction false} EntryOwesBelow(e: Entry, q: Path, ev: Event)
    requires EntryOwes(e, q, ev) > 0
    ensures q <= ev.path
    decreases e, 0
  {
    if e.SubDir? && EntriesOwe(e.dir, q, 0, ev) > 0 { EntriesOweBelow(e.dir, q, 0, ev); }
  }

  lemma {:induction false} EntriesOweBelow(d: Dir, p: Path, i: nat, ev: Event)
    requires i <= |d.entries|
    requires EntriesOwe(d, p, i, ev) > 0
    ensures p < ev.path && i <= ev.path[|p|] < |d.entries|
    decreases d, |d.entries| - i
  {
    if EntryOwes(d.entries[i], p + [i], ev) > 0 {
      EntryOwesBelow(d.entries[i], p + [i], ev);
      assert ev.path[|p|] == (p + [i])[|p|];
    } else {
      EntriesOweBelow(d, p, i + 1, ev);
    }
  }

  // Among the entries of a directory, only entry `k` owes events whose path continues with `k`.
  lemma {:induction false} OnlyEntryOwes(d: Dir, p: Path, i: nat, k: nat, ev: Event)
    requires i <= |d.entries|
    requires p < ev.path && ev.path[|p|] == k
    ensures EntriesOwe(d, p, i, ev) == if i <= k < |d.entries| then EntryOwes(d.entries[k], p + [k], ev) else 0
    decreases |d.entries| - i
  {
    if i < |d.entries| {
      OnlyEntryOwes(d, p, i + 1, k, ev);
      if i != k && EntryOwes(d.entries[i], p + [i], ev) > 0 {
        EntryOwesBelow(d.entries[i], p + [i], ev);
        assert false;
      }
    }
  }

  // What an opened directory owes, against the independent reading.
  lemma {:induction false} DirOwesDue(d: Dir, p: Path, q: Path, kind: Kind)
    ensures DirOwes(d, p, Event(kind, p + q)) == if q == [] && kind == Opened then 0 else Due(d, Event(kind, q))
    decreases d
  {
    var ev := Event(kind, p + q);
    if q == [] {
      assert ev.path == p;
      if EntriesOwe(d, p, 0, ev) > 0 { EntriesOweBelow(d, p, 0, ev); assert false; }
    } else {
      assert p < ev.path;
      OnlyEntryOwes(d, p, 0, q[0], ev);
      if q[0] < |d.entries| { EntryOwesDue(d, p, q, kind); }
    }
  }

  lemma {:induction false} EntryOwesDue(d: Dir, p: Path, q: Path, kind: Kind)
    requires q != [] && q[0] < |d.entries|
    ensures EntryOwes(d.entries[q[0]], p + [q[0]], Event(kind, p + q)) == Due(d, Event(kind, q))
    decreases d, 0
  {
    var e, r := d.entries[q[0]], p + [q[0]];
    assert p + q == r + q[1..];
    assert q[1..] == [] <==> p + q == r;
    if e.SubDir? && e.openable {
      DirOwesDue(e.dir, r, q[1..], kind);
      assert LeadsToDir(d, q) == LeadsToDir(e.dir, q[1..]);
      assert LeadsToFile(d, q) == LeadsToFile(e.dir, q[1..]);
    }
  }

  /** A complete walk owes every reachable openable directory one open, one enumeration and one
      close, every reachable openable file one search, and nothing else. */
  lemma RootOwesDue(root: Dir, ev: Event)
    ensures RootOwes(root, ev) == Due(root, ev)
  {
    DirOwesDue(root, [], ev.path, ev.kind);
    assert [] + ev.path == ev.path;
  }
}
