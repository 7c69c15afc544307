/** The batches `getdents64` returns: records in the `linux_dirent64` layout, and the two loops that walk
    over them by `d_reclen`. */
module Dirents {
  import opened Sequences
  import opened Lines

  type Byte = b: int | 0 <= b < 256

  const DT_DIR: Byte := 4
  const DT_REG: Byte := 8

  // Where the fields of the layout begin, after two of eight bytes.
  const RECLEN: nat := 16
  const TYPE: nat := 18
  const NAME: nat := 19

  const DOT: Byte := 0x2E

  // A record: inode number, offset (as an unsigned word), type, name and the bytes that fill it up.
  datatype Record = Record(ino: nat, off: nat, kind: Byte, name: seq<Byte>, padding: seq<Byte>)

  function RecLen(r: Record): nat {
    NAME + |r.name| + 1 + |r.padding|
  }

  predicate Proper(r: Record) {
    RecLen(r) < 0x1_0000 && forall k :: 0 <= k < |r.name| ==> r.name[k] != 0
  }

  function LittleEndian(value: nat, width: nat): (bytes: seq<Byte>)
    ensures |bytes| == width
  {
    if width == 0 then [] else [value % 256] + LittleEndian(value / 256, width - 1)
  }

  function Header(r: Record): (h: seq<Byte>)
    ensures |h| == NAME
  {
    LittleEndian(r.ino, 8) + LittleEndian(r.off, 8) + LittleEndian(RecLen(r), 2) + [r.kind]
  }

  function Encode(r: Record): (bytes: seq<Byte>)
    ensures |bytes| == RecLen(r)
  {
    Header(r) + r.name + [0] + r.padding
  }

  function EncodeAll(rs: List<Record>): seq<Byte> {
    match rs
    case Nil => []
    case Cons(r, rest) => Encode(r) + EncodeAll(rest)
  }

  predicate AllProper(rs: List<Record>) {
    match rs
    case Nil => true
    case Cons(r, rest) => Proper(r) && AllProper(rest)
  }

  // --- reading the fields ---

  function LengthAt(span: seq<Byte>): nat
    requires |span| >= NAME
  {
    (span[RECLEN] as int) + 256 * (span[RECLEN + 1] as int)
  }

  // Where the C string from `k` on ends.
  function Terminator(span: seq<Byte>, k: nat): (n: nat)
    requires k <= |span|
    ensures k <= n <= |span|
    decreases |span| - k
  {
    if k == |span| || span[k] == 0 then k else Terminator(span, k + 1)
  }

  function NameAt(span: seq<Byte>): seq<Byte>
    requires |span| >= NAME
  {
    span[NAME..Terminator(span, NAME)]
  }

  lemma {:induction false} TerminatorIs(span: seq<Byte>, k: nat, n: nat)
    requires k <= n < |span| && span[n] == 0 && forall i :: k <= i < n ==> span[i] != 0
    ensures Terminator(span, k) == n
    decreases n - k
  {
    if k < n { TerminatorIs(span, k + 1, n); }
  }

  lemma HeaderFields(r: Record)
    requires Proper(r)
    ensures LengthAt(Header(r)) == RecLen(r) && Header(r)[TYPE] == r.kind
  {
    var len := LittleEndian(RecLen(r), 2);
    assert LittleEndian(RecLen(r) / 256, 1)[0] == RecLen(r) / 256 % 256;
    assert Header(r)[RECLEN] == len[0] && Header(r)[RECLEN + 1] == len[1];
  }

  lemma NameField(r: Record, rest: seq<Byte>)
    requires Proper(r)
    ensures NameAt(Encode(r) + rest) == r.name
  {
    var span := Encode(r) + rest;
    var n := NAME + |r.name|;
    assert forall i :: NAME <= i < n ==> span[i] == r.name[i - NAME];
    assert span[n] == 0;
    TerminatorIs(span, NAME, n);
    assert span[NAME..n] == r.name;
  }

  /** A record at the front of a span is read back, whatever follows it, and the next one begins right
      after it. */
  lemma RecordReadBack(r: Record, rest: seq<Byte>)
    requires Proper(r)
    ensures var span := Encode(r) + rest;
            LengthAt(span) == RecLen(r) && span[TYPE] == r.kind && NameAt(span) == r.name && span[RecLen(r)..] == rest
  {
    var span := Encode(r) + rest;
    HeaderFields(r);
    NameField(r, rest);
    assert forall i :: 0 <= i < NAME ==> span[i] == Header(r)[i];
    assert span[RecLen(r)..] == rest;
  }

  /** Where the fields are: the length in bytes 16 and 17, the type in byte 18, the name from byte 19 on up to a
      zero byte. */
  lemma Layout(r: Record)
    requires Proper(r)
    ensures var b := Encode(r);
            (b[16] as int) + 256 * (b[17] as int) == |b| && b[18] == r.kind &&
            b[19..19 + |r.name|] == r.name && b[19 + |r.name|] == 0
  {
    var b := Encode(r);
    HeaderFields(r);
    assert forall i :: 0 <= i < NAME ==> b[i] == Header(r)[i];
    assert b[19..19 + |r.name|] == r.name;
  }

  // --- the walk of the event loop ---

  datatype Call = Call(isFile: bool, name: seq<Byte>)

  function RecordCalls(r: Record): seq<Call> {
    if r.kind == DT_REG || r.kind == DT_DIR then [Call(r.kind == DT_REG, r.name)] else []
  }

  // The calls of the user's handler that a batch causes.
  function HandlerCalls(rs: List<Record>): seq<Call> {
    match rs
    case Nil => []
    case Cons(r, rest) => RecordCalls(r) + HandlerCalls(rest)
  }

  // One turn of the loop on the record at the front of the span.
  method HandleRecord(span: seq<Byte>, ghost r: Record, ghost rest: seq<Byte>) returns (calls: seq<Call>, next: seq<Byte>)
    requires Proper(r) && span == Encode(r) + rest
    ensures calls == RecordCalls(r) && next == rest
  {
    RecordReadBack(r, rest);
    calls := [];
    var isFile, isDir := span[TYPE] == DT_REG, span[TYPE] == DT_DIR;
    if isFile || isDir {
      calls := [Call(isFile, NameAt(span))];
    }
    next := span[LengthAt(span)..];
  }

  method WalkForHandler(buffer: seq<Byte>, ghost records: List<Record>) returns (calls: seq<Call>)
    requires AllProper(records) && buffer == EncodeAll(records)
    ensures calls == HandlerCalls(records)
  {
    calls := [];
    var span := buffer;
    ghost var rest := records;
    while span != []
      invariant AllProper(rest) && span == EncodeAll(rest)
      invariant HandlerCalls(records) == calls + HandlerCalls(rest)
      decreases |span|
    {
      assert rest.Cons?;
      var did, next := HandleRecord(span, rest.head, EncodeAll(rest.tail));
      Assoc(calls, did, HandlerCalls(rest.tail));
      calls, span, rest := calls + did, next, rest.tail;
    }
    assert rest.Nil?;
  }

  // How many of the first `k` records are regular files or directories.
  function FilesAndDirs(rs: List<Record>, k: nat): nat
    requires k <= Length(rs)
  {
    if k == 0 then 0
    else (if rs.head.kind == 8 || rs.head.kind == 4 then 1 else 0) + FilesAndDirs(rs.tail, k - 1)
  }

  /** The handler is called for the regular files (type 8) and the directories (type 4) and for nothing else, in
      the order of the records, with the name and with the flag that tells files from directories. */
  lemma {:induction false} HandlerSees(rs: List<Record>, k: nat)
    requires k < Length(rs)
    ensures |HandlerCalls(rs)| == FilesAndDirs(rs, Length(rs))
    ensures var r, n := Nth(rs, k), FilesAndDirs(rs, k);
            (r.kind == 8 ==> n < |HandlerCalls(rs)| && HandlerCalls(rs)[n] == Call(true, r.name)) &&
            (r.kind == 4 ==> n < |HandlerCalls(rs)| && HandlerCalls(rs)[n] == Call(false, r.name))
    decreases rs
  {
    HandlerCallCount(rs);
    if k > 0 {
      HandlerSees(rs.tail, k - 1);
      assert HandlerCalls(rs) == RecordCalls(rs.head) + HandlerCalls(rs.tail);
    }
  }

  lemma {:induction false} HandlerCallCount(rs: List<Record>)
    ensures |HandlerCalls(rs)| == FilesAndDirs(rs, Length(rs))
  {
    if rs.Cons? { HandlerCallCount(rs.tail); }
  }

  // --- the walk of the parallel search ---

  datatype Action = Open(name: seq<Byte>, directory: bool) | Execute(fd: int) | Close(fd: int)

  predicate Dots(name: seq<Byte>) {
    name == [DOT] || name == [DOT, DOT]
  }

  // What is done for one record when opening it gives `fd`.
  function RecordActions(r: Record, fd: int): seq<Action> {
    if r.kind == DT_DIR then (if Dots(r.name) then [] else [Open(r.name, true)])
    else if r.kind != DT_REG then []
    else if fd < 0 then [Open(r.name, false)]
    else [Open(r.name, false), Execute(fd), Close(fd)]
  }

  function RecordDirs(r: Record, fd: int): seq<int> {
    if r.kind == DT_DIR && !Dots(r.name) && fd >= 0 then [fd] else []
  }

  // `opens(i)` is the result of `openat` for the record of number `i` in the batch.
  function BatchActions(rs: List<Record>, i: nat, opens: nat -> int): seq<Action> {
    match rs
    case Nil => []
    case Cons(r, rest) => RecordActions(r, opens(i)) + BatchActions(rest, i + 1, opens)
  }

  function BatchDirs(rs: List<Record>, i: nat, opens: nat -> int): seq<int> {
    match rs
    case Nil => []
    case Cons(r, rest) => RecordDirs(r, opens(i)) + BatchDirs(rest, i + 1, opens)
  }

  // One turn of the loop on the record at the front of the span.
  method WalkRecord(span: seq<Byte>, fd: int, ghost r: Record, ghost rest: seq<Byte>)
    returns (actions: seq<Action>, dirs: seq<int>, next: seq<Byte>)
    requires Proper(r) && span == Encode(r) + rest
    ensures actions == RecordActions(r, fd) && dirs == RecordDirs(r, fd) && next == rest
  {
    RecordReadBack(r, rest);
    actions, dirs := [], [];
    var name := NameAt(span);
    var isFile, isDir := span[TYPE] == DT_REG, span[TYPE] == DT_DIR;
    if isDir {
      if Dots(name) {
        next := span[LengthAt(span)..];
        return;
      }
      actions := [Open(name, true)];
      if fd < 0 {
        next := span[LengthAt(span)..];
        return;
      }
      dirs := [fd];
    } else if isFile {
      actions := [Open(name, false)];
      if fd < 0 {
        next := span[LengthAt(span)..];
        return;
      }
      actions := actions + [Execute(fd), Close(fd)];
    }
    next := span[LengthAt(span)..];
  }

  method WalkBatch(buffer: seq<Byte>, opens: nat -> int, ghost records: List<Record>)
    returns (actions: seq<Action>, dirs: seq<int>, visited: nat)
    requires AllProper(records) && buffer == EncodeAll(records)
    ensures visited == Length(records)
    ensures actions == BatchActions(records, 0, opens) && dirs == BatchDirs(records, 0, opens)
  {
    actions, dirs, visited := [], [], 0;
    var span := buffer;
    ghost var rest := records;
    while span != []
      invariant AllProper(rest) && span == EncodeAll(rest) && Length(records) == visited + Length(rest)
      invariant BatchActions(records, 0, opens) == actions + BatchActions(rest, visited, opens)
      invariant BatchDirs(records, 0, opens) == dirs + BatchDirs(rest, visited, opens)
      decreases |span|
    {
      assert rest.Cons?;
      var did, found, next := WalkRecord(span, opens(visited), rest.head, EncodeAll(rest.tail));
      Assoc(actions, did, BatchActions(rest.tail, visited + 1, opens));
      Assoc(dirs, found, BatchDirs(rest.tail, visited + 1, opens));
      actions, dirs, span, visited := actions + did, dirs + found, next, visited + 1;
      rest := rest.tail;
    }
    assert rest.Nil?;
  }

  // Where in a batch's actions those for the record of number `k` begin.
  function ActionsBefore(rs: List<Record>, i: nat, opens: nat -> int, k: nat): nat
    requires k <= Length(rs)
  {
    if k == 0 then 0 else |RecordActions(rs.head, opens(i))| + ActionsBefore(rs.tail, i + 1, opens, k - 1)
  }

  predicate OccursAt(all: seq<Action>, at: nat, part: seq<Action>) {
    at + |part| <= |all| && all[at..at + |part|] == part
  }

  lemma OccursFirst(a: seq<Action>, b: seq<Action>)
    ensures OccursAt(a + b, 0, a)
  {
  }

  lemma OccursLater(a: seq<Action>, b: seq<Action>, at: nat, part: seq<Action>)
    requires OccursAt(b, at, part)
    ensures OccursAt(a + b, |a| + at, part)
  {
  }

  lemma {:induction false} ActionsOfRecord(rs: List<Record>, i: nat, opens: nat -> int, k: nat)
    requires k < Length(rs)
    ensures OccursAt(BatchActions(rs, i, opens), ActionsBefore(rs, i, opens, k), RecordActions(Nth(rs, k), opens(i + k)))
    decreases rs
  {
    var head, later := RecordActions(rs.head, opens(i)), BatchActions(rs.tail, i + 1, opens);
    if k == 0 {
      OccursFirst(head, later);
    } else {
      ActionsOfRecord(rs.tail, i + 1, opens, k - 1);
      OccursLater(head, later, ActionsBefore(rs.tail, i + 1, opens, k - 1), RecordActions(Nth(rs, k), opens(i + k)));
    }
  }

  lemma {:induction false} ActionsUpTo(rs: List<Record>, i: nat, opens: nat -> int, k: nat)
    requires k < Length(rs)
    ensures ActionsBefore(rs, i, opens, k + 1) == ActionsBefore(rs, i, opens, k) + |RecordActions(Nth(rs, k), opens(i + k))|
    decreases rs
  {
    if k > 0 { ActionsUpTo(rs.tail, i + 1, opens, k - 1); }
  }

  lemma {:induction false} ActionCount(rs: List<Record>, i: nat, opens: nat -> int)
    ensures |BatchActions(rs, i, opens)| == ActionsBefore(rs, i, opens, Length(rs))
  {
    if rs.Cons? { ActionCount(rs.tail, i + 1, opens); }
  }

  /** Record by record, and nothing besides: a directory (type 4) other than `.` and `..` is opened as one; a
      regular file (type 8) is opened, and if that succeeds searched while it is open and then closed; for
      everything else nothing is done. */
  lemma WhatIsDone(rs: List<Record>, opens: nat -> int, k: nat)
    requires k < Length(rs)
    ensures |BatchActions(rs, 0, opens)| == ActionsBefore(rs, 0, opens, Length(rs))
    ensures var r, from, stop := Nth(rs, k), ActionsBefore(rs, 0, opens, k), ActionsBefore(rs, 0, opens, k + 1);
            from <= stop <= |BatchActions(rs, 0, opens)| &&
            var done := BatchActions(rs, 0, opens)[from..stop];
            (r.kind == 4 && r.name != [0x2E] && r.name != [0x2E, 0x2E] ==> done == [Open(r.name, true)]) &&
            (r.kind == 4 && (r.name == [0x2E] || r.name == [0x2E, 0x2E]) ==> done == []) &&
            (r.kind == 8 && opens(k) >= 0 ==> done == [Open(r.name, false), Execute(opens(k)), Close(opens(k))]) &&
            (r.kind == 8 && opens(k) < 0 ==> done == [Open(r.name, false)]) &&
            (r.kind != 4 && r.kind != 8 ==> done == [])
  {
    ActionsOfRecord(rs, 0, opens, k);
    ActionsUpTo(rs, 0, opens, k);
    ActionCount(rs, 0, opens);
  }

  // A search stands between the opening of a file and its closing.
  predicate Bracketed(actions: seq<Action>, j: nat)
    requires j < |actions|
  {
    actions[j].Execute? ==>
      0 < j && j + 1 < |actions| && actions[j - 1].Open? && !actions[j - 1].directory && actions[j + 1] == Close(actions[j].fd)
  }

  /** Every search runs on a descriptor that has just been opened and is closed right after. */
  lemma {:induction false} SearchedWhileOpen(rs: List<Record>, i: nat, opens: nat -> int, j: nat)
    requires j < |BatchActions(rs, i, opens)|
    ensures Bracketed(BatchActions(rs, i, opens), j)
    decreases rs
  {
    var now, later := RecordActions(rs.head, opens(i)), BatchActions(rs.tail, i + 1, opens);
    assert BatchActions(rs, i, opens) == now + later;
    if j >= |now| { SearchedWhileOpen(rs.tail, i + 1, opens, j - |now|); }
  }

  lemma RecordCounts(r: Record, fd: int, given: int)
    ensures Count(RecordActions(r, fd), Execute(given)) == Count(RecordActions(r, fd), Close(given))
    ensures Count(RecordActions(r, fd), Execute(given)) == if r.kind == DT_REG && fd >= 0 && fd == given then 1 else 0
  {
    var o, e, c := Open(r.name, false), Execute(fd), Close(fd);
    assert [o, e, c][..2] == [o, e] && [o, e][..1] == [o] && [o][..0] == [];
    assert [Open(r.name, true)][..0] == [];
    assert Count([o], Execute(given)) == 0 && Count([o], Close(given)) == 0;
    assert Count([o, e], Execute(given)) == (if fd == given then 1 else 0) && Count([o, e], Close(given)) == 0;
  }

  // How many regular files of the batch were opened with the descriptor `fd`.
  function FilesOpened(rs: List<Record>, i: nat, opens: nat -> int, fd: int): nat {
    match rs
    case Nil => 0
    case Cons(r, rest) =>
      (if r.kind == DT_REG && opens(i) >= 0 && opens(i) == fd then 1 else 0) + FilesOpened(rest, i + 1, opens, fd)
  }

  /** Every regular file that could be opened is searched once and closed once, and nothing else is. */
  lemma {:induction false} FilesSearchedAndClosed(rs: List<Record>, i: nat, opens: nat -> int, fd: int)
    ensures Count(BatchActions(rs, i, opens), Execute(fd)) == FilesOpened(rs, i, opens, fd)
    ensures Count(BatchActions(rs, i, opens), Close(fd)) == FilesOpened(rs, i, opens, fd)
  {
    if rs.Cons? {
      FilesSearchedAndClosed(rs.tail, i + 1, opens, fd);
      RecordCounts(rs.head, opens(i), fd);
      var now, later := RecordActions(rs.head, opens(i)), BatchActions(rs.tail, i + 1, opens);
      CountAppend(now, later, Execute(fd));
      CountAppend(now, later, Close(fd));
    }
  }
}
