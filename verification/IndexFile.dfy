// One file of the log: a table with the end offset of every entry, zero where there
// is none yet, and the data behind it. What a crash can leave on the disk and what
// reading the file again makes of it.
module IndexFile {
  import opened Wrappers

  type Byte = bv8
  type Data = seq<Byte>

  // The file. Offsets count from the start of the data.
  datatype Image = Image(table: seq<nat>, data: Data)

  const MAX_DATASIZE: nat := 0x3FFF_FFFF

  // ---------- Reading the file ----------

  // The first free slot from i on.
  function FirstZero(table: seq<nat>, i: nat): (n: nat)
    requires i <= |table|
    ensures i <= n <= |table| && (n < |table| ==> table[n] == 0)
    ensures forall k :: i <= k < n ==> table[k] > 0
    decreases |table| - i
  {
    if i == |table| || table[i] == 0 then i else FirstZero(table, i + 1)
  }

  function Start(table: seq<nat>, i: nat): nat
    requires i <= |table|
  {
    if i == 0 then 0 else table[i - 1]
  }

  predicate Increasing(table: seq<nat>, n: nat)
    requires n <= |table|
  {
    forall i {:trigger Above(table, i)} :: 0 <= i < n ==> Above(table, i)
  }

  predicate Above(table: seq<nat>, i: nat)
    requires i < |table|
  {
    Start(table, i) < table[i]
  }

  // The file holds the log: its table leads to exactly these entries.
  predicate Holds(f: Image, log: seq<Data>) {
    && |log| <= |f.table| && (|log| < |f.table| ==> f.table[|log|] == 0)
    && Increasing(f.table, |log|)
    && Start(f.table, |log|) <= |f.data|
    && forall i {:trigger EntryAt(f, i, log[i])} :: 0 <= i < |log| ==> EntryAt(f, i, log[i])
  }

  predicate EntryAt(f: Image, i: nat, entry: Data)
    requires i < |f.table|
  {
    Start(f.table, i) <= f.table[i] <= |f.data| && f.data[Start(f.table, i)..f.table[i]] == entry
  }

  // ---------- Writing to the disk ----------

  function Zeroed(table: seq<nat>, from: nat, to: nat): (t: seq<nat>)
    requires from <= to <= |table|
    ensures |t| == |table|
    ensures forall i :: 0 <= i < |t| ==> t[i] == if from <= i < to then 0 else table[i]
  {
    table[..from] + seq(to - from, _ => 0) + table[to..]
  }

  // Bytes written at a position, over what was there.
  function Overwrite(data: Data, at: nat, bytes: Data): (d: Data)
    requires at <= |data|
    ensures |d| >= at + |bytes| && |d| >= |data| && d[..at] == data[..at] && d[at..at + |bytes|] == bytes
  {
    data[..at] + bytes + if at + |bytes| < |data| then data[at + |bytes|..] else []
  }

  // What may be found after a crash in the middle of the write that turns a into b:
  // each table slot old or new, in any mixture; data torn wherever it changes.
  predicate Torn(a: Image, b: Image, f: Image) {
    && |f.table| == |a.table| == |b.table|
    && (forall i :: 0 <= i < |f.table| ==> f.table[i] == a.table[i] || f.table[i] == b.table[i])
    && |a.data| <= |f.data|
    && (forall i :: 0 <= i < |a.data| && i < |b.data| && a.data[i] == b.data[i] ==> f.data[i] == a.data[i])
  }

  // truncate: the entries from `index` on are cleared.
  function Truncated(f: Image, index: nat, n: nat): Image
    requires index <= n <= |f.table|
  {
    f.(table := Zeroed(f.table, index, n))
  }

  // The three writes of an entry at the free slot n: its data, the leftovers of an
  // unfinished truncation right behind it, and its offset.
  function WithData(f: Image, n: nat, entry: Data): Image
    requires n <= |f.table| && Start(f.table, n) <= |f.data|
  {
    f.(data := Overwrite(f.data, Start(f.table, n), entry))
  }

  function Cleared(f: Image, n: nat): Image
    requires n < |f.table|
  {
    f.(table := Zeroed(f.table, n + 1, FirstZero(f.table, n + 1)))
  }

  function Committed(f: Image, n: nat, offset: nat): Image
    requires n < |f.table|
  {
    f.(table := f.table[n := offset])
  }

  // ---------- Crashes ----------

  lemma FirstFree(f: Image, log: seq<Data>)
    requires Holds(f, log)
    ensures FirstZero(f.table, 0) == |log|
  {
    forall i | 0 <= i < |log| ensures f.table[i] > 0 { assert Above(f.table, i); }
  }

  // Reading the file gives its log, whatever else the table and the data hold.
  lemma Unique(f: Image, a: seq<Data>, b: seq<Data>)
    requires Holds(f, a) && Holds(f, b)
    ensures a == b
  {
    FirstFree(f, a);
    FirstFree(f, b);
    forall i | 0 <= i < |a| ensures a[i] == b[i] { assert EntryAt(f, i, a[i]) && EntryAt(f, i, b[i]); }
  }

  lemma {:induction false} Ordered(table: seq<nat>, n: nat)
    requires n <= |table| && Increasing(table, n)
    ensures forall i :: 0 <= i < n ==> table[i] <= Start(table, n)
  {
    if n > 0 {
      Ordered(table, n - 1);
      assert Above(table, n - 1);
    }
  }

  // The first k slots and the data they lead to are those of a.
  predicate SameUpTo(a: Image, f: Image, k: nat)
    requires k <= |a.table|
  {
    && |f.table| == |a.table| && (forall i :: 0 <= i < k ==> f.table[i] == a.table[i])
    && Start(a.table, k) <= |a.data| && Start(a.table, k) <= |f.data|
    && forall i :: 0 <= i < Start(a.table, k) ==> f.data[i] == a.data[i]
  }

  lemma SameEntry(a: Image, f: Image, k: nat, i: nat, entry: Data)
    requires i < k <= |a.table| && SameUpTo(a, f, k) && a.table[i] <= Start(a.table, k) && EntryAt(a, i, entry)
    ensures EntryAt(f, i, entry)
  {
    assert f.data[Start(f.table, i)..f.table[i]] == a.data[Start(a.table, i)..a.table[i]];
  }

  // A table that agrees up to slot k, where it ends, holds the first k entries.
  lemma Prefix(a: Image, log: seq<Data>, f: Image, k: nat)
    requires Holds(a, log) && k <= |log| && SameUpTo(a, f, k) && (k < |f.table| ==> f.table[k] == 0)
    ensures Holds(f, log[..k])
  {
    Ordered(a.table, k);
    forall i | 0 <= i < k ensures EntryAt(f, i, log[i]) && Above(f.table, i) {
      assert EntryAt(a, i, log[i]) && Above(a.table, i);
      SameEntry(a, f, k, i, log[i]);
    }
  }

  // A truncation that is cut short keeps what it was to keep, and perhaps more.
  lemma TruncateTorn(a: Image, log: seq<Data>, index: nat, f: Image) returns (k: nat)
    requires Holds(a, log) && index <= |log| && Torn(a, Truncated(a, index, |log|), f)
    ensures index <= k <= |log| && Holds(f, log[..k])
  {
    k := FirstZero(f.table, 0);
    FirstFree(a, log);
    assert k <= |log| by { if |log| < |f.table| { assert f.table[|log|] == 0; } }
    assert index <= k;
    Ordered(a.table, |log|);
    Prefix(a, log, f, k);
  }

  // The new entry's data are no part of the log yet, however torn they are.
  lemma DataTorn(a: Image, log: seq<Data>, entry: Data, f: Image)
    requires Holds(a, log) && Torn(a, WithData(a, |log|, entry), f)
    ensures Holds(f, log)
  {
    var b := WithData(a, |log|, entry);
    forall i | 0 <= i < Start(a.table, |log|) ensures f.data[i] == a.data[i] {
      assert b.data[i] == b.data[..Start(a.table, |log|)][i];
    }
    Prefix(a, log, f, |log|);
    assert log[..|log|] == log;
  }

  // Clearing behind the free slot changes nothing that is read.
  lemma ClearTorn(a: Image, log: seq<Data>, f: Image)
    requires |log| < |a.table| && Holds(a, log) && Torn(a, Cleared(a, |log|), f)
    ensures Holds(f, log)
  {
    Prefix(a, log, f, |log|);
    assert log[..|log|] == log;
  }

  // The offset makes the entry part of the log, and the slot behind it is free.
  lemma CommitEntry(a: Image, log: seq<Data>, entry: Data)
    requires |log| < |a.table| && Holds(a, log) && |entry| > 0
    requires |log| + 1 < |a.table| ==> a.table[|log| + 1] == 0
    requires var at := Start(a.table, |log|); at + |entry| <= |a.data| && a.data[at..at + |entry|] == entry
    ensures Holds(Committed(a, |log|, Start(a.table, |log|) + |entry|), log + [entry])
  {
    var n := |log|;
    var f := Committed(a, n, Start(a.table, n) + |entry|);
    KeepsEntries(a, log, f);
    OneMore(f, log, entry);
  }

  lemma OneMore(f: Image, log: seq<Data>, entry: Data)
    requires |log| < |f.table| && (|log| + 1 < |f.table| ==> f.table[|log| + 1] == 0)
    requires Increasing(f.table, |log|) && forall i {:trigger EntryAt(f, i, log[i])} :: 0 <= i < |log| ==> EntryAt(f, i, log[i])
    requires EntryAt(f, |log|, entry) && entry != []
    ensures Holds(f, log + [entry])
  {
    forall i | 0 <= i < |log| + 1 ensures EntryAt(f, i, (log + [entry])[i]) && Above(f.table, i) {
      if i < |log| { assert EntryAt(f, i, log[i]); }
    }
  }

  lemma KeepsEntries(a: Image, log: seq<Data>, f: Image)
    requires Holds(a, log) && SameUpTo(a, f, |log|)
    ensures Increasing(f.table, |log|) && forall i {:trigger EntryAt(f, i, log[i])} :: 0 <= i < |log| ==> EntryAt(f, i, log[i])
  {
    Ordered(a.table, |log|);
    forall i | 0 <= i < |log| ensures EntryAt(f, i, log[i]) && Above(f.table, i) {
      assert EntryAt(a, i, log[i]) && Above(a.table, i);
      SameEntry(a, f, |log|, i, log[i]);
    }
  }

  // One slot is written whole or not at all.
  lemma CommitTorn(a: Image, n: nat, offset: nat, f: Image)
    requires n < |a.table| && Torn(a, Committed(a, n, offset), f)
    ensures f.table == a.table || f.table == Committed(a, n, offset).table
  {
  }

  // ---------- Operations ----------

  // Positions count from the first entry of the file.
  datatype Op = Truncate(index: nat) | Write(index: nat, entry: Data)

  // The file has no room for the entry.
  predicate Full(f: Image, index: nat, entry: Data)
    requires index <= |f.table|
  {
    index == |f.table| || Start(f.table, index) + |entry| > MAX_DATASIZE
  }

  // The bytes of all entries.
  function Bytes(log: seq<Data>): nat {
    if log == [] then 0 else Bytes(log[..|log| - 1]) + |log[|log| - 1]|
  }

  lemma {:induction false} StartIsBytes(f: Image, log: seq<Data>, index: nat)
    requires Holds(f, log) && index <= |log|
    ensures Start(f.table, index) == Bytes(log[..index])
  {
    if index > 0 {
      StartIsBytes(f, log, index - 1);
      assert EntryAt(f, index - 1, log[index - 1]);
      assert log[..index][..index - 1] == log[..index - 1];
    }
  }

  // There is room exactly when a slot is free and the data do not get too large.
  lemma FullIff(f: Image, log: seq<Data>, index: nat, entry: Data)
    requires Holds(f, log) && index <= |log|
    ensures Full(f, index, entry) <==> index == |f.table| || Bytes(log[..index]) + |entry| > 0x3FFF_FFFF
  {
    StartIsBytes(f, log, index);
  }

  // An operation goes through one or four stages, one for each write to the disk.
  function Stages(f: Image, op: Op): nat
    requires op.index <= |f.table|
  {
    if op.Truncate? || Full(f, op.index, op.entry) then 1 else 4
  }

  function Kept(f: Image, log: seq<Data>, index: nat): (g: Image)
    requires index <= |log| <= |f.table|
    ensures |g.table| == |f.table| && g.data == f.data
    ensures forall i :: 0 <= i < index ==> g.table[i] == f.table[i]
  {
    if index < |log| then Truncated(f, index, |log|) else f
  }

  // The file after the first i of the writes, in program order.
  function Stage(f: Image, log: seq<Data>, op: Op, i: nat): Image
    requires Holds(f, log) && op.index <= |log| && i <= Stages(f, op)
  {
    var g := Kept(f, log, op.index);
    if i == 0 then f
    else if i == 1 then g
    else
      assert Start(g.table, op.index) <= |g.data| by { Ordered(f.table, |log|); }
      if i == 2 then WithData(g, op.index, op.entry)
      else if i == 3 then Cleared(WithData(g, op.index, op.entry), op.index)
      else Committed(Cleared(WithData(g, op.index, op.entry), op.index), op.index, Start(f.table, op.index) + |op.entry|)
  }

  function LogAfter(f: Image, log: seq<Data>, op: Op): seq<Data>
    requires op.index <= |log| <= |f.table|
  {
    if op.Truncate? || Full(f, op.index, op.entry) then log[..op.index] else log[..op.index] + [op.entry]
  }

  // What a crash may leave of a log: some of what was being truncated may be back,
  // and the entry being written may be missing. Nothing before it is.
  predicate Survives(log: seq<Data>, op: Op, left: seq<Data>)
    requires op.index <= |log|
  {
    || (op.index <= |left| <= |log| && left == log[..|left|])
    || (op.Write? && left == log[..op.index] + [op.entry])
  }

  lemma TruncateHolds(f: Image, log: seq<Data>, index: nat)
    requires Holds(f, log) && index <= |log|
    ensures Holds(Truncated(f, index, |log|), log[..index])
  {
    Ordered(f.table, |log|);
    Prefix(f, log, Truncated(f, index, |log|), index);
  }

  lemma KeptHolds(f: Image, log: seq<Data>, index: nat)
    requires Holds(f, log) && index <= |log|
    ensures Holds(Kept(f, log, index), log[..index])
  {
    if index < |log| { TruncateHolds(f, log, index); } else { assert log[..index] == log; }
  }

  // The whole operation, when nothing goes wrong.
  lemma OperationHolds(f: Image, log: seq<Data>, op: Op)
    requires Holds(f, log) && op.index <= |log| && (op.Write? ==> op.entry != [])
    ensures Holds(Stage(f, log, op, Stages(f, op)), LogAfter(f, log, op))
  {
    KeptHolds(f, log, op.index);
    if Stages(f, op) == 4 {
      WriteHolds(Kept(f, log, op.index), log[..op.index], op.entry);
      LastStage(f, log, op);
    }
  }

  lemma LastStage(f: Image, log: seq<Data>, op: Op)
    requires Holds(f, log) && op.index <= |log| && Stages(f, op) == 4
    ensures Holds(Kept(f, log, op.index), log[..op.index])
    ensures var g := Kept(f, log, op.index);
            && Start(g.table, op.index) == Start(f.table, op.index) <= |g.data|
            && Stage(f, log, op, 4)
               == Committed(Cleared(WithData(g, op.index, op.entry), op.index), op.index,
                            Start(g.table, op.index) + |op.entry|)
  {
    KeptHolds(f, log, op.index);
    Ordered(f.table, |log|);
  }

  lemma WriteHolds(g: Image, kept: seq<Data>, entry: Data)
    requires Holds(g, kept) && |kept| < |g.table| && entry != []
    ensures var c := Cleared(WithData(g, |kept|, entry), |kept|);
            Holds(Committed(c, |kept|, Start(g.table, |kept|) + |entry|), kept + [entry])
  {
    var d := WithData(g, |kept|, entry);
    DataTorn(g, kept, entry, d);
    ClearTorn(d, kept, Cleared(d, |kept|));
    CommitEntry(Cleared(d, |kept|), kept, entry);
  }

  // The file opens after a crash in any write of any operation, and holds what was
  // committed, except what a truncation was just removing.
  lemma CrashSafe(f: Image, log: seq<Data>, op: Op, i: nat, img: Image) returns (left: seq<Data>)
    requires Holds(f, log) && op.index <= |log| && (op.Write? ==> op.entry != [])
    requires i < Stages(f, op) && Torn(Stage(f, log, op, i), Stage(f, log, op, i + 1), img)
    ensures Holds(img, left) && Survives(log, op, left)
  {
    if i == 0 {
      left := KeptTorn(f, log, op.index, img);
    } else {
      KeptHolds(f, log, op.index);
      left := WriteTorn(Kept(f, log, op.index), log[..op.index], op.entry, i, img);
    }
  }

  lemma KeptTorn(f: Image, log: seq<Data>, index: nat, img: Image) returns (left: seq<Data>)
    requires Holds(f, log) && index <= |log| && Torn(f, Kept(f, log, index), img)
    ensures Holds(img, left) && index <= |left| <= |log| && left == log[..|left|]
  {
    assert Truncated(f, |log|, |log|).table == f.table;
    var k := TruncateTorn(f, log, index, img);
    left := log[..k];
  }

  lemma WriteTorn(g: Image, kept: seq<Data>, entry: Data, i: nat, img: Image) returns (left: seq<Data>)
    requires Holds(g, kept) && |kept| < |g.table| && entry != [] && 1 <= i <= 3
    requires var n := |kept|;
             var d := WithData(g, n, entry);
             var c := Cleared(d, n);
             match i
             case 1 => Torn(g, d, img)
             case 2 => Torn(d, c, img)
             case _ => Torn(c, Committed(c, n, Start(g.table, n) + |entry|), img)
    ensures Holds(img, left) && (left == kept || left == kept + [entry])
  {
    var n := |kept|;
    var d := WithData(g, n, entry);
    var c := Cleared(d, n);
    left := kept;
    if i == 1 {
      DataTorn(g, kept, entry, img);
    } else {
      DataTorn(g, kept, entry, d);
      if i == 2 {
        ClearTorn(d, kept, img);
      } else {
        ClearTorn(d, kept, c);
        left := OffsetTorn(c, kept, entry, img);
      }
    }
  }

  lemma SameData(a: Image, b: Image, img: Image)
    requires Torn(a, b, img) && a.data == b.data
    ensures forall i :: 0 <= i < |a.data| ==> img.data[i] == a.data[i]
  {
  }

  lemma OffsetTorn(c: Image, kept: seq<Data>, entry: Data, img: Image) returns (left: seq<Data>)
    requires Holds(c, kept) && |kept| < |c.table| && entry != []
    requires |kept| + 1 < |c.table| ==> c.table[|kept| + 1] == 0
    requires var at := Start(c.table, |kept|); at + |entry| <= |c.data| && c.data[at..at + |entry|] == entry
    requires Torn(c, Committed(c, |kept|, Start(c.table, |kept|) + |entry|), img)
    ensures Holds(img, left) && (left == kept || left == kept + [entry])
  {
    var n, at := |kept|, Start(c.table, |kept|);
    var b := Committed(c, n, at + |entry|);
    SameData(c, b, img);
    if img.table[n] == 0 {
      left := kept;
      Prefix(c, kept, img, n);
      assert kept[..n] == kept;
    } else {
      left := kept + [entry];
      CommitEntry(c, kept, entry);
      Prefix(b, left, img, n + 1);
      assert left[..n + 1] == left;
    }
  }

  // ---------- Runs with any number of crashes ----------

  // readIndexFile: the entries up to the first free slot, unless an offset fails
  // the sanity check or leads past the data.
  function ReadLog(f: Image): (log: Option<seq<Data>>)
    ensures log.Some? ==> Holds(f, log.value)
  {
    var n := FirstZero(f.table, 0);
    if Increasing(f.table, n) && Start(f.table, n) <= |f.data| then
      SlicesHold(f, n);
      Some(Slices(f, n))
    else None
  }

  function Slice(f: Image, i: nat): Data
    requires i < |f.table|
  {
    if Start(f.table, i) <= f.table[i] <= |f.data| then f.data[Start(f.table, i)..f.table[i]] else []
  }

  function Slices(f: Image, n: nat): seq<Data>
    requires n <= |f.table|
  {
    seq(n, i requires 0 <= i < n => Slice(f, i))
  }

  lemma SlicesHold(f: Image, n: nat)
    requires n == FirstZero(f.table, 0) && Increasing(f.table, n) && Start(f.table, n) <= |f.data|
    ensures Holds(f, Slices(f, n))
  {
    Ordered(f.table, n);
    forall i | 0 <= i < n ensures EntryAt(f, i, Slices(f, n)[i]) { assert Above(f.table, i); }
  }

  lemma ReadsIt(f: Image, log: seq<Data>)
    requires Holds(f, log)
    ensures ReadLog(f) == Some(log)
  {
    FirstFree(f, log);
    Unique(f, log, ReadLog(f).value);
  }

  datatype Event = Done(op: Op) | Crashed(op: Op, write: nat, found: Image)

  predicate Possible(f: Image, log: seq<Data>, e: Event)
    requires Holds(f, log)
  {
    && e.op.index <= |log| && (e.op.Write? ==> e.op.entry != [])
    && (e.Crashed? ==>
          e.write < Stages(f, e.op)
          && Torn(Stage(f, log, e.op, e.write), Stage(f, log, e.op, e.write + 1), e.found))
  }

  function After(f: Image, log: seq<Data>, e: Event): Image
    requires Holds(f, log) && Possible(f, log, e)
  {
    match e
    case Done(op) => Stage(f, log, op, Stages(f, op))
    case Crashed(_, _, found) => found
  }

  lemma EventSafe(f: Image, log: seq<Data>, e: Event) returns (left: seq<Data>)
    requires Holds(f, log) && Possible(f, log, e)
    ensures ReadLog(After(f, log, e)) == Some(left)
    ensures if e.Done? then left == LogAfter(f, log, e.op) else Survives(log, e.op, left)
  {
    match e
    case Done(op) =>
      OperationHolds(f, log, op);
      left := LogAfter(f, log, op);
      ReadsIt(After(f, log, e), left);
    case Crashed(op, i, found) =>
      left := CrashSafe(f, log, op, i, found);
      ReadsIt(found, left);
  }

  // Each event is possible in the state the file was read in before it.
  predicate IsRun(f: Image, events: seq<Event>)
    decreases |events|
  {
    events != [] && ReadLog(f).Some? ==>
      Possible(f, ReadLog(f).value, events[0]) && IsRun(After(f, ReadLog(f).value, events[0]), events[1..])
  }

  // The logs read in turn.
  function Logs(f: Image, events: seq<Event>): seq<Option<seq<Data>>>
    requires IsRun(f, events)
    decreases |events|
  {
    if events == [] || ReadLog(f).None? then [ReadLog(f)]
    else [ReadLog(f)] + Logs(After(f, ReadLog(f).value, events[0]), events[1..])
  }

  // What may be read after an event: after a whole operation its log, and otherwise a
  // log that survives.
  predicate Follows(f: Image, log: seq<Data>, e: Event, left: seq<Data>)
    requires Holds(f, log) && e.op.index <= |log|
  {
    if e.Done? then left == LogAfter(f, log, e.op) else Survives(log, e.op, left)
  }

  // The files in turn.
  function Files(f: Image, events: seq<Event>): seq<Image>
    requires IsRun(f, events)
    decreases |events|
  {
    if events == [] || ReadLog(f).None? then [f]
    else [f] + Files(After(f, ReadLog(f).value, events[0]), events[1..])
  }

  // However often operations are cut short, the file can be read every time, and
  // what is read follows from what was read before.
  lemma {:induction false} AlwaysReadable(f: Image, events: seq<Event>)
    requires ReadLog(f).Some? && IsRun(f, events)
    ensures var logs := Logs(f, events);
            var files := Files(f, events);
            && |logs| == |files| == |events| + 1
            && (forall i :: 0 <= i < |logs| ==> logs[i].Some? && Holds(files[i], logs[i].value))
            && forall i :: 0 <= i < |events| ==>
                 events[i].op.index <= |logs[i].value|
                 && Follows(files[i], logs[i].value, events[i], logs[i + 1].value)
    decreases |events|
  {
    if events != [] {
      var log := ReadLog(f).value;
      var left := EventSafe(f, log, events[0]);
      var g := After(f, log, events[0]);
      AlwaysReadable(g, events[1..]);
      var logs, files := Logs(f, events), Files(f, events);
      assert logs[1..] == Logs(g, events[1..]) && files[1..] == Files(g, events[1..]);
      assert logs[1] == Some(left) && files[0] == f;
      forall i | 1 <= i < |logs| ensures logs[i].Some? && Holds(files[i], logs[i].value) {
        assert logs[i] == logs[1..][i - 1] && files[i] == files[1..][i - 1];
      }
      forall i | 1 <= i < |events|
        ensures events[i].op.index <= |logs[i].value|
        ensures Follows(files[i], logs[i].value, events[i], logs[i + 1].value)
      {
        assert events[i] == events[1..][i - 1];
        assert logs[i] == logs[1..][i - 1] && logs[i + 1] == logs[1..][i] && files[i] == files[1..][i - 1];
      }
    }
  }

  // The files after the writes of an operation.
  function Trail(f: Image, log: seq<Data>, op: Op): seq<Image>
    requires Holds(f, log) && op.index <= |log|
  {
    if Stages(f, op) == 1 then [Stage(f, log, op, 1)]
    else [Stage(f, log, op, 1), Stage(f, log, op, 2), Stage(f, log, op, 3), Stage(f, log, op, 4)]
  }

  // The three writes of an entry at the free slot n.
  function Writes(g: Image, n: nat, entry: Data): seq<Image>
    requires n < |g.table| && Start(g.table, n) <= |g.data|
  {
    var d := WithData(g, n, entry);
    var c := Cleared(d, n);
    [d, c, Committed(c, n, Start(g.table, n) + |entry|)]
  }

  lemma SameRoom(f: Image, log: seq<Data>, index: nat, entry: Data)
    requires Holds(f, log) && index <= |log|
    ensures var g := Kept(f, log, index);
            && Start(g.table, index) == Start(f.table, index) <= |g.data|
            && Full(g, index, entry) == Full(f, index, entry)
  {
    Ordered(f.table, |log|);
  }

  lemma WriteTrail(f: Image, log: seq<Data>, index: nat, entry: Data)
    requires Holds(f, log) && index <= |log|
    ensures var g := Kept(f, log, index);
            && Full(g, index, entry) == Full(f, index, entry)
            && Start(g.table, index) <= |g.data|
            && Trail(f, log, Write(index, entry)) == [g] + if Full(f, index, entry) then [] else Writes(g, index, entry)
  {
    SameRoom(f, log, index, entry);
  }

  // ---------- The program's object ----------

  // The next free position, or nothing if the offsets before it do not rise.
  method ReadIndexFile(table: seq<nat>) returns (nextAt: Option<nat>)
    ensures var n := FirstZero(table, 0); nextAt == if Increasing(table, n) then Some(n) else None
  {
    var at, lastOffset := 0, 0;
    while at < |table| && table[at] != 0
      invariant 0 <= at <= |table| && FirstZero(table, 0) == FirstZero(table, at)
      invariant lastOffset == Start(table, at) && Increasing(table, at)
    {
      if table[at] <= lastOffset {
        assert !Above(table, at);
        return None;
      }
      assert Above(table, at);
      lastOffset := table[at];
      at := at + 1;
    }
    return Some(at);
  }

  // The table in memory is an array that follows the one on the disk; `trace` has
  // the file after each stage of the operations so far.
  class IndexFile {
    const capacity: nat
    const offsets: array<nat>
    var nextAt: nat
    var file: Image
    ghost var log: seq<Data>
    ghost var trace: seq<Image>

    ghost predicate Valid()
      reads this, offsets
    {
      && offsets.Length == capacity == |file.table| && offsets[..] == file.table
      && Holds(file, log) && nextAt == |log|
      && trace != [] && trace[|trace| - 1] == file
    }

    // An empty file with room for `size` entries.
    constructor (size: nat)
      ensures Valid() && fresh(offsets) && log == [] && capacity == size && trace == [file]
    {
      capacity, nextAt, log := size, 0, [];
      offsets := new nat[size](_ => 0);
      file := Image(seq(size, _ => 0), []);
      trace := [Image(seq(size, _ => 0), [])];
    }

    // A file that is there already, with whatever a crash left in its table.
    constructor Reopen(f: Image)
      requires ReadLog(f).Some?
      ensures Valid() && fresh(offsets) && file == f && trace == [f]
      ensures log == ReadLog(f).value && capacity == |f.table|
    {
      var at := ReadIndexFile(f.table);
      Unique(f, ReadLog(f).value, ReadLog(f).value);
      FirstFree(f, ReadLog(f).value);
      capacity, nextAt, log := |f.table|, at.value, ReadLog(f).value;
      offsets := new nat[|f.table|](i requires 0 <= i < |f.table| => f.table[i]);
      file := f;
      trace := [f];
    }

    // Clears offsets from `index` on, up to the first that is clear, in memory.
    method Clear(index: nat) returns (count: nat)
      requires index <= offsets.Length
      modifies offsets
      ensures index + count == FirstZero(old(offsets[..]), index)
      ensures offsets[..] == Zeroed(old(offsets[..]), index, index + count)
    {
      var i := index;
      ghost var was := offsets[..];
      while i < offsets.Length && offsets[i] != 0
        invariant index <= i <= offsets.Length && FirstZero(was, index) == FirstZero(was, i)
        invariant offsets[..] == Zeroed(was, index, i)
      {
        offsets[i] := 0;
        i := i + 1;
      }
      count := i - index;
    }

    // truncate(fd, ...): zeroes a range in memory and then on the disk.
    method ZeroRange(index: nat, to: nat)
      requires index <= to <= offsets.Length == |file.table| && offsets[..] == file.table
      modifies offsets, this`file
      ensures offsets[..] == file.table && file == old(file).(table := Zeroed(old(file.table), index, to))
    {
      ghost var was := offsets[..];
      for i := index to to
        invariant offsets[..] == Zeroed(was, index, i) && file == old(file)
      {
        offsets[i] := 0;
      }
      file := file.(table := offsets[..]);
    }

    // The log from `index` on is gone.
    method TruncateLog(index: nat) returns (ok: bool)
      requires Valid()
      modifies this, offsets
      ensures ok <==> index <= old(nextAt)
      ensures Valid()
      ensures !ok ==> log == old(log) && file == old(file) && trace == old(trace)
      ensures ok ==> log == old(log)[..index] && file == Kept(old(file), old(log), index)
      ensures ok ==> trace == old(trace) + Trail(old(file), old(log), Truncate(index))
    {
      if index > nextAt { return false; }
      if index < nextAt {
        ghost var f := file;
        var n := nextAt;
        nextAt := index;
        ZeroRange(index, n);
        TruncateHolds(f, log, index);
      }
      log := log[..index];
      trace := trace + [file];
      return true;
    }

    // clearAndWriteIfDirty
    method ClearIfDirty(index: nat)
      requires index <= offsets.Length == |file.table| && offsets[..] == file.table
      modifies offsets, this`file, this`trace
      ensures offsets[..] == file.table && trace == old(trace) + [file]
      ensures file == old(file).(table := Zeroed(old(file.table), index, FirstZero(old(file.table), index)))
    {
      ghost var was := offsets[..];
      var count := Clear(index);
      if count != 0 { file := file.(table := offsets[..]); } else { assert Zeroed(was, index, index) == was; }
      trace := trace + [file];
    }

    method CommitOffset(index: nat, offset: nat)
      requires index < offsets.Length == |file.table| && offsets[..] == file.table
      modifies offsets, this`file, this`trace
      ensures offsets[..] == file.table && file == Committed(old(file), index, offset) && trace == old(trace) + [file]
    {
      offsets[index] := offset;
      file := file.(table := file.table[index := offset]);
      trace := trace + [file];
    }

    method PutData(entry: Data, position: nat)
      requires position <= |file.data|
      modifies this`file, this`trace
      ensures file == old(file).(data := Overwrite(old(file.data), position, entry)) && trace == old(trace) + [file]
    {
      file := file.(data := Overwrite(file.data, position, entry));
      trace := trace + [file];
    }

    // The three stages of an entry at the end of the log.
    method Store(entry: Data, position: nat)
      requires Valid() && entry != [] && nextAt < capacity && position == Start(file.table, nextAt)
      modifies this, offsets
      ensures Valid() && log == old(log) + [entry]
      ensures trace == old(trace) + Writes(old(file), old(nextAt), entry)
    {
      var n := nextAt;
      ghost var f, t := file, trace;
      WriteHolds(f, log, entry);
      PutData(entry, position);
      ClearIfDirty(n + 1);
      CommitOffset(n, position + |entry|);
      nextAt, log := n + 1, log + [entry];
      assert trace == t + Writes(f, n, entry);
    }

    // An entry at the end of the log, if there is room for it.
    method Place(entry: Data) returns (unwritten: nat)
      requires Valid() && entry != []
      modifies this, offsets
      ensures Valid() && unwritten == if Full(old(file), |old(log)|, entry) then 1 else 0
      ensures log == if unwritten == 0 then old(log) + [entry] else old(log)
      ensures trace == old(trace) + if unwritten == 0 then Writes(old(file), old(nextAt), entry) else []
    {
      Ordered(file.table, nextAt);
      var position := if nextAt > 0 then offsets[nextAt - 1] else 0;
      if nextAt == capacity || position + |entry| > MAX_DATASIZE { return 1; }
      Store(entry, position);
      return 0;
    }

    // write: an entry at `index`, after the log is rolled back to there; the number
    // of unwritten entries, or nothing if the call is rejected.
    method WriteEntry(entry: Data, index: nat) returns (unwritten: Option<nat>)
      requires Valid()
      modifies this, offsets
      ensures Valid()
      ensures unwritten == None <==> entry == [] || index > old(nextAt)
      ensures unwritten == None ==> log == old(log) && trace == old(trace)
      ensures unwritten.Some? ==>
                && (unwritten.value == 0 <==> index < capacity && Bytes(old(log)[..index]) + |entry| <= 0x3FFF_FFFF)
                && log == (if unwritten.value == 0 then old(log)[..index] + [entry] else old(log)[..index])
                && log == LogAfter(old(file), old(log), Write(index, entry))
                && trace == old(trace) + Trail(old(file), old(log), Write(index, entry))
    {
      if entry == [] || index > nextAt { return None; }
      ghost var f, l := file, log;
      var ok := TruncateLog(index);
      WriteTrail(f, l, index, entry);
      FullIff(f, l, index, entry);
      var left := Place(entry);
      return Some(left);
    }
  }
}
