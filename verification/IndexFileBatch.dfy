// Many entries committed at once (writev): safe to be cut short by a crash exactly
// when the table slots they take are clean, that is, hold nothing left over by an
// unfinished truncation.
module IndexFileBatch {
  import opened Wrappers
  import opened Sealing
  import opened IndexFile
  import EntryExtractor

  // The size of the first i entries.
  function Total(es: seq<Data>, i: nat): (t: nat)
    requires i <= |es|
  {
    if i == 0 then 0 else Total(es, i - 1) + |es[i - 1]|
  }

  // The offsets of the entries, the first of which starts at `at`.
  function Offset(at: nat, es: seq<Data>, i: nat): nat
    requires i < |es|
  {
    at + Total(es, i + 1)
  }

  // All offsets are written in one go, after the data.
  function CommittedAll(f: Image, n: nat, at: nat, es: seq<Data>): (g: Image)
    requires n + |es| <= |f.table|
    ensures |g.table| == |f.table| && g.data == f.data
    ensures forall i :: 0 <= i < |g.table| ==>
              g.table[i] == if n <= i < n + |es| then Offset(at, es, i - n) else f.table[i]
  {
    f.(table := f.table[..n] + seq(|es|, i requires 0 <= i < |es| => Offset(at, es, i)) + f.table[n + |es|..])
  }

  // The file is ready for the offsets of es behind its log.
  predicate Ready(f: Image, log: seq<Data>, es: seq<Data>) {
    && Holds(f, log) && |log| + |es| <= |f.table|
    && (forall e :: e in es ==> e != [])
    && (|log| + |es| < |f.table| ==> f.table[|log| + |es|] == 0)
    && var at := Start(f.table, |log|);
    && at + Total(es, |es|) <= |f.data|
    && forall i {:trigger InPlace(f, at, es, i)} :: 0 <= i < |es| ==> InPlace(f, at, es, i)
  }

  predicate InPlace(f: Image, at: nat, es: seq<Data>, i: nat)
    requires i < |es|
  {
    at + Total(es, i) <= Offset(at, es, i) <= |f.data| && f.data[at + Total(es, i)..Offset(at, es, i)] == es[i]
  }

  // Nothing but zero, or the very offset to come, is in the slots to be written
  // behind the first one.
  predicate Clean(f: Image, log: seq<Data>, es: seq<Data>)
    requires |log| + |es| <= |f.table|
  {
    var n, at := |log|, Start(f.table, |log|);
    forall i {:trigger CleanAt(f, n, at, es, i)} :: 0 < i < |es| ==> CleanAt(f, n, at, es, i)
  }

  predicate CleanAt(f: Image, n: nat, at: nat, es: seq<Data>, i: nat)
    requires i < |es| && n + i < |f.table|
  {
    f.table[n + i] == 0 || f.table[n + i] == Offset(at, es, i)
  }

  // Part of the batch, from its beginning.
  ghost predicate SomeOf(f: Image, log: seq<Data>, es: seq<Data>) {
    exists j: nat :: j <= |es| && Holds(f, log + es[..j])
  }

  // A file whose slots behind the log are the first j new offsets, and then free.
  lemma HoldsSome(f: Image, log: seq<Data>, es: seq<Data>, g: Image, j: nat)
    requires Ready(f, log, es) && j <= |es| && SameUpTo(f, g, |log|) && |g.data| >= |f.data|
    requires forall i :: 0 <= i < |f.data| ==> g.data[i] == f.data[i]
    requires var at := Start(f.table, |log|); forall i :: 0 <= i < j ==> g.table[|log| + i] == Offset(at, es, i)
    requires |log| + j < |g.table| ==> g.table[|log| + j] == 0
    ensures Holds(g, log + es[..j])
  {
    var n, at, all := |log|, Start(f.table, |log|), log + es[..j];
    KeepsEntries(f, log, g);
    forall i | 0 <= i < |all| ensures EntryAt(g, i, all[i]) && Above(g.table, i) {
      if i < n {
        assert EntryAt(g, i, log[i]) && Above(g.table, i);
      } else {
        assert InPlace(f, at, es, i - n) && es[i - n] in es;
        assert Start(g.table, i) == at + Total(es, i - n) by {
          if i > n { assert g.table[n + (i - 1 - n)] == Offset(at, es, i - 1 - n); }
        }
        assert g.data[Start(g.table, i)..g.table[i]] == f.data[Start(g.table, i)..g.table[i]];
      }
    }
    if j > 0 { assert EntryAt(g, n + j - 1, all[n + j - 1]); }
  }

  // A slot that is not empty after the crash holds the offset that was written to it.
  lemma CleanSlot(f: Image, log: seq<Data>, es: seq<Data>, img: Image, i: nat)
    requires Ready(f, log, es) && Clean(f, log, es) && i < |es|
    requires Torn(f, CommittedAll(f, |log|, Start(f.table, |log|), es), img)
    ensures img.table[|log| + i] == 0 || img.table[|log| + i] == Offset(Start(f.table, |log|), es, i)
  {
    var g := CommittedAll(f, |log|, Start(f.table, |log|), es);
    assert g.table[|log| + i] == Offset(Start(f.table, |log|), es, i);
    assert img.table[|log| + i] == f.table[|log| + i] || img.table[|log| + i] == g.table[|log| + i];
    if i == 0 {
      assert f.table[|log| + i] == 0;
    } else {
      assert CleanAt(f, |log|, Start(f.table, |log|), es, i);
    }
  }

  lemma CleanEnd(f: Image, log: seq<Data>, es: seq<Data>, img: Image)
    requires Ready(f, log, es) && Torn(f, CommittedAll(f, |log|, Start(f.table, |log|), es), img)
    ensures FirstZero(img.table, |log|) <= |log| + |es|
  {
    var n := |log| + |es|;
    if n < |f.table| {
      assert CommittedAll(f, |log|, Start(f.table, |log|), es).table[n] == f.table[n] == 0;
      assert img.table[n] == 0;
    }
  }

  // The slots behind the log that a reader takes for entries hold new offsets.
  lemma CleanStop(f: Image, log: seq<Data>, es: seq<Data>, img: Image)
    requires Ready(f, log, es) && Clean(f, log, es)
    requires Torn(f, CommittedAll(f, |log|, Start(f.table, |log|), es), img)
    ensures var n, at, stop := |log|, Start(f.table, |log|), FirstZero(img.table, |log|);
            && n <= stop <= n + |es| && (stop < |img.table| ==> img.table[stop] == 0)
            && forall i :: 0 <= i < stop - n ==> img.table[n + i] == Offset(at, es, i)
  {
    CleanEnd(f, log, es, img);
    forall i | 0 <= i < FirstZero(img.table, |log|) - |log|
      ensures img.table[|log| + i] == Offset(Start(f.table, |log|), es, i)
    {
      CleanSlot(f, log, es, img, i);
    }
  }

  // From clean slots, whatever part of the offsets reached the disk, the file opens
  // with the first few of the new entries.
  lemma CleanBatchTorn(f: Image, log: seq<Data>, es: seq<Data>, img: Image)
    requires Ready(f, log, es) && Clean(f, log, es)
    requires Torn(f, CommittedAll(f, |log|, Start(f.table, |log|), es), img)
    ensures SomeOf(img, log, es)
  {
    CleanStop(f, log, es, img);
    HoldsSome(f, log, es, img, FirstZero(img.table, |log|) - |log|);
  }

  // The crash that shows a leftover: everything before it is new, it is still there.
  function Showing(f: Image, log: seq<Data>, es: seq<Data>, i: nat): (g: Image)
    requires |log| + |es| <= |f.table| && i < |es|
    ensures |g.table| == |f.table| && g.data == f.data
    ensures forall k :: 0 <= k < |g.table| ==>
              g.table[k] == if |log| <= k < |log| + i then Offset(Start(f.table, |log|), es, k - |log|) else f.table[k]
  {
    f.(table := f.table[..|log|] + seq(i, k requires 0 <= k < i => Offset(Start(f.table, |log|), es, k)) + f.table[|log| + i..])
  }

  lemma LeftoverShows(f: Image, log: seq<Data>, es: seq<Data>, i: nat)
    requires Ready(f, log, es) && 0 < i < |es|
    requires f.table[|log| + i] != 0 && f.table[|log| + i] != Offset(Start(f.table, |log|), es, i)
    ensures var img := Showing(f, log, es, i);
            && Torn(f, CommittedAll(f, |log|, Start(f.table, |log|), es), img)
            && !SomeOf(img, log, es)
  {
    var n, at, img := |log|, Start(f.table, |log|), Showing(f, log, es, i);
    forall j: nat | j <= |es| ensures !Holds(img, log + es[..j]) {
      if Holds(img, log + es[..j]) { Contradicts(f, log, es, i, j); }
    }
  }

  lemma Contradicts(f: Image, log: seq<Data>, es: seq<Data>, i: nat, j: nat)
    requires Ready(f, log, es) && 0 < i < |es| && j <= |es| && Holds(Showing(f, log, es, i), log + es[..j])
    requires f.table[|log| + i] != 0
    ensures f.table[|log| + i] == Offset(Start(f.table, |log|), es, i)
  {
    var n, at, img := |log|, Start(f.table, |log|), Showing(f, log, es, i);
    FirstFree(img, log + es[..j]);
    NoZero(f, log, es, i);
    assert j > i;
    assert EntryAt(img, n + i, (log + es[..j])[n + i]);
    assert (log + es[..j])[n + i] == es[i];
    assert Start(img.table, n + i) == Offset(at, es, i - 1);
  }

  lemma NoZero(f: Image, log: seq<Data>, es: seq<Data>, i: nat)
    requires Ready(f, log, es) && 0 < i < |es| && f.table[|log| + i] != 0
    ensures FirstZero(Showing(f, log, es, i).table, 0) > |log| + i
  {
    var img := Showing(f, log, es, i);
    FirstFree(f, log);
    forall k | 0 <= k <= |log| + i ensures img.table[k] != 0 {
      if |log| <= k < |log| + i { assert es[k - |log|] in es; }
    }
  }

  // Committing a batch is safe to be cut short if and only if the slots are clean.
  lemma BatchSafeIffClean(f: Image, log: seq<Data>, es: seq<Data>)
    requires Ready(f, log, es)
    ensures (forall img :: Torn(f, CommittedAll(f, |log|, Start(f.table, |log|), es), img) ==> SomeOf(img, log, es))
            <==> Clean(f, log, es)
  {
    if Clean(f, log, es) {
      forall img | Torn(f, CommittedAll(f, |log|, Start(f.table, |log|), es), img) ensures SomeOf(img, log, es) {
        CleanBatchTorn(f, log, es, img);
      }
    } else {
      var n, at := |log|, Start(f.table, |log|);
      var i :| 0 < i < |es| && !CleanAt(f, n, at, es, i);
      LeftoverShows(f, log, es, i);
    }
  }

  // Such slots do arise: a truncation that is cut short after its first slot leaves a
  // file that opens with the shorter log, and behind it an offset of what was truncated.
  lemma TornTruncationIsDirty(f: Image, log: seq<Data>, index: nat, es: seq<Data>) returns (img: Image)
    requires Holds(f, log) && index + 2 <= |log| && |es| >= 2 && index + |es| <= |f.table|
    requires f.table[index + 1] != Offset(Start(f.table, index), es, 1)
    ensures Torn(f, Truncated(f, index, |log|), img)
    ensures Holds(img, log[..index]) && !Clean(img, log[..index], es)
  {
    Ordered(f.table, |log|);
    img := f.(table := f.table[index := 0]);
    Prefix(f, log, img, index);
    assert img.table[|log[..index]| + 1] == f.table[index + 1];
    assert Above(f.table, index + 1);
    assert Start(img.table, index) == Start(f.table, index);
    assert !CleanAt(img, |log[..index]|, Start(img.table, index), es, 1);
  }

  // ---------- The whole of writev ----------

  // A batch that fits, to be written at `index`.
  predicate Fits(f: Image, log: seq<Data>, index: nat, es: seq<Data>) {
    && Holds(f, log) && index <= |log| && es != [] && index + |es| <= |f.table|
    && forall e :: e in es ==> e != []
  }

  // The file after the first i of its writes: the log is rolled back to `index`, the data
  // are written, leftovers right behind the batch are cleared, and all offsets are written.
  function BatchStage(f: Image, log: seq<Data>, index: nat, es: seq<Data>, i: nat): Image
    requires Fits(f, log, index, es) && i <= 4
  {
    var g := Kept(f, log, index);
    if i == 0 then f
    else if i == 1 then g
    else
      assert Start(g.table, index) <= |g.data| by { Ordered(f.table, |log|); }
      var d := WithData(g, index, EntryExtractor.Concat(es));
      var c := Cleared(d, index + |es| - 1);
      if i == 2 then d else if i == 3 then c else CommittedAll(c, index, Start(g.table, index), es)
  }

  // What a crash in it may leave: part of the log from `index` on may be back, or the
  // first few entries of the batch may be there.
  ghost predicate Survived(img: Image, log: seq<Data>, index: nat, es: seq<Data>)
    requires index <= |log|
  {
    || (exists k: nat :: index <= k <= |log| && Holds(img, log[..k]))
    || SomeOf(img, log[..index], es)
  }

  lemma {:induction false} TotalIs(es: seq<Data>, i: nat)
    requires i <= |es|
    ensures |EntryExtractor.Concat(es[..i])| == Total(es, i)
  {
    if i > 0 {
      TotalIs(es, i - 1);
      EntryExtractor.ConcatMore(es, 0, i - 1);
      assert es[0..i] == es[..i] && es[0..i - 1] == es[..i - 1];
    }
  }

  // A batch written in one piece has its entries in their places.
  lemma Pieces(es: seq<Data>, i: nat)
    requires i < |es|
    ensures |EntryExtractor.Concat(es)| == Total(es, |es|) && Total(es, i) <= Total(es, i + 1) <= Total(es, |es|)
    ensures EntryExtractor.Concat(es)[Total(es, i)..Total(es, i + 1)] == es[i]
  {
    TotalIs(es, i);
    TotalIs(es, |es|);
    EntryExtractor.Three(es, i, i + 1);
    EntryExtractor.Single(es, i);
    assert es[0..i] == es[..i] && es[..|es|] == es;
  }

  // The data of the batch are written and the log is what was kept of it.
  lemma DataWritten(f: Image, log: seq<Data>, index: nat, es: seq<Data>)
    requires Fits(f, log, index, es)
    ensures Holds(BatchStage(f, log, index, es, 1), log[..index])
    ensures Holds(BatchStage(f, log, index, es, 2), log[..index])
    ensures Start(Kept(f, log, index).table, index) <= |Kept(f, log, index).data|
    ensures Torn(BatchStage(f, log, index, es, 1), BatchStage(f, log, index, es, 2), BatchStage(f, log, index, es, 2))
  {
    KeptHolds(f, log, index);
    DataTorn(Kept(f, log, index), log[..index], EntryExtractor.Concat(es), BatchStage(f, log, index, es, 2));
  }

  // Clearing behind the batch changes nothing that is read, however far it came.
  lemma BehindTorn(d: Image, log: seq<Data>, n: nat, img: Image)
    requires Holds(d, log) && |log| <= n < |d.table| && Torn(d, Cleared(d, n), img)
    ensures Holds(img, log)
  {
    Prefix(d, log, img, |log|);
    assert log[..|log|] == log;
  }

  // Every batch comes to the point where its offsets are written, and the slots they go
  // to are as clean as they were when the log was rolled back.
  lemma BatchReady(f: Image, log: seq<Data>, index: nat, es: seq<Data>)
    requires Fits(f, log, index, es)
    ensures Ready(BatchStage(f, log, index, es, 3), log[..index], es)
    ensures Clean(BatchStage(f, log, index, es, 3), log[..index], es) <==> Clean(Kept(f, log, index), log[..index], es)
  {
    var g, d, c := Kept(f, log, index), BatchStage(f, log, index, es, 2), BatchStage(f, log, index, es, 3);
    DataWritten(f, log, index, es);
    BehindTorn(d, log[..index], index + |es| - 1, c);
    var at := Start(g.table, index);
    assert Start(c.table, index) == at;
    Pieces(es, 0);
    forall i {:trigger InPlace(c, at, es, i)} | 0 <= i < |es| ensures InPlace(c, at, es, i) { Placed(c, at, es, i); }
    forall i | 0 < i < |es|
      ensures CleanAt(c, index, at, es, i) <==> CleanAt(g, index, at, es, i)
    {
    }
  }

  lemma Placed(c: Image, at: nat, es: seq<Data>, i: nat)
    requires i < |es| && at + |EntryExtractor.Concat(es)| <= |c.data|
    requires c.data[at..at + |EntryExtractor.Concat(es)|] == EntryExtractor.Concat(es)
    ensures InPlace(c, at, es, i)
  {
    Pieces(es, i);
    Inside(c.data, at, EntryExtractor.Concat(es), Total(es, i), Total(es, i + 1));
  }

  lemma Inside(data: Data, at: nat, all: Data, x: nat, y: nat)
    requires at + |all| <= |data| && data[at..at + |all|] == all && x <= y <= |all|
    ensures data[at + x..at + y] == all[x..y]
  {
    forall i | 0 <= i < y - x ensures data[at + x..at + y][i] == all[x..y][i] {
      assert data[at..at + |all|][x + i] == all[x + i];
    }
  }

  // A crash before the offsets are written does no harm.
  lemma EarlyTorn(f: Image, log: seq<Data>, index: nat, es: seq<Data>, i: nat, img: Image)
    requires Fits(f, log, index, es) && i < 3
    requires Torn(BatchStage(f, log, index, es, i), BatchStage(f, log, index, es, i + 1), img)
    ensures Survived(img, log, index, es)
  {
    if i == 0 {
      var left := KeptTorn(f, log, index, img);
    } else {
      DataWritten(f, log, index, es);
      if i == 1 {
        DataTorn(BatchStage(f, log, index, es, 1), log[..index], EntryExtractor.Concat(es), img);
      } else {
        BehindTorn(BatchStage(f, log, index, es, 2), log[..index], index + |es| - 1, img);
      }
    }
  }

  // A batch is safe to be cut short anywhere if and only if the slots for its offsets are
  // clean when the log was rolled back.
  lemma BatchSafe(f: Image, log: seq<Data>, index: nat, es: seq<Data>)
    requires Fits(f, log, index, es)
    ensures (forall i, img :: 0 <= i < 4 && Torn(BatchStage(f, log, index, es, i), BatchStage(f, log, index, es, i + 1), img)
               ==> Survived(img, log, index, es))
            <==> Clean(Kept(f, log, index), log[..index], es)
  {
    BatchReady(f, log, index, es);
    var c := BatchStage(f, log, index, es, 3);
    if Clean(c, log[..index], es) {
      forall i, img | 0 <= i < 4 && Torn(BatchStage(f, log, index, es, i), BatchStage(f, log, index, es, i + 1), img)
        ensures Survived(img, log, index, es)
      {
        if i < 3 { EarlyTorn(f, log, index, es, i, img); } else { CleanBatchTorn(c, log[..index], es, img); }
      }
    } else {
      var img := LateTorn(f, log, index, es);
    }
  }

  // The crash that does harm to a batch on slots that are not clean.
  lemma LateTorn(f: Image, log: seq<Data>, index: nat, es: seq<Data>) returns (img: Image)
    requires Fits(f, log, index, es) && !Clean(Kept(f, log, index), log[..index], es)
    ensures Torn(BatchStage(f, log, index, es, 3), BatchStage(f, log, index, es, 4), img)
    ensures !Survived(img, log, index, es)
  {
    var i;
    img, i := CommitTornAt(f, log, index, es);
    LastBatchStage(f, log, index, es);
    BehindLog(f, log, index, es, i);
    TooLong(img, log, index, es);
  }

  lemma LastBatchStage(f: Image, log: seq<Data>, index: nat, es: seq<Data>)
    requires Fits(f, log, index, es)
    ensures var c := BatchStage(f, log, index, es, 3);
            |c.table| == |f.table| && BatchStage(f, log, index, es, 4) == CommittedAll(c, index, Start(c.table, index), es)
  {
  }

  lemma CommitTornAt(f: Image, log: seq<Data>, index: nat, es: seq<Data>) returns (img: Image, i: nat)
    requires Fits(f, log, index, es) && !Clean(Kept(f, log, index), log[..index], es)
    ensures var c := BatchStage(f, log, index, es, 3);
            && |c.table| == |f.table| && Torn(c, CommittedAll(c, index, Start(c.table, index), es), img)
            && 0 < i < |es| && c.table[index + i] != 0
    ensures !SomeOf(img, log[..index], es) && FirstZero(img.table, 0) > index + i
  {
    Prepared(f, log, index, es);
    LastBatchStage(f, log, index, es);
    img, i := NoPartOf(BatchStage(f, log, index, es, 3), log[..index], es);
  }

  // Ready for offsets on slots that are not clean, sealed.
  ghost predicate AtRisk(c: Image, log: seq<Data>, es: seq<Data>) {
    |log| + |es| <= |c.table| && forall key {:trigger Turns(key)} :: Turns(key) ==> Ready(c, log, es) && !Clean(c, log, es)
  }

  lemma Prepared(f: Image, log: seq<Data>, index: nat, es: seq<Data>)
    requires Fits(f, log, index, es) && !Clean(Kept(f, log, index), log[..index], es)
    ensures AtRisk(BatchStage(f, log, index, es, 3), log[..index], es)
  {
    BatchReady(f, log, index, es);
  }

  lemma NoPartOf(c: Image, log: seq<Data>, es: seq<Data>) returns (img: Image, i: nat)
    requires AtRisk(c, log, es)
    ensures Torn(c, CommittedAll(c, |log|, Start(c.table, |log|), es), img)
    ensures 0 < i < |es| && c.table[|log| + i] != 0
    ensures !SomeOf(img, log, es) && FirstZero(img.table, 0) > |log| + i
  {
    assert Turns(TheKey);
    i := Leftover(c, log, es);
    img := Showing(c, log, es, i);
    LeftoverShows(c, log, es, i);
    NoZero(c, log, es, i);
  }

  lemma TooLong(img: Image, log: seq<Data>, index: nat, es: seq<Data>)
    requires index <= |log| < FirstZero(img.table, 0) && !SomeOf(img, log[..index], es)
    ensures !Survived(img, log, index, es)
  {
    forall k: nat | index <= k <= |log| ensures !Holds(img, log[..k]) {
      if Holds(img, log[..k]) { FirstFree(img, log[..k]); }
    }
  }

  lemma Leftover(c: Image, log: seq<Data>, es: seq<Data>) returns (i: nat)
    requires |log| + |es| <= |c.table| && !Clean(c, log, es)
    ensures 0 < i < |es| && c.table[|log| + i] != 0 && c.table[|log| + i] != Offset(Start(c.table, |log|), es, i)
  {
    i :| 0 < i < |es| && !CleanAt(c, |log|, Start(c.table, |log|), es, i);
  }

  // What is not clear lies behind the log, for the rest of it was cleared by the roll back.
  lemma BehindLog(f: Image, log: seq<Data>, index: nat, es: seq<Data>, i: nat)
    requires Fits(f, log, index, es) && i < |es| && BatchStage(f, log, index, es, 3).table[index + i] != 0
    ensures index + i >= |log|
  {
  }

  // A run of the program that comes to harm: a truncation is cut short, the file is opened
  // again, and holds the shorter log as it should; and then a batch is cut short.
  lemma DirtyBatchIsReached(f: Image, log: seq<Data>, index: nat, es: seq<Data>) returns (img: Image, found: Image)
    requires Holds(f, log) && index + 2 <= |log| && |es| >= 2 && index + |es| <= |f.table|
    requires f.table[index + 1] != Offset(Start(f.table, index), es, 1)
    requires forall e :: e in es ==> e != []
    ensures IsRun(f, [Crashed(Truncate(index), 0, img)])
    ensures ReadLog(f) == Some(log) && ReadLog(img) == Some(log[..index]) && Fits(img, log[..index], index, es)
    ensures Torn(BatchStage(img, log[..index], index, es, 3), BatchStage(img, log[..index], index, es, 4), found)
    ensures !Survived(found, log[..index], index, es)
  {
    img := TornTruncationIsDirty(f, log, index, es);
    ReadsIt(f, log);
    ReadsIt(img, log[..index]);
    found := LateTorn(img, log[..index], index, es);
  }
}
