// The log kept in many files. Whatever it does with its files, FileLog is one
// sequence of entries: appending at an index, across file boundaries and after
// deleting files, is truncating that sequence and extending it.
module FileLog {
  import opened Wrappers

  // An entry as far as the log looks at it: its term, and how much room it takes.
  datatype Record = Record(term: nat, size: nat, data: int)

  // An index file: it holds `capacity` entries from index `first` on, or the first
  // few of them.
  datatype Segment = Segment(first: nat, capacity: nat, entries: seq<Record>) {
    function Next(): nat { first + |entries| }

    function Stop(): nat { first + capacity }

    predicate Includes(index: nat) { first <= index < Next() }

    predicate Allowed(index: nat) { first <= index < Stop() }
  }

  // Indexes whose file names share a directory (INDEX_PATH_PREFIX_LENGTH).
  const DIRECTORY: nat := 0x10_0000

  // ---------- Files as one sequence ----------

  // The entries of all files, one after the other.
  function Flatten(files: seq<Segment>): seq<Record> {
    if files == [] then [] else Flatten(files[..|files| - 1]) + files[|files| - 1].entries
  }

  // Files follow one another; all but the last are full.
  predicate Chained(files: seq<Segment>) {
    && (forall k {:trigger FileOk(files[k])} :: 0 <= k < |files| ==> FileOk(files[k]))
    && (forall k {:trigger Linked(files, k)} :: 0 <= k < |files| - 1 ==> Linked(files, k))
  }

  predicate FileOk(f: Segment) { 0 < f.capacity && |f.entries| <= f.capacity }

  // Files end at multiples of the configured capacity, which divides a directory's.
  predicate Aligned(files: seq<Segment>, unit: nat) {
    && (forall k {:trigger EndsAt(files[k], unit)} :: 0 <= k < |files| ==> EndsAt(files[k], unit))
    && forall n {:trigger Divides(unit, n)} :: n == DIRECTORY ==> Divides(unit, n)
  }

  predicate EndsAt(f: Segment, unit: nat) { unit > 0 && f.capacity == unit - f.first % unit }

  predicate Divides(unit: nat, n: nat) { unit > 0 && n % unit == 0 }

  predicate Linked(files: seq<Segment>, k: nat)
    requires k + 1 < |files|
  {
    |files[k].entries| == files[k].capacity && files[k + 1].first == files[k].Stop()
  }

  // The files hold the log c: every file has the part of it that belongs there.
  predicate Holds(files: seq<Segment>, c: seq<Record>) {
    && files != [] && Chained(files)
    && files[|files| - 1].Next() - files[0].first == |c|
    && forall k {:trigger Shelved(files, c, k)} :: 0 <= k < |files| ==> Shelved(files, c, k)
  }

  predicate Shelved(files: seq<Segment>, c: seq<Record>, k: nat)
    requires k < |files|
  {
    var b, f := files[0].first, files[k];
    b <= f.first && f.Next() - b <= |c| && c[f.first - b..f.Next() - b] == f.entries
  }

  // There is only one such log.
  lemma {:induction false} HoldsFlatten(files: seq<Segment>, c: seq<Record>)
    requires Holds(files, c)
    ensures c == Flatten(files)
    decreases |files|
  {
    var n, b := |files| - 1, files[0].first;
    assert Shelved(files, c, n);
    if n > 0 {
      WithoutLast(files, c);
      HoldsFlatten(files[..n], c[..files[n].first - b]);
    }
  }

  // ---------- Searching ----------

  // bSearch: the largest number not above the one searched for.
  method BSearch(sorted: seq<nat>, searched: nat) returns (found: Option<nat>)
    requires forall i, j :: 0 <= i < j < |sorted| ==> sorted[i] < sorted[j]
    ensures found == None <==> forall x :: x in sorted ==> x > searched
    ensures found.Some? ==> found.value in sorted && found.value <= searched
    ensures found.Some? ==> forall x :: x in sorted && x <= searched ==> x <= found.value
  {
    if |sorted| == 0 { return None; }
    var lo, hi := 0, |sorted| - 1;
    var mid := (lo + hi + 1) / 2;
    while lo < hi
      invariant 0 <= lo <= hi < |sorted| && mid == (lo + hi + 1) / 2
      invariant lo > 0 ==> sorted[lo] <= searched
      invariant hi < |sorted| - 1 ==> searched < sorted[hi + 1]
    {
      if sorted[mid] > searched { hi := mid - 1; } else { lo := mid; }
      mid := (lo + hi + 1) / 2;
    }
    assert sorted[mid] in sorted;
    if searched >= sorted[mid] { return Some(sorted[mid]); }
    return None;
  }

  // ---------- Fitting into a buffer ----------

  function Size(entries: seq<Record>): nat {
    if entries == [] then 0 else Size(entries[..|entries| - 1]) + entries[|entries| - 1].size
  }

  lemma {:induction false} SizeGrows(entries: seq<Record>, j: nat, k: nat)
    requires j <= k <= |entries|
    ensures Size(entries[..j]) <= Size(entries[..k])
    decreases k - j
  {
    if j < k {
      SizeGrows(entries, j, k - 1);
      assert entries[..k][..k - 1] == entries[..k - 1];
    }
  }

  // The end offsets of the entries, as the index file has them.
  function Ends(entries: seq<Record>): seq<nat> {
    seq(|entries|, k requires 0 <= k < |entries| => Size(entries[..k + 1]))
  }

  // countEntriesFitSize: how many of the first entries fit into so many bytes.
  method CountFitting(ends: seq<nat>, maxLength: nat) returns (count: nat)
    requires |ends| > 0 && forall i, j :: 0 <= i <= j < |ends| ==> ends[i] <= ends[j]
    ensures count <= |ends| && (count > 0 ==> ends[count - 1] <= maxLength)
    ensures count < |ends| ==> ends[count] > maxLength
  {
    count := |ends|;
    var size := ends[count - 1];
    if size > maxLength {
      var lo, hi := 1, count - 1;
      count := (lo + hi + 1) / 2;
      size := ends[count - 1];
      while lo < hi
        invariant 1 <= lo <= hi + 1 && 0 <= hi < |ends| && (lo > hi ==> lo == 1)
        invariant count == (lo + hi + 1) / 2 && size == ends[count - 1]
        invariant lo > 1 ==> ends[lo - 1] <= maxLength
        invariant ends[hi] > maxLength
      {
        if size > maxLength { hi := count - 1; } else { lo := count; }
        count := (lo + hi + 1) / 2;
        size := ends[count - 1];
      }
      if size > maxLength { return 0; }
    }
  }

  // ---------- Changing the files ----------

  // The entries of a file are where its indexes say.
  lemma InFile(files: seq<Segment>, c: seq<Record>, k: nat, from: nat, to: nat)
    requires Holds(files, c) && k < |files| && files[k].first <= from <= to <= files[k].Next()
    ensures files[0].first <= from && to - files[0].first <= |c|
    ensures c[from - files[0].first..to - files[0].first] == files[k].entries[from - files[k].first..to - files[k].first]
  {
    var b, f, n := files[0].first, files[k].first, files[k].Next();
    assert Shelved(files, c, k);
    SliceOfSlice(c, f - b, n - b, from - f, to - f);
  }

  // The last index of file k that is not past `last`.
  lemma InCapacity(files: seq<Segment>, c: seq<Record>, k: nat, index: nat, last: nat)
    requires Holds(files, c) && k < |files| && files[k].Includes(index) && index <= last
    requires last - files[0].first < |c|
    ensures index <= (if files[k].Stop() - 1 < last then files[k].Stop() - 1 else last) < files[k].Next()
  {
    assert FileOk(files[k]);
    if k < |files| - 1 { assert Linked(files, k); }
  }

  lemma SlicePrefix(c: seq<Record>, n: nat, x: nat, y: nat)
    requires x <= y <= n <= |c|
    ensures c[..n][x..y] == c[x..y]
  {
  }

  lemma SliceLonger(c: seq<Record>, more: seq<Record>, x: nat, y: nat)
    requires x <= y <= |c|
    ensures (c + more)[x..y] == c[x..y]
  {
  }

  lemma WithoutLast(files: seq<Segment>, c: seq<Record>)
    requires |files| > 1 && Holds(files, c)
    ensures var n, b := |files| - 1, files[0].first;
            && b < files[n].first == files[n - 1].Next() && files[n].first - b <= |c| && files[n - 1].entries != []
            && Holds(files[..n], c[..files[n].first - b])
  {
    var n, b := |files| - 1, files[0].first;
    assert Linked(files, n - 1) && FileOk(files[n - 1]) && Shelved(files, c, n) && Shelved(files, c, n - 1);
    var less, d := files[..n], c[..files[n].first - b];
    forall k | 0 <= k < n ensures FileOk(less[k]) { assert FileOk(files[k]); }
    forall k | 0 <= k < n - 1 ensures Linked(less, k) { assert Linked(files, k); }
    forall k | 0 <= k < n ensures Shelved(less, d, k) {
      assert Shelved(files, c, k);
      Sorted(files, k, n);
      assert FileOk(files[k]);
      SlicePrefix(c, files[n].first - b, files[k].first - b, files[k].Next() - b);
    }
  }

  // The last file replaced by one with other entries.
  lemma ReplaceLast(files: seq<Segment>, c: seq<Record>, es: seq<Record>, d: seq<Record>)
    requires Holds(files, c) && |es| <= files[|files| - 1].capacity
    requires files[0].first <= files[|files| - 1].first && files[|files| - 1].first - files[0].first <= |c|
    requires d == c[..files[|files| - 1].first - files[0].first] + es
    ensures var n := |files| - 1; Holds(files[..n] + [files[n].(entries := es)], d)
  {
    var n, b := |files| - 1, files[0].first;
    var more, at := files[..n] + [files[n].(entries := es)], files[n].first - b;
    assert FileOk(files[n]);
    forall k | 0 <= k < |more| ensures FileOk(more[k]) { if k < n { assert FileOk(files[k]); } }
    forall k | 0 <= k < |more| - 1 ensures Linked(more, k) { assert Linked(files, k); }
    forall k | 0 <= k < |more| ensures Shelved(more, d, k) {
      if k < n {
        assert Shelved(files, c, k) && FileOk(files[k]);
        Sorted(files, k, n);
        SlicePrefix(c, at, files[k].first - b, files[k].Next() - b);
        SliceLonger(c[..at], es, files[k].first - b, files[k].Next() - b);
      }
    }
  }

  lemma CutLast(files: seq<Segment>, c: seq<Record>, index: nat)
    requires Holds(files, c) && files[|files| - 1].first <= index <= files[|files| - 1].Next()
    ensures var n := |files| - 1;
            var f, b := files[n], files[0].first;
            && b <= index && index - b <= |c|
            && Holds(files[..n] + [f.(entries := f.entries[..index - f.first])], c[..index - b])
  {
    var n, b := |files| - 1, files[0].first;
    var f := files[n];
    assert Shelved(files, c, n) && FileOk(f);
    InFile(files, c, n, f.first, index);
    assert c[..index - b] == c[..f.first - b] + c[f.first - b..index - b];
    ReplaceLast(files, c, f.entries[..index - f.first], c[..index - b]);
  }

  lemma ExtendLast(files: seq<Segment>, c: seq<Record>, es: seq<Record>)
    requires Holds(files, c) && |files[|files| - 1].entries| + |es| <= files[|files| - 1].capacity
    ensures var n := |files| - 1; Holds(files[..n] + [files[n].(entries := files[n].entries + es)], c + es)
  {
    var n, b := |files| - 1, files[0].first;
    var f := files[n];
    assert Shelved(files, c, n);
    assert c == c[..f.first - b] + f.entries;
    assert c + es == c[..f.first - b] + (f.entries + es);
    ReplaceLast(files, c, f.entries + es, c + es);
  }

  lemma AddFile(files: seq<Segment>, c: seq<Record>, f: Segment)
    requires Holds(files, c) && |files[|files| - 1].entries| == files[|files| - 1].capacity
    requires f.first == files[|files| - 1].Stop() && f.capacity > 0 && f.entries == []
    ensures Holds(files + [f], c) && |files[|files| - 1].entries| > 0
  {
    var more, n := files + [f], |files|;
    assert FileOk(files[n - 1]) && Shelved(files, c, n - 1);
    forall k | 0 <= k < |more| ensures FileOk(more[k]) { if k < n { assert FileOk(files[k]); } }
    forall k | 0 <= k < |more| - 1 ensures Linked(more, k) { if k < n - 1 { assert Linked(files, k); } }
    forall k | 0 <= k < |more| ensures Shelved(more, c, k) { if k < n { assert Shelved(files, c, k); } }
  }

  // The term of the entry before `index`, in the last file.
  lemma TermInLast(files: seq<Segment>, c: seq<Record>, index: nat)
    requires Holds(files, c) && index > 0
    requires files[|files| - 1].first <= index - 1 < files[|files| - 1].Next()
    ensures var f, b := files[|files| - 1], files[0].first;
            b <= index - 1 && index - 1 - b < |c| && c[index - 1 - b] == f.entries[index - 1 - f.first]
  {
    var f, b := files[|files| - 1], files[0].first;
    assert Shelved(files, c, |files| - 1);
    assert c[f.first - b..f.Next() - b][index - 1 - f.first] == c[index - 1 - b];
  }

  lemma StillAligned(files: seq<Segment>, unit: nat, less: seq<Segment>)
    requires Aligned(files, unit) && |less| <= |files|
    requires forall k :: 0 <= k < |less| ==> less[k].first == files[k].first && less[k].capacity == files[k].capacity
    ensures Aligned(less, unit)
  {
    forall k | 0 <= k < |less| ensures EndsAt(less[k], unit) { assert EndsAt(files[k], unit); }
  }

  lemma AlignedMore(files: seq<Segment>, unit: nat, f: Segment)
    requires Aligned(files, unit) && EndsAt(f, unit)
    ensures Aligned(files + [f], unit)
  {
    forall k | 0 <= k < |files| + 1 ensures EndsAt((files + [f])[k], unit) {
      if k < |files| { assert EndsAt(files[k], unit); }
    }
  }

  lemma SliceOfSlice(s: seq<Record>, x: nat, y: nat, u: nat, v: nat)
    requires x <= y <= |s| && u <= v <= y - x
    ensures s[x..y][u..v] == s[x + u..x + v]
  {
    forall i | 0 <= i < v - u ensures s[x..y][u..v][i] == s[x + u..x + v][i] {
      assert s[x..y][u + i] == s[x + u + i];
    }
  }

  // The entries from x up to `at` are in the buffer.
  predicate Filled(c: seq<Record>, x: nat, at: nat, got: seq<Record>, length: nat) {
    x <= at <= |c| && got == c[x..at] && Size(got) <= length
  }

  // es are the next entries from `at` on, before y.
  predicate Upcoming(c: seq<Record>, at: int, y: int, es: seq<Record>) {
    0 <= at < y <= |c| && es != [] && at + |es| <= y && es == c[at..at + |es|]
  }

  // Of the next entries not even the first fits.
  predicate NotFitting(c: seq<Record>, at: int, y: int, es: seq<Record>, room: int) {
    Upcoming(c, at, y, es) && Ends(es)[0] > room
  }

  lemma Advance(c: seq<Record>, x: nat, at: nat, y: nat, got: seq<Record>, es: seq<Record>, n: nat, length: nat)
    requires Filled(c, x, at, got, length) && Upcoming(c, at, y, es) && n <= |es|
    requires Size(es[..n]) <= length - Size(got)
    ensures Filled(c, x, at + n, got + es[..n], length) && Size(got + es[..n]) == Size(got) + Size(es[..n])
  {
    SizeAdds(got, es[..n]);
    assert es[..n] == c[at..at + n];
  }

  lemma StuckAt(c: seq<Record>, x: nat, y: nat, at: nat, got: seq<Record>, es: seq<Record>, length: nat)
    requires Filled(c, x, at, got, length) && NotFitting(c, at, y, es, length - Size(got))
    ensures LongestFit(c[x..y], length, if got == [] then [es[0]] else got)
  {
    SliceOfSlice(c, x, y, at - x, at - x + |es|);
    SliceOfSlice(c, x, y, 0, at - x);
    Stuck(c[x..y], at - x, got, es, length);
  }

  lemma AllFit(c: seq<Record>, x: nat, y: nat, got: seq<Record>, length: nat)
    requires Filled(c, x, y, got, length)
    ensures LongestFit(c[x..y], length, got)
  {
  }

  // The longest prefix that fits, or the first entry alone if not even that fits.
  predicate LongestFit(wanted: seq<Record>, length: nat, got: seq<Record>) {
    && got <= wanted && (wanted != [] ==> got != [])
    && (Size(got) <= length || |got| == 1)
    && (|got| < |wanted| && Size(got) <= length ==> Size(wanted[..|got| + 1]) > length)
  }

  lemma {:induction false} SizeAdds(a: seq<Record>, b: seq<Record>)
    ensures Size(a + b) == Size(a) + Size(b)
  {
    if b == [] {
      assert a + b == a;
    } else {
      assert (a + b)[..|a + b| - 1] == a + b[..|b| - 1];
      SizeAdds(a, b[..|b| - 1]);
    }
  }

  // What was read when it stopped is the longest that fits, or a single entry.
  lemma ReadIsLongest(c: seq<Record>, x: nat, y: nat, at: nat, got: seq<Record>, es: seq<Record>, length: nat)
    requires Filled(c, x, at, got, length) && at <= y <= |c|
    requires at < y ==> NotFitting(c, at, y, es, length - Size(got))
    ensures LongestFit(c[x..y], length, if at < y && got == [] then [es[0]] else got)
  {
    if at < y { StuckAt(c, x, y, at, got, es, length); } else { AllFit(c, x, y, got, length); }
  }

  lemma EndsAscend(es: seq<Record>)
    ensures forall i, j :: 0 <= i <= j < |es| ==> Ends(es)[i] <= Ends(es)[j]
  {
    forall i, j | 0 <= i <= j < |es| ensures Ends(es)[i] <= Ends(es)[j] { SizeGrows(es, i + 1, j + 1); }
  }

  // Nothing more fits behind the first n of the wanted entries.
  lemma Stuck(wanted: seq<Record>, n: nat, got: seq<Record>, es: seq<Record>, length: nat)
    requires n < |wanted| && got == wanted[..n] && es != [] && n + |es| <= |wanted| && es == wanted[n..n + |es|]
    requires Size(got) <= length && Ends(es)[0] > length - Size(got)
    ensures LongestFit(wanted, length, if got == [] then [es[0]] else got)
  {
    SizeAdds(got, es[..1]);
    assert wanted[..n + 1] == got + es[..1];
    if got == [] { assert es[..1] == [es[0]] == wanted[..1]; }
  }

  // An index in the log lies in one of the files.
  lemma {:induction false} Located(files: seq<Segment>, index: nat, n: nat) returns (k: nat)
    requires Chained(files) && 0 < n <= |files| && files[0].first <= index < files[n - 1].Next()
    ensures k < n && files[k].Includes(index)
    decreases n
  {
    k := n - 1;
    if index < files[n - 1].first {
      assert Linked(files, n - 2);
      k := Located(files, index, n - 1);
    }
  }

  // A file and the indexes in it share a directory when its capacity divides the
  // directory's.
  lemma SameDirectory(f: Segment, unit: nat, index: nat)
    requires FileOk(f) && EndsAt(f, unit) && f.Allowed(index) && Divides(unit, DIRECTORY)
    ensures f.first / DIRECTORY == index / DIRECTORY
  {
    var d := DIRECTORY / unit;
    assert DIRECTORY == d * unit;
    var b := f.first / unit;
    assert f.first == b * unit + f.first % unit;
    assert b * unit <= index < b * unit + unit;
    SameBlock(f.first, b, unit, d);
    SameBlock(index, b, unit, d);
  }

  lemma SameBlock(x: nat, b: nat, unit: nat, d: nat)
    requires unit > 0 && d > 0 && b * unit <= x < b * unit + unit
    ensures d * unit > 0 && x / (d * unit) == b / d
  {
    var q, r := b / d, b % d;
    Distribute(q, d, r, unit);
    Multiples(r, d, unit);
    Multiples(0, d, unit);
    Within(x, b * unit, r * unit, unit, d * unit, q);
  }

  lemma Within(x: nat, block: nat, offset: nat, unit: nat, m: nat, q: nat)
    requires m > 0 && block == q * m + offset && offset + unit <= m && block <= x < block + unit
    ensures x / m == q
  {
    Quotient(x, m, q, x - q * m);
  }

  lemma Distribute(q: nat, d: nat, r: nat, unit: nat)
    ensures (q * d + r) * unit == q * (d * unit) + r * unit
  {
  }

  lemma Multiples(a: nat, b: nat, m: nat)
    ensures a < b ==> a * m + m <= b * m
  {
    if a < b {
      assert b * m == (a + 1) * m + (b - a - 1) * m;
      assert (b - a - 1) * m >= 0;
    }
  }

  lemma Quotient(x: nat, m: nat, q: nat, r: nat)
    requires m > 0 && x == q * m + r && r < m
    ensures x / m == q
  {
    Multiples(q, x / m, m);
    Multiples(x / m, q, m);
    assert x == x / m * m + x % m;
  }

  lemma {:induction false} Sorted(files: seq<Segment>, j: nat, k: nat)
    requires Chained(files) && j <= k < |files|
    ensures j < k ==> files[j].Stop() <= files[k].first && files[j].first < files[k].first
    decreases k - j
  {
    if j < k {
      assert Linked(files, k - 1) && FileOk(files[k - 1]) && FileOk(files[j]);
      Sorted(files, j, k - 1);
    }
  }

  // d is what is left of c when it is cut to n entries.
  predicate Cut(c: seq<Record>, n: int, d: seq<Record>) {
    0 <= n <= |c| && d == c[..n]
  }

  lemma CutAgain(c: seq<Record>, m: int, d: seq<Record>, n: int, e: seq<Record>)
    requires Cut(c, m, d) && Cut(d, n, e)
    ensures Cut(c, n, e)
  {
  }

  // ---------- The log ----------

  // The indexes and terms a log keeps fit its contents, which begin at `bottom`.
  predicate InOrder(bottom: nat, c: seq<Record>, first: nat, last: nat, lastTerm: nat, snapshot: nat, snapshotTerm: nat) {
    && 1 <= bottom <= first <= last + 1 && first == snapshot + 1 && last + 1 - bottom == |c|
    && (last >= bottom ==> lastTerm == c[last - bottom].term)
    && (last < bottom ==> lastTerm == snapshotTerm)
    && (snapshot >= bottom ==> c[snapshot - bottom].term == snapshotTerm)
  }

  lemma OrderKept(bottom: nat, c: seq<Record>, first: nat, last: nat, lastTerm: nat, snapshot: nat, snapshotTerm: nat,
                  index: nat, term: nat)
    requires InOrder(bottom, c, first, last, lastTerm, snapshot, snapshotTerm) && first <= index <= last + 1
    requires index - 1 >= bottom ==> c[index - 1 - bottom].term == term
    requires index - 1 < bottom ==> term == snapshotTerm
    ensures InOrder(bottom, c[..index - bottom], first, index - 1, term, snapshot, snapshotTerm)
  {
  }

  lemma OrderGrown(bottom: nat, c: seq<Record>, first: nat, last: nat, lastTerm: nat, snapshot: nat, snapshotTerm: nat,
                   es: seq<Record>)
    requires InOrder(bottom, c, first, last, lastTerm, snapshot, snapshotTerm) && es != []
    ensures InOrder(bottom, c + es, first, last + |es|, es[|es| - 1].term, snapshot, snapshotTerm)
  {
  }

  class FileLog {
    const unit: nat
    var firstIndex: nat
    var lastIndex: nat
    var lastTerm: nat
    var snapshotIndex: nat
    var snapshotTerm: nat
    var files: seq<Segment>
    // The log itself, from the first index that is in a file.
    ghost var bottom: nat
    ghost var log: seq<Record>

    ghost predicate Valid()
      reads this
    {
      && Holds(files, log) && Aligned(files, unit) && bottom == files[0].first
      && InOrder(bottom, log, firstIndex, lastIndex, lastTerm, snapshotIndex, snapshotTerm)
    }

    // A new log behind a snapshot.
    constructor (capacity: nat, index: nat, term: nat)
      requires Divides(capacity, DIRECTORY)
      ensures Valid() && log == [] && lastIndex == snapshotIndex == index && lastTerm == snapshotTerm == term
    {
      unit := capacity;
      firstIndex, lastIndex, lastTerm, snapshotIndex, snapshotTerm := index + 1, index, term, index, term;
      files := [Segment(index + 1, capacity - (index + 1) % capacity, [])];
      bottom, log := index + 1, [];
      new;
      assert EndsAt(files[0], unit);
    }

    // ---------- Finding the file of an index ----------

    // The numbers of the files in the directory of an index, as their names are sorted.
    ghost predicate Listing(index: nat, names: seq<nat>)
      reads this
    {
      && (forall i, j :: 0 <= i < j < |names| ==> names[i] < names[j])
      && forall x :: x in names <==> exists k :: 0 <= k < |files| && files[k].first == x && x / DIRECTORY == index / DIRECTORY
    }

    method ListDirectory(index: nat) returns (names: seq<nat>)
      requires Chained(files)
      ensures Listing(index, names)
    {
      names := [];
      for i := 0 to |files|
        invariant forall a, b :: 0 <= a < b < |names| ==> names[a] < names[b]
        invariant forall x :: x in names ==> i > 0 && x <= files[i - 1].first
        invariant forall x :: x in names <==> exists k :: 0 <= k < i && files[k].first == x && x / DIRECTORY == index / DIRECTORY
      {
        Sorted(files, if i > 0 then i - 1 else 0, i);
        forall a | 0 <= a < |names| ensures names[a] < files[i].first { assert names[a] in names; }
        if files[i].first / DIRECTORY == index / DIRECTORY { names := names + [files[i].first]; }
      }
    }

    // _indexBaseNameOf and _indexFileOf: the file that includes the index, if any does.
    method IndexFileOf(index: nat) returns (k: Option<nat>)
      requires Valid()
      ensures k.Some? <==> bottom <= index <= lastIndex
      ensures k.Some? ==> k.value < |files| && files[k.value].Includes(index)
    {
      if index < 1 || index > lastIndex { return None; }
      var names := ListDirectory(index);
      var name := BSearch(names, index);
      if files[0].first <= index { Found(index, names, name); }
      if name == None { return None; }
      var i := 0;
      while files[i].first != name.value
        invariant i < |files| && exists j :: i <= j < |files| && files[j].first == name.value
        decreases |files| - i
      {
        i := i + 1;
      }
      assert Shelved(files, log, i);
      if !files[i].Includes(index) { return None; }
      return Some(i);
    }

    // The search finds the file that includes the index.
    lemma Found(index: nat, names: seq<nat>, name: Option<nat>)
      requires Valid() && Listing(index, names) && files[0].first <= index <= lastIndex
      requires name == None <==> forall x :: x in names ==> x > index
      requires name.Some? ==> name.value in names && name.value <= index
      requires name.Some? ==> forall x :: x in names && x <= index ==> x <= name.value
      ensures name.Some? && forall i :: 0 <= i < |files| && files[i].first == name.value ==> files[i].Includes(index)
    {
      var n := |files|;
      var k := Located(files, index, n);
      assert FileOk(files[k]);
      assert EndsAt(files[k], unit) && Divides(unit, DIRECTORY);
      SameDirectory(files[k], unit, index);
      assert files[k].first in names;
      forall i | 0 <= i < n && files[i].first == name.value ensures i == k {
        if i < k { Sorted(files, i, k); }
        if k < i { Sorted(files, k, i); }
      }
    }

    // ---------- Reading ----------

    method TermAt(index: nat) returns (term: Option<nat>)
      requires Valid()
      ensures term == if index == snapshotIndex then Some(snapshotTerm)
                      else if firstIndex <= index <= lastIndex then Some(log[index - bottom].term)
                      else None
    {
      if index == lastIndex { return Some(lastTerm); }
      if index == snapshotIndex { return Some(snapshotTerm); }
      if index < firstIndex || index > lastIndex { return None; }
      var k := IndexFileOf(index);
      InFile(files, log, k.value, index, index + 1);
      assert log[index - bottom..index + 1 - bottom][0] == log[index - bottom];
      return Some(files[k.value].entries[index - files[k.value].first].term);
    }

    // The entries of the file of `index`, from there up to `last`.
    method ReadFile(index: nat, last: nat) returns (es: seq<Record>)
      requires Valid() && bottom <= index <= last <= lastIndex
      ensures Upcoming(log, index - bottom, last + 1 - bottom, es)
    {
      var k := IndexFileOf(index);
      var f := files[k.value];
      InCapacity(files, log, k.value, index, last);
      var max := if f.Stop() - 1 < last then f.Stop() - 1 else last;
      InFile(files, log, k.value, index, max + 1);
      es := f.entries[index - f.first..max + 1 - f.first];
    }

    // The next entries, and how many of them fit.
    method ReadFitting(index: nat, last: nat, room: int) returns (es: seq<Record>, count: nat)
      requires Valid() && bottom <= index <= last <= lastIndex && room >= 0
      ensures Upcoming(log, index - bottom, last + 1 - bottom, es) && count <= |es|
      ensures count > 0 ==> Size(es[..count]) <= room
      ensures count == 0 ==> NotFitting(log, index - bottom, last + 1 - bottom, es, room)
    {
      es := ReadFile(index, last);
      EndsAscend(es);
      count := CountFitting(Ends(es), room);
    }

    // getEntries: the entries from first to last; None is an error.
    method GetEntries(first: nat, last: nat) returns (result: Option<seq<Record>>)
      requires Valid()
      ensures result == if last > lastIndex then None
                        else if last < first then Some([])
                        else if first < bottom then None
                        else Some(log[first - bottom..last + 1 - bottom])
    {
      if last > lastIndex { return None; }
      if last < first { return Some([]); }
      var k := IndexFileOf(first);
      if k == None { return None; }
      var entries, index := [], first;
      while index <= last
        invariant first <= index <= last + 1 && entries == log[first - bottom..index - bottom]
        decreases last + 1 - index
      {
        var es := ReadFile(index, last);
        Joined(log, first - bottom, index - bottom, last + 1 - bottom, es);
        entries := entries + es;
        index := index + |es|;
      }
      return Some(entries);
    }

    // readEntries: as many entries as fit into the buffer, but at least one.
    method ReadEntries(first: nat, last: nat, length: nat) returns (result: Option<seq<Record>>)
      requires Valid()
      ensures result == None <==> last > lastIndex || (first <= last && first < bottom)
      ensures result.Some? && last < first ==> result.value == []
      ensures result.Some? && first <= last ==> LongestFit(log[first - bottom..last + 1 - bottom], length, result.value)
    {
      if last > lastIndex { return None; }
      if last < first { return Some([]); }
      var k := IndexFileOf(first);
      if k == None { return None; }
      var entries, index, es := ReadWhileFits(first, last, length);
      ReadIsLongest(log, first - bottom, last + 1 - bottom, index - bottom, entries, es, length);
      if index <= last && entries == [] { entries := [es[0]]; }
      return Some(entries);
    }

    // Adds the next entries that fit; es are those that were looked at.
    method ReadMore(first: nat, index: nat, last: nat, length: nat, entries: seq<Record>, offset: nat)
      returns (more: seq<Record>, end: nat, size: nat, es: seq<Record>)
      requires Valid() && bottom <= first <= index <= last <= lastIndex
      requires Filled(log, first - bottom, index - bottom, entries, length) && Size(entries) == offset
      ensures index <= end <= last + 1 && Filled(log, first - bottom, end - bottom, more, length) && Size(more) == size
      ensures end == index ==> more == entries && NotFitting(log, index - bottom, last + 1 - bottom, es, length - offset)
    {
      var count: nat;
      es, count := ReadFitting(index, last, length - offset);
      if count == 0 { return entries, index, offset, es; }
      Advance(log, first - bottom, index - bottom, last + 1 - bottom, entries, es, count, length);
      more, end, size := entries + es[..count], index + count, offset + Size(es[..count]);
    }

    // Reads until nothing more fits; es are the entries that did not.
    method ReadWhileFits(first: nat, last: nat, length: nat) returns (entries: seq<Record>, index: nat, es: seq<Record>)
      requires Valid() && bottom <= first <= last <= lastIndex
      ensures first <= index <= last + 1
      ensures Filled(log, first - bottom, index - bottom, entries, length)
      ensures index <= last ==> NotFitting(log, index - bottom, last + 1 - bottom, es, length - Size(entries))
    {
      var offset: nat := 0;
      entries, index, es := [], first, [];
      while index <= last
        invariant first <= index <= last + 1
        invariant Filled(log, first - bottom, index - bottom, entries, length) && Size(entries) == offset
        decreases last + 1 - index
      {
        var from := index;
        entries, index, offset, es := ReadMore(first, index, last, length, entries, offset);
        if index == from { return; }
      }
    }

    // ---------- Writing ----------

    // _truncate, once the index is known to be in range: files behind it are deleted.
    method TruncateFiles(index: nat)
      requires Valid() && firstIndex <= index <= lastIndex
      modifies this`files, this`lastIndex, this`lastTerm, this`log
      ensures Valid() && lastIndex + 1 == index && Cut(old(log), index - bottom, log)
    {
      ghost var c := log;
      while !files[|files| - 1].Allowed(index - 1) && !(index == firstIndex && index == files[|files| - 1].first)
        invariant Valid() && index <= lastIndex + 1 && Cut(c, lastIndex + 1 - bottom, log)
        decreases |files|
      {
        ghost var m, d := lastIndex + 1 - bottom, log;
        DeleteLast(index);
        CutAgain(c, m, d, lastIndex + 1 - bottom, log);
      }
      ghost var m, d := lastIndex + 1 - bottom, log;
      CutHere(index);
      CutAgain(c, m, d, index - bottom, log);
    }

    // The last file holds nothing that is kept, so it is deleted.
    method DeleteLast(index: nat)
      requires Valid() && firstIndex <= index <= lastIndex + 1 && !files[|files| - 1].Allowed(index - 1)
      requires !(index == firstIndex && index == files[|files| - 1].first)
      modifies this`files, this`lastIndex, this`lastTerm, this`log
      ensures Valid() && |files| < |old(files)| && index <= lastIndex + 1
      ensures Cut(old(log), lastIndex + 1 - bottom, log)
    {
      var n := |files| - 1;
      assert FileOk(files[n]);
      WithoutLast(files, log);
      StillAligned(files, unit, files[..n]);
      var prev := files[n - 1];
      assert Linked(files, n - 1);
      TermInLast(files[..n], log[..files[n].first - bottom], files[n].first);
      OrderKept(bottom, log, firstIndex, lastIndex, lastTerm, snapshotIndex, snapshotTerm, prev.Stop(),
                prev.entries[|prev.entries| - 1].term);
      lastIndex := prev.Stop() - 1;
      lastTerm := prev.entries[|prev.entries| - 1].term;
      files := files[..n];
      log := log[..prev.Stop() - bottom];
    }

    // truncate of the last file, in which the last kept entry is, or the first one ends.
    method CutHere(index: nat)
      requires Valid() && firstIndex <= index <= lastIndex + 1
      requires var f := files[|files| - 1]; f.Allowed(index - 1) || (index == firstIndex && index == f.first)
      modifies this`files, this`lastIndex, this`lastTerm, this`log
      ensures Valid() && lastIndex + 1 == index && Cut(old(log), index - bottom, log)
    {
      var n := |files| - 1;
      var f := files[n];
      var term := if f.Allowed(index - 1) then f.entries[index - 1 - f.first].term else snapshotTerm;
      if f.Allowed(index - 1) { TermInLast(files, log, index); }
      CutLast(files, log, index);
      StillAligned(files, unit, files[..n] + [f.(entries := f.entries[..index - f.first])]);
      OrderKept(bottom, log, firstIndex, lastIndex, lastTerm, snapshotIndex, snapshotTerm, index, term);
      lastTerm, lastIndex := term, index - 1;
      files := files[..n] + [f.(entries := f.entries[..index - f.first])];
      log := log[..index - bottom];
    }

    // appendEntries, optionally at an index: the log up to there, and the entries.
    method AppendEntries(entries: seq<Record>, at: Option<nat>) returns (ok: bool)
      requires Valid()
      modifies this`files, this`lastIndex, this`lastTerm, this`log
      ensures Valid()
      ensures ok <==> at == None || firstIndex <= at.value <= old(lastIndex) + 1
      ensures !ok ==> log == old(log) && lastIndex == old(lastIndex)
      ensures ok ==>
                var index := if at == None then old(lastIndex) + 1 else at.value;
                log == old(log)[..index - bottom] + entries && lastIndex + 1 == index + |entries|
    {
      var index := if at == None then lastIndex + 1 else at.value;
      if index < firstIndex || index > lastIndex + 1 { return false; }
      if index <= lastIndex { TruncateFiles(index); } else { assert log[..index - bottom] == log; }
      WriteAll(entries);
      return true;
    }

    method WriteAll(entries: seq<Record>)
      requires Valid()
      modifies this`files, this`lastIndex, this`lastTerm, this`log
      ensures Valid() && log == old(log) + entries && lastIndex == old(lastIndex) + |entries|
    {
      var done := 0;
      ghost var c := log;
      assert c + entries[..0] == c;
      while done < |entries|
        invariant done <= |entries| && Valid()
        invariant log == c + entries[..done] && lastIndex == old(lastIndex) + done
        decreases |entries| - done, |files[|files| - 1].entries|
      {
        var f := files[|files| - 1];
        assert FileOk(f);
        var room := f.capacity - |f.entries|;
        if room > 0 {
          var some := if room < |entries| - done then room else |entries| - done;
          WriteInto(entries[done..done + some]);
          Regroup(c, entries[..done], entries[done..done + some]);
          assert entries[..done + some] == entries[..done] + entries[done..done + some];
          done := done + some;
        } else {
          CreateNewFile();
        }
      }
      assert entries[..|entries|] == entries;
    }

    // writev to the last file, which has room for the entries.
    method WriteInto(es: seq<Record>)
      requires Valid() && es != [] && |files[|files| - 1].entries| + |es| <= files[|files| - 1].capacity
      modifies this`files, this`lastIndex, this`lastTerm, this`log
      ensures Valid() && log == old(log) + es && lastIndex == old(lastIndex) + |es|
    {
      var n := |files| - 1;
      var f := files[n];
      ExtendLast(files, log, es);
      StillAligned(files, unit, files[..n] + [f.(entries := f.entries + es)]);
      OrderGrown(bottom, log, firstIndex, lastIndex, lastTerm, snapshotIndex, snapshotTerm, es);
      files := files[..n] + [f.(entries := f.entries + es)];
      log := log + es;
      lastIndex := lastIndex + |es|;
      lastTerm := es[|es| - 1].term;
    }

    // _createNewIndexFile, behind a full one.
    method CreateNewFile()
      requires Valid() && |files[|files| - 1].entries| == files[|files| - 1].capacity
      modifies this`files
      ensures Valid() && files[|files| - 1].entries == []
      ensures |old(files)[|old(files)| - 1].entries| > 0
    {
      var first := files[|files| - 1].Stop();
      assert EndsAt(files[0], unit);
      var f := Segment(first, unit - first % unit, []);
      assert EndsAt(f, unit);
      AddFile(files, log, f);
      AlignedMore(files, unit, f);
      files := files + [f];
    }
  }

  lemma Joined(c: seq<Record>, x: nat, at: nat, y: nat, es: seq<Record>)
    requires x <= at && Upcoming(c, at, y, es)
    ensures c[x..at] + es == c[x..at + |es|]
  {
  }

  lemma Regroup(a: seq<Record>, b: seq<Record>, c: seq<Record>)
    ensures a + (b + c) == a + b + c
  {
  }
}
