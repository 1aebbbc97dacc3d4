// Cutting log data into entries: all at once from one buffer (splitb), or piece by
// piece from buffers that arrive one after the other (bufferEntryExtractor). Both
// find the same entries, however the data is cut into buffers.
module EntryExtractor {
  import opened Sealing
  import opened IndexFile

  // ---------- Specification ----------

  predicate Ascending(offsets: seq<nat>) { Increasing(offsets, |offsets|) }

  // Where entry k starts in data that begins with entry `first`.
  function Begin(offsets: seq<nat>, first: nat, k: nat): (b: nat)
    requires Ascending(offsets) && first <= k <= |offsets|
  {
    Monotone(offsets, first, k);
    Start(offsets, k) - Start(offsets, first)
  }

  lemma {:induction false} Monotone(offsets: seq<nat>, j: nat, k: nat)
    requires Ascending(offsets) && j <= k <= |offsets|
    ensures Start(offsets, j) <= Start(offsets, k)
    decreases k - j
  {
    if j < k {
      assert Above(offsets, k - 1);
      Monotone(offsets, j, k - 1);
    }
  }

  lemma NonEmpty(offsets: seq<nat>, first: nat, k: nat)
    requires Ascending(offsets) && first <= k < |offsets|
    ensures Begin(offsets, first, k) < Begin(offsets, first, k + 1)
    ensures Begin(offsets, first, k + 1) - Begin(offsets, first, k) == offsets[k] - Start(offsets, k)
  {
    assert Above(offsets, k);
  }

  // Entry k of the data, if it is all there.
  predicate IsEntry(data: Data, offsets: seq<nat>, first: nat, k: nat, entry: Data)
    requires Ascending(offsets) && first <= k < |offsets|
  {
    && Begin(offsets, first, k) <= Begin(offsets, first, k + 1) <= |data|
    && entry == data[Begin(offsets, first, k)..Begin(offsets, first, k + 1)]
  }

  // ---------- One buffer ----------

  // splitb: the entries from `first` on that are complete in the buffer.
  method Split(offsets: seq<nat>, first: nat, stop: nat, buffer: Data) returns (result: seq<Data>)
    requires Ascending(offsets) && first <= stop <= |offsets|
    ensures |result| <= stop - first
    ensures forall i :: 0 <= i < |result| ==> IsEntry(buffer, offsets, first, first + i, result[i])
    ensures first + |result| < stop ==> Begin(offsets, first, first + |result| + 1) > |buffer|
  {
    var index, position, offset := first, Start(offsets, first), 0;
    result := [];
    while index < stop
      invariant first <= index <= stop && index == first + |result|
      invariant position == Start(offsets, index) && offset == Begin(offsets, first, index) <= |buffer|
      invariant forall i :: 0 <= i < |result| ==> IsEntry(buffer, offsets, first, first + i, result[i])
    {
      NonEmpty(offsets, first, index);
      var size := offsets[index];
      var end := offset + size - position;
      if end > |buffer| { break; }
      position := size;
      result := result + [buffer[offset..end]];
      offset, index := end, index + 1;
    }
  }

  // ---------- Buffers ----------

  function Concat(list: seq<Data>): Data {
    if list == [] then [] else list[0] + Concat(list[1..])
  }

  lemma {:induction false} ConcatSplit(list: seq<Data>, k: nat)
    requires k <= |list|
    ensures Concat(list) == Concat(list[..k]) + Concat(list[k..])
  {
    if k > 0 {
      ConcatSplit(list[1..], k - 1);
      assert list[1..][..k - 1] == list[..k][1..] && list[1..][k - 1..] == list[k..];
    }
  }

  lemma ConcatMore(list: seq<Data>, j: nat, k: nat)
    requires j <= k < |list|
    ensures Concat(list[j..k + 1]) == Concat(list[j..k]) + list[k]
  {
    ConcatSplit(list[j..k + 1], k - j);
    assert list[j..k + 1][..k - j] == list[j..k] && list[j..k + 1][k - j..] == [list[k]];
    assert Concat([list[k]]) == list[k] + Concat([]);
  }

  lemma ConcatParts(list: seq<Data>, j: nat, k: nat)
    requires j <= k <= |list|
    ensures Concat(list[..k]) == Concat(list[..j]) + Concat(list[j..k])
  {
    ConcatSplit(list[..k], j);
    assert list[..k][..j] == list[..j] && list[..k][j..] == list[j..k];
  }

  // How many bytes the buffers from j up to k hold.
  function Length(list: seq<Data>, j: nat, k: nat): nat
    requires j <= k <= |list|
  {
    |Concat(list[j..k])|
  }

  lemma Middle(stream: Data, gone: nat, a: Data, b: Data, c: Data, offset: nat, end: nat)
    requires gone <= |stream| && stream[gone..] == a + b + c && offset <= end <= |b|
    ensures gone + |a| + end <= |stream|
    ensures b[offset..end] == stream[gone + |a| + offset..gone + |a| + end]
  {
    assert |stream[gone..]| == |a| + |b| + |c|;
    forall i | 0 <= i < end - offset
      ensures b[offset..end][i] == stream[gone + |a| + offset..gone + |a| + end][i]
    {
      assert stream[gone..][|a| + offset + i] == (a + b + c)[|a| + offset + i];
    }
  }

  // Bytes of the entry that spans the buffers from j to k.
  lemma Spanning(stream: Data, gone: nat, list: seq<Data>, j: nat, k: nat, offset: nat, end: nat)
    requires j <= k <= |list| && gone <= |stream| && stream[gone..] == Concat(list)
    requires offset <= end <= Length(list, j, k)
    ensures gone + Length(list, 0, j) + end <= |stream|
    ensures Concat(list[j..k])[offset..end]
            == stream[gone + Length(list, 0, j) + offset..gone + Length(list, 0, j) + end]
  {
    var a, b, c := Concat(list[0..j]), Concat(list[j..k]), Concat(list[k..]);
    assert stream[gone..] == a + b + c by { Three(list, j, k); }
    Middle(stream, gone, a, b, c, offset, end);
  }

  // The entry between `offset` and `end`, counted from buffer j.
  lemma EntryIs(stream: Data, gone: nat, list: seq<Data>, j: nat, k: nat, offset: nat, end: nat,
                offsets: seq<nat>, first: nat, no: nat)
    requires j <= k <= |list| && gone <= |stream| && stream[gone..] == Concat(list)
    requires offset <= end <= Length(list, j, k)
    requires Ascending(offsets) && first <= no < |offsets|
    requires gone + Length(list, 0, j) + offset == Begin(offsets, first, no)
    requires gone + Length(list, 0, j) + end == Begin(offsets, first, no + 1)
    ensures IsEntry(stream, offsets, first, no, Concat(list[j..k])[offset..end])
  {
    Spanning(stream, gone, list, j, k, offset, end);
  }

  // What is left of the stream without the first buffers of the list.
  lemma Dropped(stream: Data, gone: nat, list: seq<Data>, k: nat)
    requires k <= |list| && gone <= |stream| && stream[gone..] == Concat(list)
    ensures gone + Length(list, 0, k) <= |stream|
    ensures stream[gone + Length(list, 0, k)..] == Concat(list[k..])
  {
    ConcatSplit(list, k);
    assert list[0..k] == list[..k];
    assert stream[gone..][Length(list, 0, k)..] == stream[gone + Length(list, 0, k)..];
  }

  lemma Three(list: seq<Data>, j: nat, k: nat)
    requires j <= k <= |list|
    ensures Concat(list) == Concat(list[0..j]) + Concat(list[j..k]) + Concat(list[k..])
  {
    ConcatSplit(list, k);
    ConcatParts(list, j, k);
    assert list[0..j] == list[..j];
  }

  // ---------- What is kept ----------

  // The list is the end of what was pushed, and a last buffer without data is in it.
  ghost predicate Buffers(list: seq<Data>, pushed: seq<Data>, stream: Data) {
    && Concat(pushed) == stream
    && |list| <= |pushed| && list == pushed[|pushed| - |list|..]
    && (list == [] && pushed != [] ==> pushed[|pushed| - 1] != [])
  }

  // The same, sealed: the methods pass it on without looking inside.
  ghost predicate Sealed(list: seq<Data>, pushed: seq<Data>, stream: Data) {
    forall key {:trigger Turns(key)} :: Turns(key) ==> Buffers(list, pushed, stream)
  }

  lemma Unsealed(list: seq<Data>, pushed: seq<Data>, stream: Data)
    requires Sealed(list, pushed, stream)
    ensures Buffers(list, pushed, stream)
  {
    assert Turns(TheKey);
  }

  lemma NothingPushed()
    ensures Sealed([], [], [])
  {
  }

  lemma OneMorePushed(list: seq<Data>, pushed: seq<Data>, stream: Data, buffer: Data)
    requires Sealed(list, pushed, stream)
    ensures Sealed(list + [buffer], pushed + [buffer], stream + buffer)
  {
    Unsealed(list, pushed, stream);
    Appended(pushed, buffer);
    assert Buffers(list + [buffer], pushed + [buffer], stream + buffer);
  }

  lemma SomeDropped(list: seq<Data>, pushed: seq<Data>, stream: Data, start: nat)
    requires Sealed(list, pushed, stream) && start <= |list|
    requires start == |list| > 0 ==> list[start - 1] != []
    ensures Sealed(list[start..], pushed, stream)
  {
    Unsealed(list, pushed, stream);
    if start == |list| > 0 { assert pushed[|pushed| - 1] == list[start - 1]; }
    assert Buffers(list[start..], pushed, stream);
  }

  // ---------- The generator ----------

  // Where the next call of next() goes on: at the next buffer of the scan, right
  // after an entry that was yielded (from one buffer or from several), or nowhere.
  datatype Resume = AtScan | AfterYield(spanned: bool) | AtEnd

  datatype Yield = Entry(data: Data) | NotYet | Over

  class Extractor {
    const offsets: seq<nat>
    const first: nat
    const endIndex: nat
    var list: seq<Data>
    var index: nat
    var position: nat
    var end: nat
    var bufsLength: nat
    var start: nat
    var offset: nat
    var i: nat
    var resume: Resume
    // All buffers and all bytes pushed so far, and how many bytes were dropped from the list.
    ghost var pushed: seq<Data>
    ghost var stream: Data
    ghost var gone: nat

    // Where the buffers from `start` on begin in the stream.
    ghost function Base(): nat
      requires start <= |list|
      reads this
    {
      gone + Length(list, 0, start)
    }

    // No buffer is dropped together with all behind it unless it holds data.
    ghost predicate Droppable()
      requires start <= |list|
      reads this
    {
      start == |list| > 0 ==> list[start - 1] != []
    }

    // The list is what is left of the stream.
    ghost predicate Streams()
      reads this
    {
      && Ascending(offsets) && first <= index <= endIndex <= |offsets|
      && gone <= |stream| && stream[gone..] == Concat(list) && Sealed(list, pushed, stream)
    }

    ghost predicate Valid()
      reads this
    {
      && Streams()
      && match resume
         case AtScan => Scanning() && start <= i <= |list| && bufsLength == Length(list, start, i) && end > bufsLength
         case AfterYield(spanned) => Yielded(spanned)
         case AtEnd => index == endIndex && Ended()
    }

    // The bounds of the next entry, counted from buffer `start`.
    ghost predicate Scanning()
      reads this
    {
      && Ascending(offsets) && first <= index < endIndex <= |offsets| && start <= |list|
      && position == offsets[index]
      && Base() + offset == Begin(offsets, first, index) && Base() + end == Begin(offsets, first, index + 1)
      && (start < |list| ==> offset <= |list[start]|) && (start == |list| ==> offset == 0) && Droppable()
    }

    // The entry was cut from the buffers up to i. It ends at `end`, counted from
    // buffer `start`, or from buffer i when it spans several.
    ghost predicate Yielded(spanned: bool)
      reads this
    {
      && Ascending(offsets) && first <= index < endIndex <= |offsets| && start <= i < |list|
      && position == offsets[index] && (if spanned then start < i else start == i && bufsLength == |list[i]|)
      && gone + Length(list, 0, i) + end == Begin(offsets, first, index + 1) && end <= |list[i]|
      && list[i] != []
    }

    // What is left begins in the first buffer of the list, if there is any.
    ghost predicate Ended()
      reads this
    {
      && Ascending(offsets) && first <= endIndex <= |offsets|
      && gone <= Begin(offsets, first, endIndex) <= |stream|
      && (list != [] ==>
            gone == Begin(offsets, first, endIndex) || Begin(offsets, first, endIndex) < gone + |list[0]|)
    }

    // The number of the entry that is yielded next.
    ghost function NextNo(): nat
      reads this
    {
      if resume.AfterYield? then index + 1 else index
    }

    constructor (table: seq<nat>, from: nat, stop: nat)
      requires Ascending(table) && from <= stop <= |table|
      ensures Valid() && offsets == table && first == from && endIndex == stop
      ensures list == [] && pushed == [] && stream == [] && NextNo() == from
    {
      NothingPushed();
      if from < stop { NonEmpty(table, from, from); }
      offsets, first, endIndex, list, pushed, stream, gone := table, from, stop, [], [], [], 0;
      index, bufsLength, start, offset, i := from, 0, 0, 0, 0;
      position := if from < stop then table[from] else 0;
      end := if from < stop then table[from] - Start(table, from) else 0;
      resume := if from < stop then AtScan else AtEnd;
    }

    method Push(buffer: Data)
      requires Valid()
      modifies this`list, this`pushed, this`stream
      ensures Valid() && list == old(list) + [buffer] && stream == old(stream) + buffer
      ensures pushed == old(pushed) + [buffer]
    {
      Appended(list, buffer);
      OneMorePushed(list, pushed, stream, buffer);
      Prefixes(list, [buffer]);
      list := list + [buffer];
      pushed := pushed + [buffer];
      stream := stream + buffer;
    }

    // The entry that ends in buffer i goes out.
    method Cut() returns (entry: Data)
      requires Streams() && InBuffer() && end <= bufsLength
      modifies this`end, this`resume
      ensures Valid() && resume.AfterYield? && IsEntry(stream, offsets, first, index, entry)
    {
      NonEmpty(offsets, first, index);
      assert start <= i;
      EntryIs(stream, gone, list, start, i + 1, offset, end, offsets, first, index);
      if i == start { entry := CutOne(); } else { entry := CutSpan(); }
    }

    // An entry within one buffer.
    method CutOne() returns (entry: Data)
      requires Streams() && InBuffer() && end <= bufsLength && start == i && offset <= end
      modifies this`resume
      ensures Valid() && resume.AfterYield? && entry == Concat(list[start..i + 1])[offset..end]
    {
      Single(list, i);
      entry := list[i][offset..end];
      resume := AfterYield(false);
    }

    // An entry that spans the buffers from `start` to i.
    method CutSpan() returns (entry: Data)
      requires Streams() && InBuffer() && end <= bufsLength && start < i && offset <= end
      modifies this`end, this`resume
      ensures Valid() && resume.AfterYield? && entry == Concat(list[start..i + 1])[offset..old(end)]
    {
      ConcatMore(list, start, i);
      Lengths(list, start, i);
      entry := CopySpan(list, start, i, offset, end, bufsLength);
      end := |list[i]| + end - bufsLength;
      resume := AfterYield(true);
    }

    // The scan is in buffer i, whose bytes are counted.
    ghost predicate InBuffer()
      reads this
    {
      && Scanning() && start <= i + 1 && i < |list| && bufsLength == Length(list, start, i + 1)
      && (start <= i ==> Length(list, start, i) < end)
    }

    // What follows the yield: the next entry begins in buffer i or in the next one.
    method Settle()
      requires Valid() && resume.AfterYield?
      modifies this`end, this`bufsLength, this`start
      ensures i <= start <= i + 1 && bufsLength == Length(list, start, i + 1)
      ensures Base() + end == Begin(offsets, first, index + 1) <= |stream|
      ensures if start == i then end < bufsLength && bufsLength == |list[i]| else end == 0
      ensures Droppable()
    {
      Lengths(list, 0, i);
      Single(list, i);
      Spanning(stream, gone, list, i, i + 1, end, end);
      if resume.spanned {
        bufsLength := |list[i]|;
        start := i;
      }
      assert start == i && bufsLength == |list[i]|;
      if end == bufsLength {
        start := i + 1;
        end, bufsLength := 0, 0;
      }
      NoBytes(list, i);
    }

    method AfterEntry()
      requires Valid() && resume.AfterYield?
      modifies this`index, this`position, this`end, this`bufsLength, this`start, this`offset
      ensures index == old(index) + 1
      ensures index < endIndex ==> InBuffer()
      ensures index == endIndex ==>
                && start <= |list| && Droppable() && Base() <= Begin(offsets, first, endIndex) <= |stream|
                && (start < |list| ==>
                      Base() == Begin(offsets, first, endIndex)
                      || Begin(offsets, first, endIndex) < Base() + |list[start]|)
    {
      Settle();
      NoBytes(list, i);
      index := index + 1;
      if index < endIndex {
        NonEmpty(offsets, first, index);
        offset := end;
        var size := offsets[index];
        end := size - position + offset;
        position := size;
      }
    }

    // Buffers before `start` are dropped.
    method Trim()
      requires start <= |list| && Droppable() && gone <= |stream| && stream[gone..] == Concat(list) && Sealed(list, pushed, stream)
      modifies this`list, this`start, this`i, this`gone
      ensures start == 0 && list == old(list)[old(start)..] && i == if old(i) < old(start) then 0 else old(i) - old(start)
      ensures gone == old(Base()) <= |stream| && stream[gone..] == Concat(list) && Sealed(list, pushed, stream)
    {
      Dropped(stream, gone, list, start);
      SomeDropped(list, pushed, stream, start);
      gone := gone + Length(list, 0, start);
      list := list[start..];
      i := if i < start then 0 else i - start;
      start := 0;
    }

    // next(): entries come out whole and in order; NotYet only when the next one is
    // not complete; Over once all have come out.
    method Next() returns (y: Yield)
      requires Valid()
      modifies this
      ensures Valid() && stream == old(stream) && pushed == old(pushed)
      ensures match y
              case Entry(e) =>
                old(NextNo()) < endIndex && NextNo() == old(NextNo()) + 1 && IsEntry(stream, offsets, first, old(NextNo()), e)
              case NotYet =>
                old(NextNo()) < endIndex && NextNo() == old(NextNo()) && |stream| < Begin(offsets, first, NextNo() + 1)
              case Over => old(NextNo()) == NextNo() == endIndex && resume.AtEnd?
    {
      if resume.AtEnd? { return Over; }
      if resume.AfterYield? { y := GoOn(); } else { y := Scan(); }
    }

    // What comes after an entry that was yielded.
    method GoOn() returns (y: Yield)
      requires Valid() && resume.AfterYield?
      modifies this
      ensures Valid() && stream == old(stream) && pushed == old(pushed)
      ensures match y
              case Entry(e) => old(index) + 1 < endIndex && NextNo() == old(index) + 2
                               && IsEntry(stream, offsets, first, old(index) + 1, e)
              case NotYet => old(index) + 1 < endIndex && NextNo() == old(index) + 1
                             && |stream| < Begin(offsets, first, NextNo() + 1)
              case Over => old(index) + 1 == NextNo() == endIndex && resume.AtEnd?
    {
      AfterEntry();
      if index == endIndex {
        Finish();
        return Over;
      }
      y := Proceed();
    }

    // The next entry, if it ends in buffer i, or else the scan of those behind it.
    method Proceed() returns (y: Yield)
      requires Streams() && InBuffer()
      modifies this`bufsLength, this`i, this`end, this`resume, this`list, this`start, this`gone
      ensures Valid() && index == old(index)
      ensures match y
              case Entry(e) => NextNo() == index + 1 && IsEntry(stream, offsets, first, index, e)
              case NotYet => NextNo() == index && |stream| < Begin(offsets, first, index + 1)
              case Over => false
    {
      if end <= bufsLength {
        var e := Cut();
        return Entry(e);
      }
      i := i + 1;
      y := Scan();
    }

    // The scan over the buffers not looked at yet.
    method Scan() returns (y: Yield)
      requires Streams() && Scanning() && start <= i <= |list| && bufsLength == Length(list, start, i) && end > bufsLength
      modifies this`bufsLength, this`i, this`end, this`resume, this`list, this`start, this`gone
      ensures Valid() && index == old(index)
      ensures match y
              case Entry(e) => NextNo() == index + 1 && IsEntry(stream, offsets, first, index, e)
              case NotYet => NextNo() == index && |stream| < Begin(offsets, first, index + 1)
              case Over => false
    {
      while i < |list|
        invariant Streams() && Scanning() && start <= i <= |list| && bufsLength == Length(list, start, i) && end > bufsLength
        invariant start == old(start) && list == old(list) && gone == old(gone) && end == old(end)
      {
        Lengths(list, start, i);
        bufsLength := bufsLength + |list[i]|;
        if end <= bufsLength {
          var e := Cut();
          return Entry(e);
        }
        i := i + 1;
      }
      Rest();
      return NotYet;
    }

    // All buffers are scanned and the next entry is not complete.
    method Rest()
      requires Streams() && Scanning() && i == |list| && bufsLength == Length(list, start, i) && end > bufsLength
      modifies this`resume, this`i, this`list, this`start, this`gone
      ensures Valid() && resume.AtScan? && |stream| < Begin(offsets, first, index + 1)
    {
      ConcatParts(list, start, |list|);
      assert list[..|list|] == list && list[0..start] == list[..start];
      TrimmedLength(list, start);
      Trim();
      resume := AtScan;
    }

    method Finish()
      requires start <= |list| && Droppable() && gone <= |stream| && stream[gone..] == Concat(list) && Sealed(list, pushed, stream)
      requires Ascending(offsets) && first <= index == endIndex <= |offsets|
      requires Base() <= Begin(offsets, first, endIndex) <= |stream|
      requires start < |list| ==>
                 Base() == Begin(offsets, first, endIndex) || Begin(offsets, first, endIndex) < Base() + |list[start]|
      modifies this`list, this`start, this`i, this`gone, this`resume
      ensures Valid() && resume.AtEnd?
    {
      Trim();
      resume := AtEnd;
    }

    // At the end the list tells whether there was surplus data, if and only if there was
    // some, or the last buffer was not empty: an empty one that comes when all entries
    // are out is left in the list.
    lemma SurplusIsKept()
      requires Valid() && resume.AtEnd?
      ensures var stop := Begin(offsets, first, endIndex);
              && |stream| >= stop
              && ((list == [] <==> |stream| == stop)
                  <==> |stream| > stop || pushed == [] || pushed[|pushed| - 1] != [])
    {
      assert |stream[gone..]| == |Concat(list)|;
      Unsealed(list, pushed, stream);
      NoData(list);
      if list != [] {
        assert list[|list| - 1] == pushed[|pushed| - 1] && list[0] in list;
        assert list[|list| - 1] in list;
      }
    }

    lemma EmptyIsLeft(entry: Data)
      requires Table() && Sound() && resume.AtEnd? && LeavesSurplus()
      requires |stream| == Size() && pushed == [entry, []] && entry != []
      ensures list == [[]]
    {
      assert Turns(TheKey);
      NothingLeft();
      Unsealed(list, pushed, stream);
      OnlyEmpty(list, pushed, entry);
    }

    lemma NothingLeft()
      requires Valid() && resume.AtEnd? && |stream| == Begin(offsets, first, endIndex)
      ensures Concat(list) == []
    {
      assert |stream[gone..]| == |Concat(list)|;
      NoData(list);
      if list != [] { assert list[0] in list; }
    }

    // ---------- The same, sealed ----------

    ghost predicate Table() { Ascending(offsets) && first <= endIndex <= |offsets| }

    ghost predicate Sound()
      reads this
    {
      forall key {:trigger Turns(key)} :: Turns(key) ==> Valid()
    }

    // The bytes of all entries asked for.
    ghost function Size(): nat
      requires Table()
    {
      Begin(offsets, first, endIndex)
    }

    ghost predicate IsNo(no: nat, entry: Data)
      requires Table()
      reads this
    {
      first <= no < endIndex && IsEntry(stream, offsets, first, no, entry)
    }

    // All entries that are complete are out.
    ghost predicate IsDrained()
      requires Table()
      reads this
    {
      first <= NextNo() <= endIndex && (NextNo() < endIndex ==> |stream| < Begin(offsets, first, NextNo() + 1))
    }

    // Something is left in the list: data, or an empty buffer behind the last entry.
    ghost predicate LeavesSurplus()
      requires Table()
      reads this
    {
      list != [] <==> |stream| > Size() || (pushed != [] && pushed[|pushed| - 1] == [])
    }

    lemma Unopened()
      requires Valid() && stream == [] && NextNo() == first
      ensures Table() && Sound() && IsDrained()
    {
      if first < endIndex { NonEmpty(offsets, first, first); }
    }

    method Put(buffer: Data)
      requires Sound()
      modifies this
      ensures Sound() && NextNo() == old(NextNo())
      ensures pushed == old(pushed) + [buffer] && stream == old(stream) + buffer
    {
      assert Turns(TheKey);
      Push(buffer);
    }

    method Pull() returns (y: Yield)
      requires Table() && Sound()
      modifies this
      ensures Sound() && pushed == old(pushed) && stream == old(stream)
      ensures match y
              case Entry(e) => NextNo() == old(NextNo()) + 1 && IsNo(old(NextNo()), e)
              case NotYet => NextNo() == old(NextNo()) < endIndex && IsDrained()
              case Over => NextNo() == old(NextNo()) == endIndex && |stream| >= Size() && LeavesSurplus() && resume.AtEnd?
    {
      assert Turns(TheKey);
      y := Next();
      if y.Over? { SurplusIsKept(); }
    }
  }

  // ---------- The stream of entries ----------

  method Opened(offsets: seq<nat>, first: nat, stop: nat) returns (e: Extractor)
    requires Ascending(offsets) && first <= stop <= |offsets|
    ensures fresh(e) && e.offsets == offsets && e.first == first && e.endIndex == stop
    ensures e.Sound() && e.IsDrained() && e.pushed == [] && e.stream == [] && e.NextNo() == first
  {
    e := new Extractor(offsets, first, stop);
    e.Unopened();
  }

  // transform: a chunk comes in and complete entries go out. It fails when there is too
  // much data, and also when an empty chunk comes behind the last entry.
  method Transform(e: Extractor, chunk: Data) returns (entries: seq<Data>, ok: bool)
    requires e.Table() && e.Sound()
    modifies e
    ensures e.Sound() && e.pushed == old(e.pushed) + [chunk] && e.stream == old(e.stream) + chunk
    ensures e.NextNo() == old(e.NextNo()) + |entries| && e.IsDrained()
    ensures forall i :: 0 <= i < |entries| ==> e.IsNo(old(e.NextNo()) + i, entries[i])
    ensures ok <==> |e.stream| < e.Size() || (|e.stream| == e.Size() && chunk != [])
  {
    e.Put(chunk);
    var done;
    entries, done := Drain(e);
    ok := !(done && e.list != []);
  }

  // Takes out entries until the next one is not complete, or there is none.
  method Drain(e: Extractor) returns (entries: seq<Data>, done: bool)
    requires e.Table() && e.Sound()
    modifies e
    ensures e.Sound() && e.pushed == old(e.pushed) && e.stream == old(e.stream)
    ensures e.NextNo() == old(e.NextNo()) + |entries| && e.IsDrained()
    ensures forall i :: 0 <= i < |entries| ==> e.IsNo(old(e.NextNo()) + i, entries[i])
    ensures if done then |e.stream| >= e.Size() && e.LeavesSurplus() else |e.stream| < e.Size()
  {
    entries, done := [], false;
    while true
      invariant e.Sound() && e.pushed == old(e.pushed) && e.stream == old(e.stream)
      invariant e.NextNo() == old(e.NextNo()) + |entries|
      invariant forall i :: 0 <= i < |entries| ==> e.IsNo(old(e.NextNo()) + i, entries[i])
      decreases e.endIndex - e.NextNo()
    {
      var y := e.Pull();
      match y {
        case Entry(entry) => entries := entries + [entry];
        case NotYet =>
          Monotone(e.offsets, e.NextNo() + 1, e.endIndex);
          return;
        case Over => return entries, true;
      }
    }
  }

  // flush: it fails when there was not enough data.
  method Flush(e: Extractor) returns (ok: bool)
    requires e.Table() && e.Sound() && e.IsDrained()
    modifies e
    ensures e.Sound() && e.stream == old(e.stream)
    ensures ok <==> |e.stream| >= e.Size()
  {
    var y := e.Pull();
    if y.NotYet? { Monotone(e.offsets, e.NextNo() + 1, e.endIndex); }
    ok := y.Over?;
  }

  // What the stream makes of the chunks of a file: it ends well if and only if they hold
  // just the entries, and the last one is not empty.
  method Pipe(offsets: seq<nat>, first: nat, stop: nat, chunks: seq<Data>) returns (entries: seq<Data>, ok: bool)
    requires Ascending(offsets) && first <= stop <= |offsets|
    ensures ok <==> |Concat(chunks)| == Begin(offsets, first, stop) && (chunks == [] || chunks[|chunks| - 1] != [])
    ensures |entries| <= stop - first && (ok ==> |entries| == stop - first)
    ensures forall i :: 0 <= i < |entries| ==> IsEntry(Concat(chunks), offsets, first, first + i, entries[i])
  {
    var e := Opened(offsets, first, stop);
    entries := [];
    for k := 0 to |chunks|
      invariant e.offsets == offsets && e.first == first && e.endIndex == stop
      invariant e.Sound() && e.IsDrained() && e.NextNo() == first + |entries|
      invariant e.stream == Concat(chunks[..k])
      invariant |e.stream| < e.Size() || (|e.stream| == e.Size() && (k > 0 ==> chunks[k - 1] != []))
      invariant Concat(chunks[..k]) <= Concat(chunks)
      invariant forall i :: 0 <= i < |entries| ==> IsEntry(Concat(chunks), offsets, first, first + i, entries[i])
    {
      Chunk(chunks, k);
      var more, well := Transform(e, chunks[k]);
      entries := entries + more;
      if !well {
        Refused(chunks, k, e.Size());
        return entries, false;
      }
    }
    assert chunks[..|chunks|] == chunks;
    if e.NextNo() < stop { Monotone(offsets, e.NextNo() + 1, stop); }
    ok := Flush(e);
  }

  lemma Chunk(chunks: seq<Data>, k: nat)
    requires k < |chunks|
    ensures Concat(chunks[..k + 1]) == Concat(chunks[..k]) + chunks[k]
    ensures Concat(chunks[..k + 1]) <= Concat(chunks)
  {
    ConcatMore(chunks, 0, k);
    ConcatSplit(chunks, k + 1);
    assert chunks[0..k + 1] == chunks[..k + 1] && chunks[0..k] == chunks[..k];
  }

  // Too much data stays too much, and no data behind the last entry ends with an empty chunk.
  lemma Refused(chunks: seq<Data>, k: nat, size: nat)
    requires k < |chunks|
    requires var n := |Concat(chunks[..k + 1])|; n > size || (n == size && chunks[k] == [])
    ensures !(|Concat(chunks)| == size && chunks[|chunks| - 1] != [])
  {
    var last := |chunks| - 1;
    Chunk(chunks, last);
    assert chunks[..last + 1] == chunks;
    if k < last {
      ConcatSplit(chunks[..last], k + 1);
      assert chunks[..last][..k + 1] == chunks[..k + 1];
    }
  }

  // Such a chunk: the last entry is out, an empty buffer comes, and it stays in the list.
  method EmptyChunkIsLeft(entry: Data) returns (left: seq<Data>)
    requires entry != []
    ensures left == [[]]
  {
    OneEntry(entry);
    var e := Opened([|entry|], 0, 1);
    e.Put(entry);
    var y := e.Pull();
    assert e.pushed == [entry] && e.stream == entry;
    e.Put([]);
    assert e.pushed == [entry, []] && e.stream == entry;
    y := e.Pull();
    e.EmptyIsLeft(entry);
    left := e.list;
  }

  lemma OnlyEmpty(list: seq<Data>, pushed: seq<Data>, entry: Data)
    requires pushed == [entry, []] && entry != [] && 0 < |list| <= 2 && list == pushed[2 - |list|..]
    requires Concat(list) == []
    ensures list == [[]]
  {
    NoData(list);
    assert list[0] in list;
  }

  lemma OneEntry(entry: Data)
    requires entry != []
    ensures Ascending([|entry|]) && Begin([|entry|], 0, 0) == 0 && Begin([|entry|], 0, 1) == |entry|
  {
    forall i | 0 <= i < 1 ensures Above([|entry|], i) {}
    Monotone([|entry|], 0, 1);
  }

  lemma {:induction false} NoData(list: seq<Data>)
    ensures Concat(list) == [] <==> forall b :: b in list ==> b == []
  {
    if list != [] {
      NoData(list[1..]);
      assert list[0] in list && forall b :: b in list <==> b == list[0] || b in list[1..];
    }
  }

  // What is an entry of the data so far is the same entry of all the data; so what
  // next() yields is what splitting the whole buffer gives.
  lemma EntryStays(data: Data, more: Data, offsets: seq<nat>, first: nat, k: nat, a: Data, b: Data)
    requires Ascending(offsets) && first <= k < |offsets|
    requires IsEntry(data, offsets, first, k, a) && IsEntry(data + more, offsets, first, k, b)
    ensures a == b
  {
    var from, to := Begin(offsets, first, k), Begin(offsets, first, k + 1);
    assert data[from..to] == (data + more)[from..to];
  }

  lemma TrimmedLength(list: seq<Data>, start: nat)
    requires start <= |list|
    ensures Length(list, start, |list|) == Length(list[start..], 0, |list| - start)
    ensures Length(list[start..], 0, 0) == 0
  {
    assert list[start..][0..|list| - start] == list[start..|list|];
    assert list[start..][0..0] == [];
  }

  lemma NoBytes(list: seq<Data>, i: nat)
    requires i < |list|
    ensures Length(list, i + 1, i + 1) == 0 && Length(list, i, i) == 0
  {
    assert list[i + 1..i + 1] == [] && list[i..i] == [];
  }

  lemma Single(list: seq<Data>, i: nat)
    requires i < |list|
    ensures Concat(list[i..i + 1]) == list[i] && Concat(list[i..i]) == [] && Length(list, i, i + 1) == |list[i]|
  {
    ConcatMore(list, i, i);
  }

  lemma Lengths(list: seq<Data>, j: nat, i: nat)
    requires j <= i < |list|
    ensures Length(list, j, i + 1) == Length(list, j, i) + |list[i]|
    ensures Length(list, 0, i) == Length(list, 0, j) + Length(list, j, i)
  {
    ConcatMore(list, j, i);
    ConcatParts(list, j, i);
    assert list[0..j] == list[..j] && list[0..i] == list[..i];
  }

  // Copies an entry that spans the buffers from start to i, backwards.
  method CopySpan(list: seq<Data>, start: nat, i: nat, offset: nat, end: nat, bufsLength: nat) returns (entry: Data)
    requires start < i < |list| && bufsLength == Length(list, start, i + 1)
    requires Length(list, start, i) < end <= bufsLength && offset <= end && offset <= |list[start]|
    ensures entry == Concat(list[start..i + 1])[offset..end]
  {
    ConcatMore(list, start, i);
    HeadAndRest(list, start, i);
    var length := end - offset;
    var sourceEnd := |list[i]| + end - bufsLength;
    ghost var last := list[i][..sourceEnd];
    ghost var rest := Concat(list[start + 1..i]);
    var target := new Byte[length];
    var pos: nat := length - sourceEnd;
    Copy(target, pos, list[i], 0, sourceEnd);
    pos := CopyMiddle(target, pos, list, start, i, last);
    pos := PutBefore(target, pos, list[start], offset, rest + last);
    entry := target[..];
    assert pos == 0 && entry == target[pos..];
    SpanIs(list[start], rest, list[i], offset, sourceEnd);
  }

  lemma SpanIs(head: Data, rest: Data, tail: Data, offset: nat, sourceEnd: nat)
    requires offset <= |head| && sourceEnd <= |tail|
    ensures head[offset..] + (rest + tail[..sourceEnd])
         == (head + rest + tail)[offset..|head| + |rest| + sourceEnd]
  {
    Regroup(head[offset..], rest, tail[..sourceEnd]);
    Whole(head, rest, tail, offset, sourceEnd);
  }

  // The buffers between the first and the last one of the entry.
  method CopyMiddle(target: array<Byte>, from: nat, list: seq<Data>, start: nat, i: nat, ghost last: Data) returns (pos: nat)
    requires start < i <= |list| && from <= target.Length && target[from..] == last
    requires |Concat(list[start + 1..i])| <= from
    modifies target
    ensures pos == from - |Concat(list[start + 1..i])| && target[pos..] == Concat(list[start + 1..i]) + last
  {
    pos := from;
    ghost var tail := last;
    var j := i - 1;
    while j > start
      invariant start <= j < i && tail == Concat(list[j + 1..i]) + last
      invariant pos == from - |Concat(list[j + 1..i])| && pos <= target.Length && target[pos..] == tail
    {
      HeadAndRest(list, j, i);
      Suffix(list, start + 1, j, i);
      Regroup(list[j], Concat(list[j + 1..i]), last);
      pos := PutBefore(target, pos, list[j], 0, tail);
      tail := list[j] + tail;
      j := j - 1;
    }
  }

  // One more buffer, from `from` on, goes before what is already in place.
  method PutBefore(target: array<Byte>, pos: nat, source: Data, from: nat, ghost tail: Data) returns (at: nat)
    requires from <= |source| && |source| - from <= pos <= target.Length && target[pos..] == tail
    modifies target
    ensures at == pos - (|source| - from) && target[at..] == source[from..] + tail
  {
    at := pos - (|source| - from);
    Copy(target, at, source, from, |source|);
  }

  lemma Regroup(a: Data, b: Data, c: Data)
    ensures a + (b + c) == a + b + c
  {
  }

  lemma Whole(a: Data, b: Data, c: Data, offset: nat, k: nat)
    requires offset <= |a| && k <= |c|
    ensures (a + b + c)[offset..|a| + |b| + k] == a[offset..] + b + c[..k]
  {
  }

  // Less of the list holds no more bytes.
  lemma Suffix(list: seq<Data>, j: nat, k: nat, i: nat)
    requires j <= k <= i <= |list|
    ensures |Concat(list[k..i])| <= |Concat(list[j..i])|
  {
    ConcatSplit(list[j..i], k - j);
    assert list[j..i][k - j..] == list[k..i];
  }

  lemma HeadAndRest(list: seq<Data>, start: nat, i: nat)
    requires start < i <= |list|
    ensures Concat(list[start..i]) == list[start] + Concat(list[start + 1..i])
  {
    assert list[start..i][1..] == list[start + 1..i];
  }

  // buf.copy(target, pos, from, to)
  method Copy(target: array<Byte>, pos: nat, source: Data, from: nat, to: nat)
    requires from <= to <= |source| && pos + to - from <= target.Length
    modifies target
    ensures target[..] == old(target[..pos]) + source[from..to] + old(target[pos + to - from..])
    ensures target[pos..] == source[from..to] + old(target[pos + to - from..])
  {
    for k := from to to
      invariant target[..] == old(target[..pos]) + source[from..k] + old(target[pos + k - from..])
    {
      target[pos + k - from] := source[k];
      assert source[from..k + 1] == source[from..k] + [source[k]];
    }
  }

  lemma Appended(list: seq<Data>, buffer: Data)
    ensures Concat(list + [buffer]) == Concat(list) + buffer
  {
    ConcatSplit(list + [buffer], |list|);
    assert (list + [buffer])[..|list|] == list && (list + [buffer])[|list|..] == [buffer];
    assert Concat([buffer]) == buffer + Concat([]);
  }

  lemma Prefixes(list: seq<Data>, more: seq<Data>)
    ensures forall j, k :: 0 <= j <= k <= |list| ==> (list + more)[j..k] == list[j..k]
  {
  }
}
