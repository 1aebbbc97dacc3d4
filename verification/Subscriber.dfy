// Two readable streams of log entries that merge what a leader broadcasts with what is
// fetched to fill the gaps: the subscriber, and the forever stream of one peer.
module Subscriber {
  import opened Wrappers

  datatype LogEntry = LogEntry(index: nat, data: string)

  // A broadcast ends at the index `last`; it may bring no entries.
  datatype Batch = Batch(last: nat, entries: seq<string>)

  function Numbered(entries: seq<string>, first: nat): (r: seq<LogEntry>)
    ensures |r| == |entries|
    ensures forall i :: 0 <= i < |r| ==> r[i] == LogEntry(first + i, entries[i])
  {
    if entries == [] then []
    else Numbered(entries[..|entries| - 1], first) + [LogEntry(first + |entries| - 1, entries[|entries| - 1])]
  }

  // Entry by entry, from the one after `start` on, without a gap and none twice.
  ghost predicate InOrder(output: seq<LogEntry>, start: nat) {
    forall i {:trigger output[i]} :: 0 <= i < |output| ==> output[i].index == start + 1 + i
  }

  // What was said about the log is true of it.
  ghost predicate Says(log: seq<string>, index: nat, data: string) { 1 <= index <= |log| && log[index - 1] == data }

  ghost predicate True(log: seq<string>, output: seq<LogEntry>) {
    forall i {:trigger output[i]} :: 0 <= i < |output| ==> Says(log, output[i].index, output[i].data)
  }

  ghost predicate Agrees(log: seq<string>, b: Batch) {
    |b.entries| <= b.last <= |log| && b.entries == log[b.last - |b.entries|..b.last]
  }

  ghost predicate AllAgree(log: seq<string>, batches: seq<Batch>) {
    forall i :: 0 <= i < |batches| ==> Agrees(log, batches[i])
  }

  lemma PushKeeps(log: seq<string>, output: seq<LogEntry>, start: nat, b: Batch, from: nat)
    requires InOrder(output, start) && |b.entries| <= b.last
    requires from <= |b.entries| && b.last - |b.entries| + from == start + |output|
    ensures var more := output + Numbered(b.entries[from..], start + |output| + 1);
            InOrder(more, start) && (True(log, output) && Agrees(log, b) ==> True(log, more))
  {
    var pushed := Numbered(b.entries[from..], start + |output| + 1);
    if True(log, output) && Agrees(log, b) {
      forall i | 0 <= i < |pushed| ensures Says(log, pushed[i].index, pushed[i].data) {
        assert b.entries[from..][i] == b.entries[from + i];
      }
    }
  }

  lemma InOrderAndTrue(log: seq<string>, output: seq<LogEntry>, start: nat)
    requires start <= |log| && InOrder(output, start) && True(log, output)
    ensures start + |output| <= |log|
    ensures output == Numbered(log[start..start + |output|], start + 1)
  {
    if output != [] {
      assert Says(log, output[|output| - 1].index, output[|output| - 1].data);
    }
    forall i | 0 <= i < |output|
      ensures output[i] == Numbered(log[start..start + |output|], start + 1)[i]
    {
      assert Says(log, output[i].index, output[i].data);
    }
  }

  // ---------- The subscriber ----------

  // A stream that fills a gap yields entries one after another, at most `left` more.
  datatype Missing = Missing(next: nat, left: nat)

  // `listening` is lost when the reader does not keep up. `failed` tells that the count
  // of missing entries was not positive when it was asserted to be.
  datatype State = State(
    lastLogIndex: nat,
    ahead: seq<Batch>,
    pending: Option<Missing>,
    listening: bool,
    failed: bool,
    output: seq<LogEntry>)

  // `more` and `accepts` tell for each pushed batch whether the reader wants more.
  datatype Event =
    | Broadcast(batch: Batch, more: bool)
    | Data(data: string, more: bool)
    | End(accepts: seq<bool>)
    | Read

  predicate Gap(s: State, b: Batch) { b.last > s.lastLogIndex + |b.entries| }

  function Appended(s: State, b: Batch, more: bool): State
    requires !Gap(s, b)
  {
    if b.last > s.lastLogIndex then
      var gap := b.last - s.lastLogIndex;
      s.(lastLogIndex := b.last,
         output := s.output + Numbered(b.entries[|b.entries| - gap..], s.lastLogIndex + 1),
         listening := s.listening && more)
    else s
  }

  function RequestMissing(s: State, count: int): State {
    if count <= 0 then s.(failed := true)
    else if s.pending.Some? || !s.listening then s
    else s.(pending := Some(Missing(s.lastLogIndex + 1, count)))
  }

  function Broadcasted(s: State, b: Batch, more: bool): State {
    if !Gap(s, b) then Appended(s, b, more)
    else
      var t := if b.entries != [] then s.(ahead := s.ahead + [b]) else s;
      RequestMissing(t, b.last - |b.entries| - s.lastLogIndex)
  }

  function Flushed(s: State, accepts: seq<bool>): State
    decreases |s.ahead|
  {
    if s.ahead == [] then s
    else
      var b := s.ahead[0];
      if Gap(s, b) then RequestMissing(s, b.last - |b.entries| - s.lastLogIndex)
      else
        var more := accepts == [] || accepts[0];
        Flushed(Appended(s, b, more).(ahead := s.ahead[1..]), if accepts == [] then [] else accepts[1..])
  }

  function Received(s: State, data: string, more: bool): State {
    match s.pending
    case Some(Missing(next, left)) =>
      if left == 0 then s
      else
        var t := s.(pending := Some(Missing(next + 1, left - 1)));
        if next > s.lastLogIndex then
          t.(lastLogIndex := next, output := s.output + [LogEntry(next, data)], listening := s.listening && more)
        else t
    case None => s
  }

  function After(s: State, e: Event): State {
    match e
    case Broadcast(b, more) => Broadcasted(s, b, more)
    case Data(data, more) => Received(s, data, more)
    case End(accepts) => if s.pending.Some? then Flushed(s.(pending := None), accepts) else s
    case Read => s.(listening := true)
  }

  function Run(start: nat, events: seq<Event>): State {
    if events == [] then State(start, [], None, true, false, [])
    else After(Run(start, events[..|events| - 1]), events[|events| - 1])
  }

  // A broadcast cannot bring more entries than there are up to its index.
  ghost predicate Sensible(e: Event) {
    e.Broadcast? ==> |e.batch.entries| <= e.batch.last
  }

  // The event tells the truth about the log.
  ghost predicate Truthful(log: seq<string>, s: State, e: Event) {
    match e
    case Broadcast(b, _) => Agrees(log, b)
    case Data(data, _) => s.pending.Some? && s.pending.value.left > 0 ==> Says(log, s.pending.value.next, data)
    case _ => true
  }

  ghost predicate Sound(s: State, start: nat) {
    && s.lastLogIndex == start + |s.output|
    && InOrder(s.output, start)
    && (forall i {:trigger s.ahead[i]} :: 0 <= i < |s.ahead| ==> |s.ahead[i].entries| <= s.ahead[i].last)
    && (s.pending.Some? ==> s.pending.value.next <= s.lastLogIndex + 1)
    && !s.failed
  }

  ghost predicate Faithful(log: seq<string>, s: State) {
    True(log, s.output) && AllAgree(log, s.ahead)
  }

  lemma AppendedKeeps(log: seq<string>, s: State, start: nat, b: Batch, more: bool)
    requires Sound(s, start) && !Gap(s, b) && |b.entries| <= b.last
    ensures Sound(Appended(s, b, more), start)
    ensures Faithful(log, s) && Agrees(log, b) ==> Faithful(log, Appended(s, b, more))
  {
    if b.last > s.lastLogIndex {
      PushKeeps(log, s.output, start, b, |b.entries| - (b.last - s.lastLogIndex));
    }
  }

  lemma {:induction false} FlushedKeeps(log: seq<string>, s: State, start: nat, accepts: seq<bool>)
    requires Sound(s, start)
    ensures Sound(Flushed(s, accepts), start)
    ensures Faithful(log, s) ==> Faithful(log, Flushed(s, accepts))
    decreases |s.ahead|
  {
    if s.ahead != [] {
      var b := s.ahead[0];
      if !Gap(s, b) {
        var more := accepts == [] || accepts[0];
        AppendedKeeps(log, s, start, b, more);
        FlushedKeeps(log, Appended(s, b, more).(ahead := s.ahead[1..]), start, if accepts == [] then [] else accepts[1..]);
      }
    }
  }

  lemma AfterKeeps(log: seq<string>, s: State, start: nat, e: Event)
    requires Sound(s, start) && Sensible(e)
    ensures Sound(After(s, e), start)
    ensures Faithful(log, s) && Truthful(log, s, e) ==> Faithful(log, After(s, e))
  {
    match e
    case Broadcast(b, more) =>
      if !Gap(s, b) { AppendedKeeps(log, s, start, b, more); }
    case Data(data, more) =>
    case End(accepts) =>
      if s.pending.Some? { FlushedKeeps(log, s.(pending := None), start, accepts); }
    case Read =>
  }

  // In every run, whatever is broadcast, fetched and flushed in whatever order, entries
  // are pushed one after another, each index once and none left out, and the assertion
  // that something is missing never fails.
  lemma {:induction false} PushedInOrder(start: nat, events: seq<Event>)
    requires forall i :: 0 <= i < |events| ==> Sensible(events[i])
    ensures var s := Run(start, events);
            && InOrder(s.output, start) && s.lastLogIndex == start + |s.output|
            && !s.failed
    ensures Sound(Run(start, events), start)
  {
    if events != [] {
      PushedInOrder(start, events[..|events| - 1]);
      AfterKeeps([], Run(start, events[..|events| - 1]), start, events[|events| - 1]);
    }
  }

  ghost predicate AllTruthful(log: seq<string>, start: nat, events: seq<Event>) {
    forall i {:trigger events[i]} :: 0 <= i < |events| ==> Truthful(log, Run(start, events[..i]), events[i])
  }

  // If all that was heard is true of the log, the stream is exactly the part of the log
  // from the start to the last index.
  lemma PushedIsTheLog(log: seq<string>, start: nat, events: seq<Event>)
    requires start <= |log|
    requires AllTruthful(log, start, events)
    ensures var s := Run(start, events);
            start <= s.lastLogIndex <= |log| && s.output == Numbered(log[start..s.lastLogIndex], start + 1)
  {
    StaysFaithful(log, start, events);
    InOrderAndTrue(log, Run(start, events).output, start);
  }

  lemma {:induction false} StaysFaithful(log: seq<string>, start: nat, events: seq<Event>)
    requires AllTruthful(log, start, events)
    ensures Sound(Run(start, events), start) && Faithful(log, Run(start, events))
  {
    if events != [] {
      var before := events[..|events| - 1];
      forall i | 0 <= i < |before| ensures Truthful(log, Run(start, before[..i]), before[i]) {
        assert before[..i] == events[..i] && before[i] == events[i];
      }
      StaysFaithful(log, start, before);
      var e := events[|events| - 1];
      assert Truthful(log, Run(start, before), e);
      AfterKeeps(log, Run(start, before), start, e);
    }
  }

  // ---------- What came ahead ----------

  // The batch is pushed or kept for later.
  predicate Covered(s: State, b: Batch) { b in s.ahead || s.lastLogIndex >= b.last }

  lemma {:induction false} FlushedCovers(s: State, accepts: seq<bool>, b: Batch)
    requires Covered(s, b)
    ensures Covered(Flushed(s, accepts), b)
    decreases |s.ahead|
  {
    if s.ahead != [] && !Gap(s, s.ahead[0]) {
      var more := accepts == [] || accepts[0];
      var t := Appended(s, s.ahead[0], more).(ahead := s.ahead[1..]);
      assert s.ahead == [s.ahead[0]] + s.ahead[1..];
      FlushedCovers(t, if accepts == [] then [] else accepts[1..], b);
    }
  }

  lemma AfterCovers(s: State, e: Event, b: Batch)
    requires Covered(s, b) || (e.Broadcast? && e.batch == b && b.entries != [])
    ensures Covered(After(s, e), b)
  {
    match e
    case End(accepts) => if s.pending.Some? { FlushedCovers(s.(pending := None), accepts, b); }
    case _ =>
  }

  // In every run, no batch that was broadcast is forgotten: its entries are pushed, or it is
  // kept until what is missing before it is there.
  lemma {:induction false} NoBatchIsForgotten(start: nat, events: seq<Event>, i: nat)
    requires i < |events| && events[i].Broadcast? && events[i].batch.entries != []
    ensures Covered(Run(start, events), events[i].batch)
  {
    var n := |events| - 1;
    if i < n {
      NoBatchIsForgotten(start, events[..n], i);
      assert events[..n][i] == events[i];
    }
    AfterCovers(Run(start, events[..n]), events[n], events[i].batch);
  }

  // What came ahead is flushed up to a gap, and what is missing there is asked for, unless
  // the reader does not keep up.
  lemma {:induction false} FlushStopsAtAGap(s: State, accepts: seq<bool>)
    ensures var t := Flushed(s, accepts);
            t.ahead == [] || (Gap(t, t.ahead[0]) && (t.pending.Some? || !t.listening || t.failed))
    decreases |s.ahead|
  {
    if s.ahead != [] && !Gap(s, s.ahead[0]) {
      var more := accepts == [] || accepts[0];
      FlushStopsAtAGap(Appended(s, s.ahead[0], more).(ahead := s.ahead[1..]), if accepts == [] then [] else accepts[1..]);
    }
  }

  // Entries that are fetched one after another.
  function Fed(s: State, data: seq<string>, mores: seq<bool>): State
    requires |data| == |mores|
    decreases |data|
  {
    if data == [] then s else Fed(Received(s, data[0], mores[0]), data[1..], mores[1..])
  }

  // Entries pushed one part after the other.
  lemma PushedBoth(output: seq<LogEntry>, a: seq<string>, b: seq<string>, first: nat)
    ensures output + Numbered(a, first) + Numbered(b, first + |a|) == output + Numbered(a + b, first)
  {
    assert Numbered(a, first) + Numbered(b, first + |a|) == Numbered(a + b, first);
  }

  lemma PushedFirst(output: seq<LogEntry>, data: seq<string>, first: nat)
    requires data != []
    ensures output + [LogEntry(first, data[0])] + Numbered(data[1..], first + 1) == output + Numbered(data, first)
  {
    assert [LogEntry(first, data[0])] + Numbered(data[1..], first + 1) == Numbered(data, first);
  }

  lemma ReceivedIs(s: State, data: string, more: bool)
    requires s.pending.Some? && s.pending.value.next == s.lastLogIndex + 1 && s.pending.value.left > 0
    ensures var t := Received(s, data, more);
            && t.lastLogIndex == s.lastLogIndex + 1 && t.ahead == s.ahead
            && t.pending == Some(Missing(s.pending.value.next + 1, s.pending.value.left - 1))
            && t.output == s.output + [LogEntry(s.lastLogIndex + 1, data)]
  {
  }

  lemma {:induction false} FedIs(s: State, data: seq<string>, mores: seq<bool>)
    requires |data| == |mores| && s.pending.Some? && s.pending.value.next == s.lastLogIndex + 1
    requires |data| <= s.pending.value.left
    ensures var t := Fed(s, data, mores);
            && t.lastLogIndex == s.lastLogIndex + |data| && t.ahead == s.ahead
            && t.pending == Some(Missing(s.pending.value.next + |data|, s.pending.value.left - |data|))
            && t.output == s.output + Numbered(data, s.lastLogIndex + 1)
    decreases |data|
  {
    if data != [] {
      ReceivedIs(s, data[0], mores[0]);
      FedIs(Received(s, data[0], mores[0]), data[1..], mores[1..]);
      PushedFirst(s.output, data, s.lastLogIndex + 1);
    }
  }

  // A batch that comes with a gap before it: just what is missing is asked for, and once it
  // is fetched, the stream has gone on with it and then with the batch, without a gap.
  lemma GapIsFilled(s: State, b: Batch, more: bool, data: seq<string>, mores: seq<bool>, accepts: seq<bool>)
    requires s.pending.None? && s.listening && s.ahead == [] && b.entries != [] && Gap(s, b)
    requires |data| == b.last - |b.entries| - s.lastLogIndex == |mores|
    ensures var t := After(s, Broadcast(b, more));
            t.pending == Some(Missing(s.lastLogIndex + 1, |data|)) && t.output == s.output
    ensures var u := After(Fed(After(s, Broadcast(b, more)), data, mores), End(accepts));
            && u.lastLogIndex == b.last && u.ahead == [] && u.pending.None?
            && u.output == s.output + Numbered(data + b.entries, s.lastLogIndex + 1)
  {
    FetchIsAsked(s, b, more);
    Filled(s, After(s, Broadcast(b, more)), b, data, mores, accepts);
  }

  lemma Filled(s: State, t: State, b: Batch, data: seq<string>, mores: seq<bool>, accepts: seq<bool>)
    requires b.entries != [] && |data| == b.last - |b.entries| - s.lastLogIndex == |mores|
    requires t == s.(ahead := [b], pending := Some(Missing(s.lastLogIndex + 1, |data|)))
    ensures var u := After(Fed(t, data, mores), End(accepts));
            && u.lastLogIndex == b.last && u.ahead == [] && u.pending.None?
            && u.output == s.output + Numbered(data + b.entries, s.lastLogIndex + 1)
  {
    FedIs(t, data, mores);
    EndsWith(s.output, s.lastLogIndex + 1, Fed(t, data, mores), b, data, accepts);
  }

  // The batch that waits comes behind what was fetched.
  lemma EndsWith(output: seq<LogEntry>, first: nat, v: State, b: Batch, data: seq<string>, accepts: seq<bool>)
    requires v.ahead == [b] && v.pending.Some? && b.entries != [] && b.last == v.lastLogIndex + |b.entries|
    requires v.lastLogIndex + 1 == first + |data| && v.output == output + Numbered(data, first)
    ensures var u := After(v, End(accepts));
            && u.lastLogIndex == b.last && u.ahead == [] && u.pending.None?
            && u.output == output + Numbered(data + b.entries, first)
  {
    var u := After(v, End(accepts));
    EndIs(v, accepts);
    FlushOne(v.(pending := None), b, accepts);
    assert u.output == v.output + Numbered(b.entries, first + |data|);
    PushedBoth(output, data, b.entries, first);
  }

  lemma FetchIsAsked(s: State, b: Batch, more: bool)
    requires s.pending.None? && s.listening && s.ahead == [] && b.entries != [] && Gap(s, b)
    ensures After(s, Broadcast(b, more))
         == s.(ahead := [b], pending := Some(Missing(s.lastLogIndex + 1, b.last - |b.entries| - s.lastLogIndex)))
  {
  }

  lemma EndIs(s: State, accepts: seq<bool>)
    requires s.pending.Some?
    ensures After(s, End(accepts)) == Flushed(s.(pending := None), accepts)
  {
  }

  lemma FlushOne(s: State, b: Batch, accepts: seq<bool>)
    requires s.ahead == [b] && b.entries != [] && b.last == s.lastLogIndex + |b.entries|
    ensures var t := Flushed(s, accepts);
            && t.lastLogIndex == b.last && t.ahead == [] && t.pending == s.pending
            && t.output == s.output + Numbered(b.entries, s.lastLogIndex + 1)
  {
    assert b.entries[0..] == b.entries;
  }

  // While the reader does not keep up nothing is asked for, whatever comes, and a push that
  // it could not take makes it so.
  lemma BackPressure(s: State, e: Event)
    requires s.pending.None? && !e.Read?
    ensures !s.listening ==> After(s, e).pending.None? && !After(s, e).listening
    ensures e.Broadcast? && !Gap(s, e.batch) && e.batch.last > s.lastLogIndex && !e.more ==> !After(s, e).listening
    ensures After(s, Read).listening
  {
  }

  class ZmqRaftSubscriber {
    var lastLogIndex: nat
    var ahead: seq<Batch>
    var pending: Option<Missing>
    var listening: bool
    ghost var failed: bool
    var output: seq<LogEntry>

    ghost function View(): State
      reads this
    {
      State(lastLogIndex, ahead, pending, listening, failed, output)
    }

    constructor (lastIndex: nat)
      ensures View() == Run(lastIndex, [])
    {
      lastLogIndex, ahead, pending, listening, failed, output := lastIndex, [], None, true, false, [];
    }

    method PushFrom(b: Batch, from: nat)
      requires from <= |b.entries| && b.last + from >= |b.entries|
      modifies this`output
      ensures output == old(output) + Numbered(b.entries[from..], b.last - |b.entries| + from + 1)
    {
      var firstLogIndex := b.last - |b.entries| + 1;
      var i := from;
      while i < |b.entries|
        invariant from <= i <= |b.entries|
        invariant output == old(output) + Numbered(b.entries[from..i], firstLogIndex + from)
      {
        assert b.entries[from..i + 1][..i - from] == b.entries[from..i];
        output := output + [LogEntry(firstLogIndex + i, b.entries[i])];
        i := i + 1;
      }
      assert b.entries[from..i] == b.entries[from..];
    }

    // Pushes what is new in the batch unless entries are missing before it, and tells
    // whether they are.
    method AppendEntries(b: Batch, more: bool) returns (missing: bool)
      modifies this`lastLogIndex, this`output, this`listening
      ensures missing <==> Gap(old(View()), b)
      ensures View() == if missing then old(View()) else Appended(old(View()), b, more)
    {
      missing := b.last > lastLogIndex + |b.entries|;
      if !missing && b.last > lastLogIndex {
        PushFrom(b, |b.entries| - (b.last - lastLogIndex));
        lastLogIndex := b.last;
        listening := listening && more;
      }
    }

    method RequestMissingEntries(count: int)
      requires count > 0
      modifies this`pending
      ensures View() == RequestMissing(old(View()), count)
    {
      if pending == None && listening {
        pending := Some(Missing(lastLogIndex + 1, count));
      }
    }

    method HandleBroadcast(b: Batch, more: bool)
      modifies this
      ensures View() == After(old(View()), Broadcast(b, more))
    {
      var missing := AppendEntries(b, more);
      if missing {
        if b.entries != [] { ahead := ahead + [b]; }
        RequestMissingEntries(b.last - |b.entries| - lastLogIndex);
      }
    }

    method FlushAhead(accepts: seq<bool>)
      modifies this
      ensures View() == Flushed(old(View()), accepts)
    {
      var rest := accepts;
      while ahead != []
        invariant Flushed(View(), rest) == Flushed(old(View()), accepts)
        decreases |ahead|
      {
        var b := ahead[0];
        var missing := AppendEntries(b, rest == [] || rest[0]);
        if missing {
          RequestMissingEntries(b.last - |b.entries| - lastLogIndex);
          return;
        }
        ahead := ahead[1..];
        rest := if rest == [] then [] else rest[1..];
      }
    }

    // An entry from the stream that fills a gap.
    method OnData(data: string, more: bool)
      requires pending.Some? && pending.value.left > 0
      modifies this
      ensures View() == After(old(View()), Data(data, more))
    {
      var logIndex := pending.value.next;
      pending := Some(Missing(logIndex + 1, pending.value.left - 1));
      if logIndex > lastLogIndex {
        output := output + [LogEntry(logIndex, data)];
        listening := listening && more;
        lastLogIndex := logIndex;
      }
    }

    method OnEnd(accepts: seq<bool>)
      requires pending.Some?
      modifies this
      ensures View() == After(old(View()), End(accepts))
    {
      pending := None;
      FlushAhead(accepts);
    }
  }
}

// The stream that follows one peer as long as it leads.
module ForeverStream {
  import opened Wrappers
  import opened Subscriber

  // `fetching` is the next index that the stream of missing entries yields.
  datatype Forever = Forever(
    sentIndex: nat,
    ahead: seq<Batch>,
    fetching: Option<nat>,
    flowing: bool,
    sent: seq<LogEntry>)

  datatype Happening =
    | Pulse(batch: Batch, more: bool)
    | Timeout
    | Chunk(data: string, more: bool)
    | Over(accepts: seq<bool>)
    | Wanted(behind: bool)

  function StopFlow(s: Forever): Forever {
    if s.flowing then s.(flowing := false, ahead := []) else s
  }

  function ReceiveMissing(s: Forever): Forever {
    if s.fetching.Some? then s else s.(fetching := Some(s.sentIndex + 1))
  }

  predicate Fits(s: Forever, b: Batch) { b.last == s.sentIndex + |b.entries| }

  // Only a batch that continues the stream exactly is pushed.
  function Pushed(s: Forever, b: Batch, more: bool): Forever {
    if !Fits(s, b) then s
    else
      var t := s.(sentIndex := b.last, sent := s.sent + Numbered(b.entries, s.sentIndex + 1));
      if b.entries != [] && !more then StopFlow(t) else t
  }

  function Pulsed(s: Forever, b: Batch, more: bool): Forever {
    if s.fetching.None? && Fits(s, b) then Pushed(s, b, more)
    else if b.last > s.sentIndex then
      ReceiveMissing(if b.entries != [] then s.(ahead := s.ahead + [b]) else s)
    else s
  }

  // What came in the meantime is pushed if it fits, and dropped otherwise.
  function Drained(s: Forever, accepts: seq<bool>): Forever
    decreases |s.ahead|
  {
    if s.ahead == [] then s
    else
      Drained(Pushed(s.(ahead := s.ahead[1..]), s.ahead[0], accepts == [] || accepts[0]),
              if accepts == [] then [] else accepts[1..])
  }

  function Fetched(s: Forever, data: string, more: bool): Forever {
    match s.fetching
    case Some(next) =>
      var t := s.(fetching := Some(next + 1));
      if next > s.sentIndex then
        var u := t.(sentIndex := next, sent := s.sent + [LogEntry(next, data)]);
        if more then u else StopFlow(u)
      else t
    case None => s
  }

  function Next(s: Forever, h: Happening): Forever {
    match h
    case Pulse(b, more) => if s.flowing then Pulsed(s, b, more) else s
    case Timeout => ReceiveMissing(s)
    case Chunk(data, more) => Fetched(s, data, more)
    case Over(accepts) => if s.fetching.Some? then Drained(s.(fetching := None), accepts) else s
    case Wanted(behind) =>
      var t := s.(flowing := true);
      if t.fetching.None? && behind then ReceiveMissing(t) else t
  }

  function RunForever(start: nat, events: seq<Happening>): Forever {
    if events == [] then Forever(start, [], None, false, [])
    else Next(RunForever(start, events[..|events| - 1]), events[|events| - 1])
  }

  ghost predicate Tells(log: seq<string>, s: Forever, h: Happening) {
    match h
    case Pulse(b, _) => Agrees(log, b)
    case Chunk(data, _) => s.fetching.Some? ==> Says(log, s.fetching.value, data)
    case _ => true
  }

  ghost predicate Steady(s: Forever, start: nat) {
    && s.sentIndex == start + |s.sent|
    && InOrder(s.sent, start)
    && (s.fetching.Some? ==> s.fetching.value == s.sentIndex + 1)
  }

  ghost predicate Honest(log: seq<string>, s: Forever) { True(log, s.sent) && AllAgree(log, s.ahead) }

  lemma PushedKeeps(log: seq<string>, s: Forever, start: nat, b: Batch, more: bool)
    requires Steady(s, start) && s.fetching.None?
    ensures Steady(Pushed(s, b, more), start) && Pushed(s, b, more).fetching.None?
    ensures Honest(log, s) && Agrees(log, b) ==> Honest(log, Pushed(s, b, more))
    ensures |Pushed(s, b, more).ahead| <= |s.ahead|
  {
    if Fits(s, b) {
      PushKeeps(log, s.sent, start, b, 0);
      assert b.entries[0..] == b.entries;
    }
  }

  lemma {:induction false} DrainedKeeps(log: seq<string>, s: Forever, start: nat, accepts: seq<bool>)
    requires Steady(s, start) && s.fetching.None?
    ensures Steady(Drained(s, accepts), start) && Drained(s, accepts).fetching.None?
    ensures Honest(log, s) ==> Honest(log, Drained(s, accepts))
    decreases |s.ahead|
  {
    if s.ahead != [] {
      var more := accepts == [] || accepts[0];
      PushedKeeps(log, s.(ahead := s.ahead[1..]), start, s.ahead[0], more);
      DrainedKeeps(log, Pushed(s.(ahead := s.ahead[1..]), s.ahead[0], more), start, if accepts == [] then [] else accepts[1..]);
    }
  }

  lemma NextKeeps(log: seq<string>, s: Forever, start: nat, h: Happening)
    requires Steady(s, start)
    ensures Steady(Next(s, h), start)
    ensures Honest(log, s) && Tells(log, s, h) ==> Honest(log, Next(s, h))
  {
    match h
    case Pulse(b, more) =>
      if s.flowing && s.fetching.None? { PushedKeeps(log, s, start, b, more); }
    case Over(accepts) =>
      if s.fetching.Some? { DrainedKeeps(log, s.(fetching := None), start, accepts); }
    case _ =>
  }

  // In every run the stream sends entries one after another, each index once and none
  // left out.
  lemma {:induction false} SentInOrder(start: nat, events: seq<Happening>)
    ensures var s := RunForever(start, events);
            InOrder(s.sent, start) && s.sentIndex == start + |s.sent|
    ensures Steady(RunForever(start, events), start)
  {
    if events != [] {
      SentInOrder(start, events[..|events| - 1]);
      NextKeeps([], RunForever(start, events[..|events| - 1]), start, events[|events| - 1]);
    }
  }

  ghost predicate AllTell(log: seq<string>, start: nat, events: seq<Happening>) {
    forall i {:trigger events[i]} :: 0 <= i < |events| ==> Tells(log, RunForever(start, events[..i]), events[i])
  }

  lemma {:induction false} StaysHonest(log: seq<string>, start: nat, events: seq<Happening>)
    requires AllTell(log, start, events)
    ensures Honest(log, RunForever(start, events))
  {
    if events != [] {
      var before := events[..|events| - 1];
      forall i | 0 <= i < |before| ensures Tells(log, RunForever(start, before[..i]), before[i]) {
        assert before[..i] == events[..i] && before[i] == events[i];
      }
      StaysHonest(log, start, before);
      SentInOrder(start, before);
      var h := events[|events| - 1];
      assert Tells(log, RunForever(start, before), h);
      NextKeeps(log, RunForever(start, before), start, h);
    }
  }

  // If all that was heard is true of the log, what was sent is exactly a part of the log.
  lemma SentIsTheLog(log: seq<string>, start: nat, events: seq<Happening>)
    requires start <= |log|
    requires AllTell(log, start, events)
    ensures var s := RunForever(start, events);
            start <= s.sentIndex <= |log| && s.sent == Numbered(log[start..s.sentIndex], start + 1)
  {
    StaysHonest(log, start, events);
    SentInOrder(start, events);
    InOrderAndTrue(log, RunForever(start, events).sent, start);
  }

  // ---------- What came in the meantime ----------

  // Entries that are fetched one after another while the reader keeps up.
  function Taken(s: Forever, data: seq<string>): Forever
    decreases |data|
  {
    if data == [] then s else Taken(Fetched(s, data[0], true), data[1..])
  }

  lemma FetchedIs(s: Forever, data: string)
    requires s.fetching == Some(s.sentIndex + 1)
    ensures Fetched(s, data, true) == s.(sentIndex := s.sentIndex + 1, fetching := Some(s.sentIndex + 2),
                                         sent := s.sent + [LogEntry(s.sentIndex + 1, data)])
  {
  }

  lemma {:induction false} TakenIs(s: Forever, data: seq<string>)
    requires s.fetching == Some(s.sentIndex + 1)
    ensures Taken(s, data) == s.(sentIndex := s.sentIndex + |data|, fetching := Some(s.sentIndex + 1 + |data|),
                                 sent := s.sent + Numbered(data, s.sentIndex + 1))
    decreases |data|
  {
    if data != [] {
      FetchedIs(s, data[0]);
      TakenIs(Fetched(s, data[0], true), data[1..]);
      PushedFirst(s.sent, data, s.sentIndex + 1);
    }
  }

  // A batch that comes with a gap before it: what is missing is asked for, and when just
  // that is fetched, the stream has gone on with it and then with the batch.
  lemma GapIsBridged(s: Forever, b: Batch, more: bool, data: seq<string>, accepts: seq<bool>)
    requires s.flowing && s.fetching.None? && s.ahead == [] && b.entries != []
    requires b.last > s.sentIndex + |b.entries| && |data| == b.last - |b.entries| - s.sentIndex
    ensures Next(s, Pulse(b, more)).fetching == Some(s.sentIndex + 1) && Next(s, Pulse(b, more)).sent == s.sent
    ensures var u := Next(Taken(Next(s, Pulse(b, more)), data), Over(accepts));
            && u.sentIndex == b.last && u.ahead == [] && u.fetching.None?
            && u.sent == s.sent + Numbered(data + b.entries, s.sentIndex + 1)
  {
    PulseIs(s, b, more);
    Bridged(s, Next(s, Pulse(b, more)), b, data, accepts);
  }

  lemma Bridged(s: Forever, t: Forever, b: Batch, data: seq<string>, accepts: seq<bool>)
    requires b.entries != [] && b.last == s.sentIndex + |data| + |b.entries|
    requires t == s.(ahead := [b], fetching := Some(s.sentIndex + 1))
    ensures var u := Next(Taken(t, data), Over(accepts));
            && u.sentIndex == b.last && u.ahead == [] && u.fetching.None?
            && u.sent == s.sent + Numbered(data + b.entries, s.sentIndex + 1)
  {
    TakenIs(t, data);
    OverWith(s.sent, s.sentIndex + 1, Taken(t, data), b, data, accepts);
  }

  lemma OverWith(sent: seq<LogEntry>, first: nat, v: Forever, b: Batch, data: seq<string>, accepts: seq<bool>)
    requires v.ahead == [b] && v.fetching.Some? && b.entries != [] && b.last == v.sentIndex + |b.entries|
    requires v.sentIndex + 1 == first + |data| && v.sent == sent + Numbered(data, first)
    ensures var u := Next(v, Over(accepts));
            && u.sentIndex == b.last && u.ahead == [] && u.fetching.None?
            && u.sent == sent + Numbered(data + b.entries, first)
  {
    var u := Next(v, Over(accepts));
    OverIs(v, accepts);
    DrainOne(v.(fetching := None), b, accepts);
    assert u.sent == v.sent + Numbered(b.entries, first + |data|);
    PushedBoth(sent, data, b.entries, first);
  }

  lemma PulseIs(s: Forever, b: Batch, more: bool)
    requires s.flowing && s.fetching.None? && s.ahead == [] && b.entries != [] && b.last > s.sentIndex + |b.entries|
    ensures Next(s, Pulse(b, more)) == s.(ahead := [b], fetching := Some(s.sentIndex + 1))
  {
  }

  lemma OverIs(s: Forever, accepts: seq<bool>)
    requires s.fetching.Some?
    ensures Next(s, Over(accepts)) == Drained(s.(fetching := None), accepts)
  {
  }

  lemma DrainOne(s: Forever, b: Batch, accepts: seq<bool>)
    requires s.ahead == [b] && b.entries != [] && b.last == s.sentIndex + |b.entries|
    ensures var t := Drained(s, accepts);
            && t.sentIndex == b.last && t.ahead == [] && t.fetching == s.fetching
            && t.sent == s.sent + Numbered(b.entries, s.sentIndex + 1)
  {
    var t := Pushed(s.(ahead := s.ahead[1..]), b, accepts == [] || accepts[0]);
    assert Drained(s, accepts) == Drained(t, if accepts == [] then [] else accepts[1..]);
  }

  // A push that the reader could not take stops the flow, and nothing that is pulsed is
  // pushed or kept until the reader asks again; it then gets what it missed.
  lemma FlowStops(s: Forever, b: Batch, behind: bool)
    requires Fits(s, b) && b.entries != []
    ensures var t := Pushed(s, b, false);
            && t.sentIndex == b.last && !t.flowing && (s.flowing ==> t.ahead == [])
            && (forall c, more :: Next(t, Pulse(c, more)) == t)
            && Next(t, Wanted(behind)).flowing && (behind ==> Next(t, Wanted(behind)).fetching.Some?)
  {
  }

  class ForeverEntriesStream {
    var sentIndex: nat
    var ahead: seq<Batch>
    var fetching: Option<nat>
    var flowing: bool
    var sent: seq<LogEntry>

    ghost function View(): Forever
      reads this
    {
      Forever(sentIndex, ahead, fetching, flowing, sent)
    }

    constructor (lastIndex: nat)
      ensures View() == RunForever(lastIndex, [])
    {
      sentIndex, ahead, fetching, flowing, sent := lastIndex, [], None, false, [];
    }

    // Tells whether the batch continues the stream, and pushes it then.
    method PushEntries(b: Batch, more: bool) returns (fits: bool)
      modifies this
      ensures fits <==> Fits(old(View()), b)
      ensures View() == Pushed(old(View()), b, more)
    {
      fits := b.last == sentIndex + |b.entries|;
      if fits {
        var index := sentIndex;
        ghost var before := sent;
        var i := 0;
        while i < |b.entries|
          modifies this`sent
          invariant 0 <= i <= |b.entries| && index == sentIndex + i
          invariant sent == before + Numbered(b.entries[..i], sentIndex + 1)
        {
          assert b.entries[..i + 1][..i] == b.entries[..i];
          index := index + 1;
          sent := sent + [LogEntry(index, b.entries[i])];
          i := i + 1;
        }
        assert b.entries[..|b.entries|] == b.entries;
        sentIndex := b.last;
        if b.entries != [] && !more && flowing { flowing, ahead := false, []; }
      }
    }

    method RecvMissingEntries()
      modifies this`fetching
      ensures View() == Next(old(View()), Timeout)
    {
      if fetching == None { fetching := Some(sentIndex + 1); }
    }

    method OnPulse(b: Batch, more: bool)
      requires flowing
      modifies this
      ensures View() == Next(old(View()), Pulse(b, more))
    {
      var pushed := false;
      if fetching == None { pushed := PushEntries(b, more); }
      if !pushed && b.last > sentIndex {
        if b.entries != [] { ahead := ahead + [b]; }
        RecvMissingEntries();
      }
    }

    method OnChunk(data: string, more: bool)
      requires fetching.Some?
      modifies this
      ensures View() == Next(old(View()), Chunk(data, more))
    {
      var logIndex := fetching.value;
      fetching := Some(logIndex + 1);
      if logIndex > sentIndex {
        sentIndex := logIndex;
        sent := sent + [LogEntry(logIndex, data)];
        if !more && flowing { flowing, ahead := false, []; }
      }
    }

    method OnEnd(accepts: seq<bool>)
      requires fetching.Some?
      modifies this
      ensures View() == Next(old(View()), Over(accepts))
    {
      fetching := None;
      ghost var s := View();
      var rest := accepts;
      while ahead != []
        invariant Drained(View(), rest) == Drained(s, accepts)
        decreases |ahead|
      {
        var b := ahead[0];
        ahead := ahead[1..];
        var _ := PushEntries(b, rest == [] || rest[0]);
        rest := if rest == [] then [] else rest[1..];
      }
    }
  }
}
