// The entries request when nothing is lost: every batch is confirmed, each confirmation
// makes room for the next batch, and the client ends with all that it asked for.
module EntriesRun {
  import opened Wrappers
  import opened EntriesRequest

  // ---------- A confirmation ----------

  // Where batch i of the queue begins: the last index before it.
  ghost function End(p: Pipe, i: nat): int
    requires i <= |p.queue|
  {
    p.firstQueued - 1 + Total(p.queue[..i])
  }

  // The pipe without its first batch.
  function Shifted(p: Pipe): Pipe
    requires p.queue != [] && p.nextToSend > 0
  {
    p.(queue := p.queue[1..], nextToSend := p.nextToSend - 1, firstQueued := p.firstQueued + |p.queue[0]|)
  }

  // A confirmation that names the end of the first batch on the way: the batch is done
  // with, and as many of the others are on the way as the limit allows. The pipe is gone if
  // and only if all up to the last index is read from the log and there is at most one
  // batch left to be confirmed, which the client does not confirm.
  lemma ConfirmationGoesOn(limit: nat, log: seq<string>, p: Pipe, confirmed: nat, count: Option<nat>)
    requires limit > 0 && Sound(limit, log, p) && p.queue != [] && p.nextToSend > 0
    requires count != Some(0) && confirmed == End(p, 1)
    ensures var (q, responses, expected) := Confirmed(limit, p, confirmed, count);
            && expected
            && (q.None? <==> p.streamed == p.lastIndex && |p.queue| <= 2)
            && (q.Some? ==>
                  && q.value.queue == p.queue[1..] && q.value.firstQueued == confirmed + 1
                  && q.value.lastIndex == p.lastIndex && q.value.streamed == p.streamed
                  && q.value.nextToSend == Min(limit, |q.value.queue|))
            && |responses| == Min(limit, |p.queue| - 1) - (p.nextToSend - 1)
  {
    OneBatch(p);
    QueueShrinks(limit, log, p);
    PipeGoesOn(limit, log, Shifted(p));
  }

  lemma PipeGoesOn(limit: nat, log: seq<string>, next: Pipe)
    requires limit > 0 && Sound(limit, log, next)
    ensures var (q, responses) := Piped(limit, next);
            && (q.None? <==> next.streamed == next.lastIndex && |next.queue| <= 1)
            && (q.Some? ==>
                  && q.value.queue == next.queue && q.value.firstQueued == next.firstQueued
                  && q.value.lastIndex == next.lastIndex && q.value.streamed == next.streamed
                  && q.value.nextToSend == Min(limit, |next.queue|))
            && |responses| == Min(limit, |next.queue|) - next.nextToSend
  {
    PumpKeeps(limit, log, next);
    PumpSends(limit, log, next);
    ThroughIff(limit, log, Pump(limit, next).0);
  }

  lemma OneBatch(p: Pipe)
    requires p.queue != []
    ensures Total(p.queue[..1]) == |p.queue[0]| && p.queue[..0] == []
    ensures End(p, 1) == p.firstQueued - 1 + |p.queue[0]| && End(p, 0) == p.firstQueued - 1
  {
    assert p.queue[..1][1..] == [] && p.queue[..1][0] == p.queue[0];
  }

  lemma {:induction false} NoEmptyBatch(log: seq<string>, from: nat, queue: seq<seq<string>>)
    requires Stretch(log, from, queue)
    ensures |queue| <= Total(queue)
    decreases |queue|
  {
    if queue != [] { NoEmptyBatch(log, from + |queue[0]|, queue[1..]); }
  }

  lemma {:induction false} TotalOfBoth(queue: seq<seq<string>>, i: nat)
    requires i <= |queue|
    ensures Total(queue) == Total(queue[..i]) + Total(queue[i..])
  {
    if i > 0 {
      TotalOfBoth(queue[1..], i - 1);
      assert queue[..i][1..] == queue[1..][..i - 1] && queue[1..][i - 1..] == queue[i..];
    }
  }

  lemma {:induction false} StretchFrom(log: seq<string>, from: nat, queue: seq<seq<string>>, i: nat)
    requires Stretch(log, from, queue) && i <= |queue|
    ensures Stretch(log, from + Total(queue[..i]), queue[i..])
    decreases i
  {
    if i > 0 {
      StretchFrom(log, from + |queue[0]|, queue[1..], i - 1);
      assert queue[..i][1..] == queue[1..][..i - 1] && queue[1..][i - 1..] == queue[i..];
    }
  }

  // What is not sent yet is less than what is left up to the end of the queue.
  lemma Unsent(limit: nat, log: seq<string>, p: Pipe, i: nat)
    requires Sound(limit, log, p) && i <= |p.queue|
    ensures End(p, i) + (|p.queue| - i) <= p.streamed <= p.lastIndex
  {
    TotalOfBoth(p.queue, i);
    StretchFrom(log, p.firstQueued - 1, p.queue, i);
    NoEmptyBatch(log, End(p, i), p.queue[i..]);
  }

  lemma ThroughIff(limit: nat, log: seq<string>, p: Pipe)
    requires limit > 0 && Sound(limit, log, p) && Full(limit, p)
    ensures Through(p) <==> p.streamed == p.lastIndex && |p.queue| <= 1
  {
    Unsent(limit, log, p, p.nextToSend);
    if |p.queue| <= 1 { assert p.queue[..p.nextToSend] == p.queue; }
  }

  // ---------- What is sent ----------

  // The response that brings batch i of the queue.
  ghost function Bringing(p: Pipe, i: nat): Response
    requires i < |p.queue| && p.firstQueued >= 1
  {
    if End(p, i + 1) == p.lastIndex then Last(End(p, i + 1), p.queue[i]) else More(End(p, i + 1), p.queue[i])
  }

  lemma {:induction false} PumpSends(limit: nat, log: seq<string>, p: Pipe)
    requires Sound(limit, log, p)
    ensures var (q, responses) := Pump(limit, p);
            && q.firstQueued == p.firstQueued && q.queue == p.queue && q.lastIndex == p.lastIndex
            && p.nextToSend <= q.nextToSend <= |p.queue| && |responses| == q.nextToSend - p.nextToSend
            && forall i :: 0 <= i < |responses| ==> responses[i] == Bringing(p, p.nextToSend + i)
    decreases |p.queue| - p.nextToSend
  {
    if p.nextToSend < limit && p.nextToSend < |p.queue| {
      SendOne(limit, log, p);
      var next := Sent(p);
      PumpSends(limit, log, next);
      TotalSplit(p.queue, p.nextToSend);
      var responses, rest := Pump(limit, p).1, Pump(limit, next).1;
      forall i | 0 <= i < |responses| ensures responses[i] == Bringing(p, p.nextToSend + i) {
        if i > 0 { assert responses[i] == rest[i - 1] == Bringing(next, next.nextToSend + i - 1); }
      }
    }
  }

  // ---------- Runs without losses ----------

  predicate Lossless(step: Step) {
    step.Apply? || step.Stream? || step.Serve? || (step.Receive? && !step.enough)
  }

  // The request has not arrived yet.
  ghost predicate Asking(w: World, start: nat, count: Option<nat>) {
    && w.pipe.None? && w.toClient == [] && w.toServer == [Ask(start, count)]
    && w.client.outcome.None? && w.client.prevIndex == start
  }

  // The server is done: the last batch is on its way, or has arrived.
  ghost predicate Served(w: World) {
    && w.pipe.None? && w.toServer == []
    && if w.client.outcome.None?
       then |w.toClient| == 1 && w.toClient[0].Last? && w.toClient[0].last == w.client.prevIndex + |w.toClient[0].entries|
       else w.client.outcome == Some(Complete) && w.toClient == []
  }

  // The first k batches of the queue have come to the client, and their confirmations are
  // on the way back; the others that were sent are on the way to the client.
  ghost predicate Underway(limit: nat, w: World, p: Pipe, k: nat) {
    && Sound(limit, w.log, p) && k <= p.nextToSend && |w.toClient| == p.nextToSend - k
    && (forall i {:trigger w.toClient[i]} :: 0 <= i < |w.toClient| ==> w.toClient[i] == Bringing(p, k + i))
    && Confirming(w, p, k) && w.client.prevIndex == End(p, k)
    && if w.client.outcome.None? then End(p, k) < p.lastIndex
       else w.client.outcome == Some(Complete) && k > 0 && k == p.nextToSend && End(p, k) == p.lastIndex
  }

  // The confirmations on the way; the last batch gets none.
  ghost predicate Confirming(w: World, p: Pipe, k: nat)
    requires k <= |p.queue|
  {
    && |w.toServer| == (if w.client.outcome.None? then k else k - 1)
    && forall j {:trigger w.toServer[j]} :: 0 <= j < |w.toServer| ==>
         w.toServer[j].prevIndex == End(p, j + 1) && w.toServer[j].count != Some(0)
  }

  ghost predicate Flowing(limit: nat, w: World, k: nat) {
    w.pipe.Some? && Full(limit, w.pipe.value) && !Through(w.pipe.value) && Underway(limit, w, w.pipe.value, k)
  }

  ghost predicate Goes(limit: nat, w: World, start: nat, count: Option<nat>) {
    w.leading && (Asking(w, start, count) || Served(w) || exists k: nat :: Flowing(limit, w, k))
  }

  lemma SentToo(w: World, next: Pipe, q: Pipe, sent: seq<Response>, k: nat)
    requires k <= next.nextToSend <= |next.queue| && |w.toClient| == next.nextToSend - k && next.firstQueued >= 1
    requires q.queue == next.queue && q.firstQueued == next.firstQueued && q.lastIndex == next.lastIndex
    requires |sent| == q.nextToSend - next.nextToSend && q.nextToSend <= |q.queue|
    requires forall i {:trigger w.toClient[i]} :: 0 <= i < |w.toClient| ==> w.toClient[i] == Bringing(next, k + i)
    requires forall i :: 0 <= i < |sent| ==> sent[i] == Bringing(next, next.nextToSend + i)
    ensures forall i {:trigger (w.toClient + sent)[i]} :: 0 <= i < |w.toClient + sent| ==> (w.toClient + sent)[i] == Bringing(q, k + i)
  {
    forall i | 0 <= i < |w.toClient + sent| ensures (w.toClient + sent)[i] == Bringing(q, k + i) {
      if i >= |w.toClient| { assert sent[i - |w.toClient|] == Bringing(next, next.nextToSend + (i - |w.toClient|)); }
    }
  }

  lemma PumpedUnderway(limit: nat, w: World, next: Pipe, k: nat, pipe: Option<Pipe>)
    requires limit > 0 && Underway(limit, w, next, k)
    ensures var (q, sent) := Pump(limit, next);
            Underway(limit, w.(pipe := pipe, toClient := w.toClient + sent), q, k) && Full(limit, q)
  {
    var q, sent := Pump(limit, next).0, Pump(limit, next).1;
    PumpKeeps(limit, w.log, next);
    PumpSends(limit, w.log, next);
    SentToo(w, next, q, sent, k);
    if w.client.outcome.Some? { Unsent(limit, w.log, next, k); }
    PumpedIs(limit, w, w.(pipe := pipe, toClient := w.toClient + sent), next, q, k);
  }

  lemma PumpedIs(limit: nat, w: World, t: World, next: Pipe, q: Pipe, k: nat)
    requires Underway(limit, w, next, k) && Sound(limit, w.log, q) && k <= q.nextToSend
    requires q.queue == next.queue && q.firstQueued == next.firstQueued && q.lastIndex == next.lastIndex
    requires t.log == w.log && t.client == w.client && t.toServer == w.toServer && |t.toClient| == q.nextToSend - k
    requires w.client.outcome.Some? ==> q.nextToSend == next.nextToSend
    requires forall i {:trigger t.toClient[i]} :: 0 <= i < |t.toClient| ==> t.toClient[i] == Bringing(q, k + i)
    ensures Underway(limit, t, q, k)
  {
    forall i: nat | i <= |q.queue| ensures End(q, i) == End(next, i) {}
  }

  // All is sent and at most one batch is left to be confirmed.
  lemma ThroughIsServed(limit: nat, w: World, p: Pipe, k: nat)
    requires limit > 0 && Underway(limit, w, p, k) && Full(limit, p) && Through(p) && w.pipe.None?
    ensures Served(w)
  {
    assert p.queue[..p.nextToSend] == p.queue;
    if k < p.nextToSend {
      assert k == 0 && p.nextToSend == 1 && |w.toClient| == 1;
      assert w.toClient[0] == Bringing(p, 0 + 0);
      assert p.queue[..0 + 1] == p.queue;
      OneBatch(p);
    }
  }

  // Responses that were sent, with the pipe that they leave.
  lemma PipedFlows(limit: nat, w: World, next: Pipe, k: nat)
    requires limit > 0 && Underway(limit, w, next, k)
    ensures var (q, responses) := Piped(limit, next);
            var t := w.(pipe := q, toClient := w.toClient + responses);
            if q.Some? then Flowing(limit, t, k) else Served(t)
  {
    var (q, responses) := Piped(limit, next);
    PumpedUnderway(limit, w, next, k, q);
    if q.None? { ThroughIsServed(limit, w.(pipe := q, toClient := w.toClient + responses), Pump(limit, next).0, k); }
  }

  // ---------- Every step ----------

  lemma StreamGoes(limit: nat, w: World, n: nat, k: nat)
    requires limit > 0 && Flowing(limit, w, k)
    ensures var t := After(limit, w, Stream(n)); Flowing(limit, t, k) || Served(t)
  {
    var p := w.pipe.value;
    if 0 < n <= p.lastIndex - p.streamed && p.streamed + n <= |w.log| {
      StreamFlows(limit, w, p, w.log[p.streamed..p.streamed + n], k);
      StreamIs(limit, w, n);
    }
  }

  lemma StreamIs(limit: nat, w: World, n: nat)
    requires w.pipe.Some?
    requires 0 < n <= w.pipe.value.lastIndex - w.pipe.value.streamed && w.pipe.value.streamed + n <= |w.log|
    ensures var p := w.pipe.value;
            var (q, responses) := Streamed(limit, p, w.log[p.streamed..p.streamed + n]);
            After(limit, w, Stream(n)) == w.(pipe := q, toClient := w.toClient + responses)
  {
  }

  lemma StreamFlows(limit: nat, w: World, p: Pipe, entries: seq<string>, k: nat)
    requires limit > 0 && Underway(limit, w, p, k) && 0 < |entries| <= p.lastIndex - p.streamed
    requires p.streamed + |entries| <= |w.log| && entries == w.log[p.streamed..p.streamed + |entries|]
    ensures var (q, responses) := Streamed(limit, p, entries);
            var t := w.(pipe := q, toClient := w.toClient + responses);
            if q.Some? then Flowing(limit, t, k) else Served(t)
  {
    QueueGrows(limit, w.log, p, entries);
    var next := p.(queue := p.queue + [entries], streamed := p.streamed + |entries|);
    StillUnderway(limit, w, p, next, entries, k);
    PipedFlows(limit, w, next, k);
  }

  lemma StillUnderway(limit: nat, w: World, p: Pipe, next: Pipe, entries: seq<string>, k: nat)
    requires Underway(limit, w, p, k) && Sound(limit, w.log, next)
    requires next == p.(queue := p.queue + [entries], streamed := p.streamed + |entries|)
    ensures Underway(limit, w, next, k)
  {
    forall i: nat | i <= |p.queue| ensures End(next, i) == End(p, i) { assert next.queue[..i] == p.queue[..i]; }
    forall i | 0 <= i < |w.toClient| ensures w.toClient[i] == Bringing(next, k + i) {
      assert w.toClient[i] == Bringing(p, k + i);
      assert next.queue[k + i] == p.queue[k + i];
    }
  }

  // The first confirmation arrives.
  lemma ConfirmedGoes(limit: nat, w: World, k: nat)
    requires limit > 0 && w.leading && Flowing(limit, w, k) && w.toServer != []
    ensures var t := After(limit, w, Serve); Flowing(limit, t, k - 1) || Served(t)
  {
    var p := w.pipe.value;
    assert w.toServer[0].prevIndex == End(p, 0 + 1);
    QueueShrinks(limit, w.log, p);
    ShiftedUnderway(limit, w, p, Shifted(p), k);
    PipedFlows(limit, w.(toServer := w.toServer[1..]), Shifted(p), k - 1);
    ConfirmedIs(limit, w);
  }

  lemma ConfirmedIs(limit: nat, w: World)
    requires w.leading && w.pipe.Some? && w.toServer != [] && w.pipe.value.queue != [] && w.pipe.value.nextToSend > 0
    requires w.toServer[0].count != Some(0) && w.toServer[0].prevIndex == End(w.pipe.value, 1)
    ensures var (q, responses) := Piped(limit, Shifted(w.pipe.value));
            After(limit, w, Serve) == w.(toServer := w.toServer[1..], pipe := q, toClient := w.toClient + responses)
  {
    OneBatch(w.pipe.value);
  }

  lemma ShiftedUnderway(limit: nat, w: World, p: Pipe, next: Pipe, k: nat)
    requires Underway(limit, w, p, k) && k > 0 && w.toServer != [] && Sound(limit, w.log, next)
    requires next == Shifted(p)
    ensures Underway(limit, w.(toServer := w.toServer[1..]), next, k - 1)
  {
    forall i: nat | i < |p.queue| ensures End(next, i) == End(p, i + 1) {
      assert p.queue[..i + 1][1..] == next.queue[..i] && p.queue[..i + 1][0] == p.queue[0];
    }
    forall i | 0 <= i < |w.toClient| ensures w.toClient[i] == Bringing(next, k - 1 + i) {
      assert w.toClient[i] == Bringing(p, k + i);
      assert next.queue[k - 1 + i] == p.queue[k + i];
    }
    forall j | 0 <= j < |w.toServer[1..]|
      ensures w.toServer[1..][j].prevIndex == End(next, j + 1) && w.toServer[1..][j].count != Some(0)
    {
      assert w.toServer[1..][j] == w.toServer[j + 1];
    }
  }

  // What the client makes of the batch, and what it confirms.
  lemma TakesBatch(c: Client, r: Response)
    requires c.outcome.None? && !r.NotLeader? && r.last == c.prevIndex + |r.entries|
    requires r.More? && c.count.Some? ==> c.count.value > |r.entries|
    ensures var (d, asks) := Answered(c, r, false);
            && d.prevIndex == r.last
            && if r.Last? then d.outcome == Some(Complete) && asks == []
               else d.outcome.None? && |asks| == 1 && asks[0].prevIndex == r.last && asks[0].count != Some(0)
  {
  }

  // A batch comes to the client.
  lemma ReceivedGoes(limit: nat, w: World, start: nat, count: Option<nat>, applied: nat, k: nat)
    requires Inv(limit, w, start, count, applied) && Flowing(limit, w, k) && w.toClient != []
    ensures Flowing(limit, After(limit, w, Receive(false)), k + 1)
  {
    var p, r := w.pipe.value, w.toClient[0];
    assert r == Bringing(p, k + 0);
    TotalSplit(p.queue, k);
    Unsent(limit, w.log, p, k + 1);
    SentEndsAt(limit, w.log, p, k + 1);
    TakesBatch(w.client, r);
    var (c, asks) := Answered(w.client, r, false);
    BatchTaken(limit, w, w.(toClient := w.toClient[1..], client := c, toServer := w.toServer + asks), p, k, asks);
  }

  lemma BatchTaken(limit: nat, w: World, t: World, p: Pipe, k: nat, asks: seq<Ask>)
    requires Underway(limit, w, p, k) && k < p.nextToSend && w.client.outcome.None?
    requires t == w.(toClient := w.toClient[1..], client := t.client, toServer := w.toServer + asks)
    requires t.client.prevIndex == End(p, k + 1) && End(p, k + 1) + (p.nextToSend - k - 1) <= p.lastIndex
    requires if End(p, k + 1) == p.lastIndex then t.client.outcome == Some(Complete) && asks == []
             else t.client.outcome.None? && |asks| == 1 && asks[0].prevIndex == End(p, k + 1) && asks[0].count != Some(0)
    ensures Underway(limit, t, p, k + 1)
  {
    forall i | 0 <= i < |t.toClient| ensures t.toClient[i] == Bringing(p, k + 1 + i) {
      assert t.toClient[i] == w.toClient[i + 1] == Bringing(p, k + (i + 1));
    }
    forall j | 0 <= j < |t.toServer| ensures t.toServer[j].prevIndex == End(p, j + 1) && t.toServer[j].count != Some(0) {
      if j < |w.toServer| { assert t.toServer[j] == w.toServer[j]; } else { assert t.toServer[j] == asks[j - |w.toServer|]; }
    }
  }

  // Batches that were sent end before the last index, unless they are all that was sent.
  lemma SentEndsAt(limit: nat, log: seq<string>, p: Pipe, i: nat)
    requires Sound(limit, log, p) && i <= p.nextToSend
    ensures End(p, i) + (p.nextToSend - i) <= p.prevIndex <= p.lastIndex
  {
    var sent := p.queue[..p.nextToSend];
    StretchTo(log, p.firstQueued - 1, p.queue, p.nextToSend);
    TotalOfBoth(sent, i);
    assert sent[..i] == p.queue[..i];
    StretchFrom(log, p.firstQueued - 1, sent, i);
    NoEmptyBatch(log, End(p, i), sent[i..]);
    Unsent(limit, log, p, p.nextToSend);
  }

  lemma {:induction false} StretchTo(log: seq<string>, from: nat, queue: seq<seq<string>>, i: nat)
    requires Stretch(log, from, queue) && i <= |queue|
    ensures Stretch(log, from, queue[..i])
    decreases i
  {
    if i > 0 {
      StretchTo(log, from + |queue[0]|, queue[1..], i - 1);
      assert queue[..i][1..] == queue[1..][..i - 1];
    }
  }

  // The request arrives.
  lemma AskedGoes(limit: nat, w: World, start: nat, count: Option<nat>)
    requires limit > 0 && w.leading && Asking(w, start, count) && start <= w.lastApplied && count != Some(0)
    ensures var t := After(limit, w, Serve); Flowing(limit, t, 0) || Served(t)
  {
    var t := After(limit, w, Serve);
    if t.pipe.Some? { assert t.pipe.value.queue[..0] == []; }
  }

  lemma AppliedGoes(limit: nat, w: World, entries: seq<string>, k: nat)
    requires limit > 0 && Flowing(limit, w, k)
    ensures Flowing(limit, After(limit, w, Apply(entries)), k)
  {
    var p := w.pipe.value;
    StretchLonger(w.log, entries, p.firstQueued - 1, p.queue);
    var t := After(limit, w, Apply(entries));
    forall i | 0 <= i < |t.toClient| ensures t.toClient[i] == Bringing(p, k + i) { assert w.toClient[i] == Bringing(p, k + i); }
    forall j | 0 <= j < |t.toServer| ensures t.toServer[j].prevIndex == End(p, j + 1) && t.toServer[j].count != Some(0) {
      assert t.toServer[j] == w.toServer[j];
    }
  }

  lemma FlowingGoes(limit: nat, w: World, start: nat, count: Option<nat>, applied: nat, step: Step, k: nat)
    requires Inv(limit, w, start, count, applied) && w.leading && Flowing(limit, w, k) && Lossless(step)
    ensures var t := After(limit, w, step); Served(t) || exists n: nat :: Flowing(limit, t, n)
  {
    match step
    case Apply(entries) => AppliedGoes(limit, w, entries, k);
    case Stream(n) => StreamGoes(limit, w, n, k);
    case Serve => if w.toServer != [] { ConfirmedGoes(limit, w, k); }
    case Receive(_) => if w.toClient != [] { ReceivedGoes(limit, w, start, count, applied, k); }
  }

  lemma StepGoes(limit: nat, w: World, start: nat, count: Option<nat>, applied: nat, step: Step)
    requires Inv(limit, w, start, count, applied) && Goes(limit, w, start, count) && Lossless(step)
    requires start <= applied && count != Some(0)
    ensures Goes(limit, After(limit, w, step), start, count)
  {
    if Asking(w, start, count) {
      if step.Serve? { AskedGoes(limit, w, start, count); }
    } else if !Served(w) {
      var k: nat :| Flowing(limit, w, k);
      FlowingGoes(limit, w, start, count, applied, step, k);
    }
  }

  lemma {:induction false} EveryLosslessRun(limit: nat, log: seq<string>, start: nat, count: Option<nat>, steps: seq<Step>)
    requires limit > 0 && (count.Some? ==> count.value > 0) && start <= |log|
    requires forall i :: 0 <= i < |steps| ==> Lossless(steps[i])
    ensures Goes(limit, Run(limit, log, start, count, steps), start, count)
  {
    if steps != [] {
      var before := steps[..|steps| - 1];
      EveryLosslessRun(limit, log, start, count, before);
      EveryRun(limit, log, start, count, before);
      StepGoes(limit, Run(limit, log, start, count, before), start, count, |log|, steps[|steps| - 1]);
    }
  }

  // Nothing is on its way, and the leader has read all that it is to send.
  predicate Quiet(w: World) {
    && w.toClient == [] && w.toServer == []
    && (w.pipe.Some? ==> w.pipe.value.streamed == w.pipe.value.lastIndex)
  }

  lemma QuietIsServed(limit: nat, w: World, start: nat, count: Option<nat>)
    requires limit > 0 && Goes(limit, w, start, count) && Quiet(w)
    ensures w.client.outcome == Some(Complete)
  {
    if !Served(w) {
      var k: nat :| Flowing(limit, w, k);
      ThroughIff(limit, w.log, w.pipe.value);
      SentEndsAt(limit, w.log, w.pipe.value, k);
      Unsent(limit, w.log, w.pipe.value, k);
      assert false;
    }
  }

  // In every run in which nothing is lost or cancelled, the leader stays the leader and the
  // client does not stop: when nothing is left to be done, the client is told that it has
  // all, and has all that it asked for, or all that was applied when it began.
  lemma AllArrives(limit: nat, log: seq<string>, start: nat, count: Option<nat>, steps: seq<Step>)
    requires limit > 0 && (count.Some? ==> count.value > 0) && start <= |log|
    requires forall i :: 0 <= i < |steps| ==> Lossless(steps[i])
    requires Quiet(Run(limit, log, start, count, steps))
    ensures var w := Run(limit, log, start, count, steps);
            var last := start + |w.client.received|;
            && w.client.outcome == Some(Complete)
            && last <= |w.log| && w.client.received == w.log[start..last]
            && (last >= |log| || (count.Some? && last == start + count.value))
            && (count.Some? ==> last <= start + count.value)
  {
    EveryLosslessRun(limit, log, start, count, steps);
    QuietIsServed(limit, Run(limit, log, start, count, steps), start, count);
    CompleteIsAll(limit, log, start, count, steps);
    ReceiverGetsTheLog(limit, log, start, count, steps);
    EveryRun(limit, log, start, count, steps);
    LongLog(limit, log, start, count, steps);
  }

  lemma {:induction false} LongLog(limit: nat, log: seq<string>, start: nat, count: Option<nat>, steps: seq<Step>)
    ensures |log| <= |Run(limit, log, start, count, steps).log|
  {
    if steps != [] { LongLog(limit, log, start, count, steps[..|steps| - 1]); }
  }
}
