// Streaming of log entries from a leader to a client: the leader keeps a few batches on
// the way and waits for confirmations, the client checks that they follow one another.
module EntriesRequest {
  import opened Wrappers

  // ---------- The pipe of the leader ----------

  datatype Response = NotLeader | More(last: nat, entries: seq<string>) | Last(last: nat, entries: seq<string>)

  // The first `nextToSend` of the queued batches were sent and are not confirmed. The
  // log stream has yielded all up to the index `streamed`.
  datatype Pipe = Pipe(
    queue: seq<seq<string>>,
    nextToSend: nat,
    prevIndex: nat,
    firstQueued: nat,
    streamed: nat,
    lastIndex: nat)

  function Min(a: nat, b: nat): nat { if a < b then a else b }

  // Sends batches while the limit allows it.
  function Pump(limit: nat, p: Pipe): (Pipe, seq<Response>)
    decreases |p.queue| - p.nextToSend
  {
    if p.nextToSend < limit && p.nextToSend < |p.queue| then
      var entries := p.queue[p.nextToSend];
      var prevIndex := p.prevIndex + |entries|;
      var r := if prevIndex == p.lastIndex then Last(prevIndex, entries) else More(prevIndex, entries);
      var (q, rest) := Pump(limit, p.(nextToSend := p.nextToSend + 1, prevIndex := prevIndex));
      (q, [r] + rest)
    else (p, [])
  }

  // Whether everything was sent and no more confirmation is due.
  predicate Through(p: Pipe) { p.prevIndex == p.lastIndex && |p.queue| <= 1 }

  function Piped(limit: nat, p: Pipe): (Option<Pipe>, seq<Response>) {
    var (q, responses) := Pump(limit, p);
    (if Through(q) then None else Some(q), responses)
  }

  function Streamed(limit: nat, p: Pipe, entries: seq<string>): (Option<Pipe>, seq<Response>) {
    Piped(limit, p.(queue := p.queue + [entries], streamed := p.streamed + |entries|))
  }

  // A confirmation, and whether it was one that the pipe expected.
  function Confirmed(limit: nat, p: Pipe, prevIndex: nat, count: Option<nat>): (Option<Pipe>, seq<Response>, bool) {
    if count == Some(0) then (None, [], true)
    else if p.queue == [] || p.nextToSend == 0 then (None, [], false)
    else
      var firstQueued := p.firstQueued + |p.queue[0]|;
      if prevIndex + 1 != firstQueued then (None, [], false)
      else
        var (q, responses) :=
          Piped(limit, p.(queue := p.queue[1..], nextToSend := p.nextToSend - 1, firstQueued := firstQueued));
        (q, responses, true)
  }

  // A request that no pipe takes opens a new one.
  function Opened(lastApplied: nat, prevIndex: nat, count: Option<nat>): (Option<Pipe>, seq<Response>) {
    if count == Some(0) then (None, [])
    else
      var lastIndex := if count.None? || prevIndex + count.value > lastApplied then lastApplied
                       else prevIndex + count.value;
      if prevIndex + 1 > lastIndex then (None, [Last(lastIndex, [])])
      else (Some(Pipe([], 0, prevIndex, prevIndex + 1, prevIndex, lastIndex)), [])
  }

  function Handled(limit: nat, lastApplied: nat, pipe: Option<Pipe>, prevIndex: nat, count: Option<nat>): (Option<Pipe>, seq<Response>) {
    match pipe
    case None => Opened(lastApplied, prevIndex, count)
    case Some(p) =>
      var (q, responses, expected) := Confirmed(limit, p, prevIndex, count);
      if expected then (q, responses) else Opened(lastApplied, prevIndex, count)
  }

  // ---------- The client ----------

  datatype Outcome = Complete | Stopped | OutOfOrder | PeerNotLeader

  datatype Ask = Ask(prevIndex: nat, count: Option<nat>)

  // `named` is the index that the client names when it asks again, here or elsewhere.
  datatype Client = Client(prevIndex: nat, count: Option<nat>, received: seq<string>, named: nat, outcome: Option<Outcome>)

  // What the client makes of a response, and what it asks for next. The index is named
  // before the order is checked. `enough` tells that the receiver wants to stop.
  function Answered(c: Client, r: Response, enough: bool): (Client, seq<Ask>) {
    if r.NotLeader? then (c.(outcome := Some(PeerNotLeader)), [])
    else if r.last != c.prevIndex + |r.entries| then (c.(named := r.last, outcome := Some(OutOfOrder)), [])
    else
      var left := if c.count.None? then None
                  else if c.count.value > |r.entries| then Some(c.count.value - |r.entries|)
                  else Some(0);
      var d := c.(named := r.last, prevIndex := r.last, received := c.received + r.entries, count := left);
      if r.Last? then (d.(outcome := Some(Complete)), [])
      else if left == Some(0) then (d.(outcome := Some(Complete)), [Ask(r.last, Some(0))])
      else if enough then (d.(outcome := Some(Stopped)), [Ask(r.last, Some(0))])
      else (d, [Ask(r.last, left)])
  }

  // ---------- Both, and what is on the way between them ----------

  datatype World = World(
    log: seq<string>,
    lastApplied: nat,
    leading: bool,
    pipe: Option<Pipe>,
    toClient: seq<Response>,
    toServer: seq<Ask>,
    client: Client)

  datatype Step =
    | Apply(entries: seq<string>)
    | Stream(n: nat)
    | Serve
    | Receive(enough: bool)
    | Cancel
    | Recede
    | LoseResponse(at: nat)
    | LoseAsk(at: nat)
    | AskAgain

  function After(limit: nat, w: World, step: Step): World {
    match step
    case Apply(entries) => w.(log := w.log + entries, lastApplied := |w.log + entries|)
    case Stream(n) =>
      if w.pipe.Some? && 0 < n <= w.pipe.value.lastIndex - w.pipe.value.streamed && w.pipe.value.streamed + n <= |w.log| then
        var p := w.pipe.value;
        var (q, responses) := Streamed(limit, p, w.log[p.streamed..p.streamed + n]);
        w.(pipe := q, toClient := w.toClient + responses)
      else w
    case Serve =>
      if w.toServer == [] then w
      else if !w.leading then w.(toServer := w.toServer[1..], toClient := w.toClient + [NotLeader])
      else
        var ask := w.toServer[0];
        var (q, responses) := Handled(limit, w.lastApplied, w.pipe, ask.prevIndex, ask.count);
        w.(toServer := w.toServer[1..], pipe := q, toClient := w.toClient + responses)
    case Receive(enough) =>
      if w.toClient == [] then w
      else if w.client.outcome.Some? then w.(toClient := w.toClient[1..])
      else
        var (c, asks) := Answered(w.client, w.toClient[0], enough);
        w.(toClient := w.toClient[1..], client := c, toServer := w.toServer + asks)
    case Cancel => w.(pipe := None)
    case Recede => w.(leading := false, pipe := None)
    case LoseResponse(at) => if at < |w.toClient| then w.(toClient := w.toClient[..at] + w.toClient[at + 1..]) else w
    case LoseAsk(at) => if at < |w.toServer| then w.(toServer := w.toServer[..at] + w.toServer[at + 1..]) else w
    case AskAgain =>
      if w.client.outcome.None? then w.(toServer := w.toServer + [Ask(w.client.named, w.client.count)]) else w
  }

  // A client that asks for what follows an index: all of it, or so many entries.
  function Begin(log: seq<string>, start: nat, count: Option<nat>): World {
    World(log, |log|, true, None, [], [Ask(start, count)], Client(start, count, [], start, None))
  }

  function Run(limit: nat, log: seq<string>, start: nat, count: Option<nat>, steps: seq<Step>): World {
    if steps == [] then Begin(log, start, count)
    else After(limit, Run(limit, log, start, count, steps[..|steps| - 1]), steps[|steps| - 1])
  }

  // ---------- What is kept ----------

  // The last index that the client may get, if it gave a count.
  predicate Within(start: nat, count: Option<nat>, index: nat) { count.Some? ==> index <= start + count.value }

  // The queued batches are a stretch of the log, from the index after `from` on.
  ghost predicate Stretch(log: seq<string>, from: nat, queue: seq<seq<string>>)
    decreases |queue|
  {
    queue == [] ||
    (var n := |queue[0]|;
     n > 0 && from + n <= |log| && queue[0] == log[from..from + n] && Stretch(log, from + n, queue[1..]))
  }

  ghost function Total(queue: seq<seq<string>>): nat {
    if queue == [] then 0 else |queue[0]| + Total(queue[1..])
  }

  // The pipe without the part that was sent.
  ghost predicate Sound(limit: nat, log: seq<string>, p: Pipe) {
    && p.firstQueued >= 1
    && p.nextToSend <= |p.queue| && p.nextToSend <= limit
    && Stretch(log, p.firstQueued - 1, p.queue)
    && p.prevIndex == p.firstQueued - 1 + Total(p.queue[..p.nextToSend])
    && p.streamed == p.firstQueued - 1 + Total(p.queue)
    && p.streamed <= p.lastIndex
  }

  // Everything is sent that the limit allows.
  ghost predicate Full(limit: nat, p: Pipe) { p.nextToSend == Min(limit, |p.queue|) }

  // The response tells the truth about the log, up to what was applied.
  ghost predicate Truthful(log: seq<string>, upTo: nat, r: Response) {
    r.NotLeader? || (|r.entries| <= r.last <= upTo && r.last <= |log| && r.entries == log[r.last - |r.entries|..r.last])
  }

  lemma {:induction false} TotalSplit(queue: seq<seq<string>>, i: nat)
    requires i < |queue|
    ensures Total(queue[..i + 1]) == Total(queue[..i]) + |queue[i]|
    ensures Total(queue[..i + 1]) <= Total(queue)
  {
    if i > 0 {
      assert queue[..i + 1][1..] == queue[1..][..i];
      assert queue[..i][1..] == queue[1..][..i - 1];
      TotalSplit(queue[1..], i - 1);
    } else {
      assert queue[..1][1..] == [];
    }
  }

  lemma {:induction false} StretchAt(log: seq<string>, from: nat, queue: seq<seq<string>>, i: nat)
    requires Stretch(log, from, queue) && i < |queue|
    ensures var at := from + Total(queue[..i]);
            |queue[i]| > 0 && at + |queue[i]| <= |log| && queue[i] == log[at..at + |queue[i]|]
    decreases |queue|
  {
    if i > 0 {
      StretchAt(log, from + |queue[0]|, queue[1..], i - 1);
      assert queue[..i][1..] == queue[1..][..i - 1];
    }
  }

  lemma {:induction false} StretchMore(log: seq<string>, from: nat, queue: seq<seq<string>>, entries: seq<string>)
    requires Stretch(log, from, queue) && entries != []
    requires var at := from + Total(queue); at + |entries| <= |log| && entries == log[at..at + |entries|]
    ensures Stretch(log, from, queue + [entries])
    ensures Total(queue + [entries]) == Total(queue) + |entries|
    decreases |queue|
  {
    var more := queue + [entries];
    if queue == [] {
      assert more == [entries] && more[1..] == [];
    } else {
      assert more[1..] == queue[1..] + [entries];
      StretchMore(log, from + |queue[0]|, queue[1..], entries);
    }
  }

  lemma {:induction false} StretchLonger(log: seq<string>, more: seq<string>, from: nat, queue: seq<seq<string>>)
    requires Stretch(log, from, queue)
    ensures Stretch(log + more, from, queue)
    decreases |queue|
  {
    if queue != [] {
      StretchLonger(log, more, from + |queue[0]|, queue[1..]);
      assert (log + more)[from..from + |queue[0]|] == log[from..from + |queue[0]|];
    }
  }

  // Of what is sent, one after another: each response continues where the last one
  // ended, and the one that ends at the last index, and no other, is marked as the last.
  ghost predicate Continues(p: Pipe, log: seq<string>, responses: seq<Response>, from: nat) {
    responses == [] ||
    (var r := responses[0];
     && !r.NotLeader? && r.entries != [] && r.last == from + |r.entries|
     && (r.Last? <==> r.last == p.lastIndex)
     && r.last <= p.lastIndex && r.last <= |log| && r.entries == log[from..r.last]
     && Continues(p, log, responses[1..], r.last))
  }

  // The pipe and the response after one batch is sent.
  function Sent(p: Pipe): Pipe
    requires p.nextToSend < |p.queue|
  {
    p.(nextToSend := p.nextToSend + 1, prevIndex := p.prevIndex + |p.queue[p.nextToSend]|)
  }

  lemma SendOne(limit: nat, log: seq<string>, p: Pipe)
    requires Sound(limit, log, p) && p.nextToSend < limit && p.nextToSend < |p.queue|
    ensures Sound(limit, log, Sent(p))
    ensures var entries := p.queue[p.nextToSend];
            var last := p.prevIndex + |entries|;
            entries != [] && last <= p.lastIndex && last <= |log| && entries == log[p.prevIndex..last]
  {
    TotalSplit(p.queue, p.nextToSend);
    StretchAt(log, p.firstQueued - 1, p.queue, p.nextToSend);
  }

  lemma ContinuesFrom(p: Pipe, log: seq<string>, r: Response, rest: seq<Response>, from: nat)
    requires !r.NotLeader? && r.entries != [] && r.last == from + |r.entries|
    requires (r.Last? <==> r.last == p.lastIndex) && r.last <= p.lastIndex && r.last <= |log|
    requires r.entries == log[from..r.last]
    requires Continues(p, log, rest, r.last)
    ensures Continues(p, log, [r] + rest, from)
  {
    assert ([r] + rest)[1..] == rest;
  }

  lemma {:induction false} PumpKeeps(limit: nat, log: seq<string>, p: Pipe)
    requires Sound(limit, log, p)
    ensures var q := Pump(limit, p).0;
            && Sound(limit, log, q) && Full(limit, q)
            && q.queue == p.queue && q.lastIndex == p.lastIndex && q.streamed == p.streamed
    ensures Continues(p, log, Pump(limit, p).1, p.prevIndex)
    decreases |p.queue| - p.nextToSend
  {
    if p.nextToSend < limit && p.nextToSend < |p.queue| {
      SendOne(limit, log, p);
      var entries := p.queue[p.nextToSend];
      var next := Sent(p);
      PumpKeeps(limit, log, next);
      var rest := Pump(limit, next).1;
      ContinuesAlike(next, p, log, rest, next.prevIndex);
      var r := if next.prevIndex == p.lastIndex then Last(next.prevIndex, entries) else More(next.prevIndex, entries);
      ContinuesFrom(p, log, r, rest, p.prevIndex);
    }
  }

  lemma {:induction false} ContinuesAlike(p: Pipe, q: Pipe, log: seq<string>, responses: seq<Response>, from: nat)
    requires Continues(p, log, responses, from) && p.lastIndex == q.lastIndex
    ensures Continues(q, log, responses, from)
    decreases |responses|
  {
    if responses != [] { ContinuesAlike(p, q, log, responses[1..], responses[0].last); }
  }

  lemma {:induction false} ContinuesIsTrue(p: Pipe, log: seq<string>, responses: seq<Response>, from: nat, i: nat)
    requires Continues(p, log, responses, from) && i < |responses|
    ensures Truthful(log, p.lastIndex, responses[i])
    ensures !responses[i].NotLeader? && (responses[i].Last? <==> responses[i].last == p.lastIndex)
    decreases i
  {
    if i > 0 { ContinuesIsTrue(p, log, responses[1..], responses[0].last, i - 1); }
  }

  // What a pipe is after a step, and what the step sends.
  ghost predicate Moves(limit: nat, log: seq<string>, p: Pipe, q: Option<Pipe>, responses: seq<Response>) {
    && (q.Some? ==> Sound(limit, log, q.value) && Full(limit, q.value) && q.value.lastIndex == p.lastIndex)
    && Continues(p, log, responses, p.prevIndex)
  }

  lemma PipedKeeps(limit: nat, log: seq<string>, p: Pipe)
    requires Sound(limit, log, p)
    ensures Moves(limit, log, p, Piped(limit, p).0, Piped(limit, p).1)
  {
    PumpKeeps(limit, log, p);
  }

  lemma MovesAlike(limit: nat, log: seq<string>, next: Pipe, p: Pipe, q: Option<Pipe>, responses: seq<Response>)
    requires Moves(limit, log, next, q, responses)
    requires next.lastIndex == p.lastIndex && next.prevIndex == p.prevIndex
    ensures Moves(limit, log, p, q, responses)
  {
    ContinuesAlike(next, p, log, responses, p.prevIndex);
  }

  lemma QueueGrows(limit: nat, log: seq<string>, p: Pipe, entries: seq<string>)
    requires Sound(limit, log, p) && 0 < |entries| <= p.lastIndex - p.streamed && p.streamed + |entries| <= |log|
    requires entries == log[p.streamed..p.streamed + |entries|]
    ensures Sound(limit, log, p.(queue := p.queue + [entries], streamed := p.streamed + |entries|))
  {
    StretchMore(log, p.firstQueued - 1, p.queue, entries);
    assert (p.queue + [entries])[..p.nextToSend] == p.queue[..p.nextToSend];
  }

  // The pipe after it took a batch from the log stream.
  lemma StreamedKeeps(limit: nat, log: seq<string>, p: Pipe, entries: seq<string>)
    requires Sound(limit, log, p) && 0 < |entries| <= p.lastIndex - p.streamed && p.streamed + |entries| <= |log|
    requires entries == log[p.streamed..p.streamed + |entries|]
    ensures Moves(limit, log, p, Streamed(limit, p, entries).0, Streamed(limit, p, entries).1)
  {
    QueueGrows(limit, log, p, entries);
    var next := p.(queue := p.queue + [entries], streamed := p.streamed + |entries|);
    PipedKeeps(limit, log, next);
    MovesAlike(limit, log, next, p, Piped(limit, next).0, Piped(limit, next).1);
  }

  lemma QueueShrinks(limit: nat, log: seq<string>, p: Pipe)
    requires Sound(limit, log, p) && p.queue != [] && p.nextToSend > 0
    ensures Sound(limit, log, p.(queue := p.queue[1..], nextToSend := p.nextToSend - 1,
                                 firstQueued := p.firstQueued + |p.queue[0]|))
  {
    assert p.queue[..p.nextToSend][1..] == p.queue[1..][..p.nextToSend - 1];
  }

  // A confirmation takes exactly the first batch that was sent off the queue.
  lemma ConfirmedKeeps(limit: nat, log: seq<string>, p: Pipe, prevIndex: nat, count: Option<nat>)
    requires Sound(limit, log, p)
    ensures Moves(limit, log, p, Confirmed(limit, p, prevIndex, count).0, Confirmed(limit, p, prevIndex, count).1)
  {
    if count != Some(0) && p.queue != [] && p.nextToSend > 0 && prevIndex + 1 == p.firstQueued + |p.queue[0]| {
      QueueShrinks(limit, log, p);
      var next := p.(queue := p.queue[1..], nextToSend := p.nextToSend - 1, firstQueued := p.firstQueued + |p.queue[0]|);
      PipedKeeps(limit, log, next);
      MovesAlike(limit, log, next, p, Piped(limit, next).0, Piped(limit, next).1);
    }
  }

  // ---------- The whole ----------

  // What the pipe may send is what the client asked for, and applied.
  ghost predicate PipeIsSound(limit: nat, w: World, start: nat, count: Option<nat>, applied: nat) {
    w.pipe.Some? ==>
      && Sound(limit, w.log, w.pipe.value) && Full(limit, w.pipe.value)
      && w.pipe.value.lastIndex <= w.lastApplied
      && Within(start, count, w.pipe.value.lastIndex)
      && Enough(start, count, applied, w.pipe.value.lastIndex)
  }

  // The index is as far as the client wanted, or as far as was applied at the start.
  ghost predicate Enough(start: nat, count: Option<nat>, applied: nat, index: nat) {
    index >= applied || (count.Some? && index >= start + count.value)
  }

  ghost predicate ResponseIsSound(w: World, start: nat, count: Option<nat>, applied: nat, r: Response) {
    && Truthful(w.log, w.lastApplied, r)
    && (!r.NotLeader? && r.entries != [] ==> Within(start, count, r.last))
    && (r.Last? ==> Enough(start, count, applied, r.last))
  }

  ghost predicate AskIsSound(start: nat, count: Option<nat>, a: Ask) {
    && (a.count.None? ==> count.None?)
    && (a.count.Some? && a.count.value > 0 ==> count.Some? && a.prevIndex + a.count.value == start + count.value)
  }

  ghost predicate ClientIsSound(w: World, start: nat, count: Option<nat>, applied: nat) {
    var c := w.client;
    && start <= c.prevIndex && |c.received| == c.prevIndex - start
    && (c.received != [] ==> c.prevIndex <= |w.log| && c.received == w.log[start..c.prevIndex])
    && (c.count.None? <==> count.None?)
    && (c.count.Some? ==> c.prevIndex + c.count.value == start + count.value)
    && (c.outcome != Some(OutOfOrder) ==> c.named == c.prevIndex)
    && (c.outcome == Some(Complete) ==> Enough(start, count, applied, c.prevIndex))
  }

  ghost predicate Inv(limit: nat, w: World, start: nat, count: Option<nat>, applied: nat) {
    && limit > 0 && applied <= w.lastApplied <= |w.log|
    && PipeIsSound(limit, w, start, count, applied)
    && (forall i {:trigger w.toClient[i]} :: 0 <= i < |w.toClient| ==>
          ResponseIsSound(w, start, count, applied, w.toClient[i]))
    && (forall i {:trigger w.toServer[i]} :: 0 <= i < |w.toServer| ==> AskIsSound(start, count, w.toServer[i]))
    && ClientIsSound(w, start, count, applied)
  }

  ghost predicate AreSound(w: World, start: nat, count: Option<nat>, applied: nat, responses: seq<Response>) {
    forall i {:trigger responses[i]} :: 0 <= i < |responses| ==>
      ResponseIsSound(w, start, count, applied, responses[i])
  }

  lemma SentAreSound(w: World, start: nat, count: Option<nat>, applied: nat, p: Pipe, responses: seq<Response>, from: nat)
    requires Continues(p, w.log, responses, from)
    requires p.lastIndex <= w.lastApplied && Within(start, count, p.lastIndex) && Enough(start, count, applied, p.lastIndex)
    ensures AreSound(w, start, count, applied, responses)
  {
    forall i | 0 <= i < |responses| ensures ResponseIsSound(w, start, count, applied, responses[i]) {
      ContinuesIsTrue(p, w.log, responses, from, i);
    }
  }

  lemma MovesAreSound(limit: nat, w: World, start: nat, count: Option<nat>, applied: nat, q: Option<Pipe>, responses: seq<Response>)
    requires w.pipe.Some? && PipeIsSound(limit, w, start, count, applied)
    requires Moves(limit, w.log, w.pipe.value, q, responses)
    ensures PipeIsSound(limit, w.(pipe := q), start, count, applied)
    ensures AreSound(w, start, count, applied, responses)
  {
    SentAreSound(w, start, count, applied, w.pipe.value, responses, w.pipe.value.prevIndex);
  }

  lemma OpenedKeeps(limit: nat, w: World, start: nat, count: Option<nat>, applied: nat, a: Ask)
    requires limit > 0 && applied <= w.lastApplied <= |w.log| && AskIsSound(start, count, a)
    ensures PipeIsSound(limit, w.(pipe := Opened(w.lastApplied, a.prevIndex, a.count).0), start, count, applied)
    ensures AreSound(w, start, count, applied, Opened(w.lastApplied, a.prevIndex, a.count).1)
  {
  }

  lemma HandledKeeps(limit: nat, w: World, start: nat, count: Option<nat>, applied: nat, a: Ask)
    requires Inv(limit, w, start, count, applied) && AskIsSound(start, count, a)
    ensures PipeIsSound(limit, w.(pipe := Handled(limit, w.lastApplied, w.pipe, a.prevIndex, a.count).0), start, count, applied)
    ensures AreSound(w, start, count, applied, Handled(limit, w.lastApplied, w.pipe, a.prevIndex, a.count).1)
  {
    OpenedKeeps(limit, w, start, count, applied, a);
    if w.pipe.Some? {
      var p := w.pipe.value;
      var (q, responses, _) := Confirmed(limit, p, a.prevIndex, a.count);
      ConfirmedKeeps(limit, w.log, p, a.prevIndex, a.count);
      MovesAreSound(limit, w, start, count, applied, q, responses);
    }
  }

  // Sending sound responses and changing the pipe to a sound one.
  lemma SendingKeeps(limit: nat, w: World, start: nat, count: Option<nat>, applied: nat, q: Option<Pipe>, responses: seq<Response>)
    requires Inv(limit, w, start, count, applied)
    requires PipeIsSound(limit, w.(pipe := q), start, count, applied)
    requires AreSound(w, start, count, applied, responses)
    ensures Inv(limit, w.(pipe := q, toClient := w.toClient + responses), start, count, applied)
  {
    var t := w.(pipe := q, toClient := w.toClient + responses);
    forall i | 0 <= i < |t.toClient| ensures ResponseIsSound(t, start, count, applied, t.toClient[i]) {
      if i < |w.toClient| {
        assert ResponseIsSound(w, start, count, applied, w.toClient[i]);
      } else {
        assert ResponseIsSound(w, start, count, applied, responses[i - |w.toClient|]);
      }
    }
  }

  lemma AnsweredKeeps(w: World, start: nat, count: Option<nat>, applied: nat, r: Response, enough: bool)
    requires ClientIsSound(w, start, count, applied) && w.client.outcome.None?
    requires ResponseIsSound(w, start, count, applied, r)
    ensures var (c, asks) := Answered(w.client, r, enough);
            && ClientIsSound(w.(client := c), start, count, applied)
            && forall i {:trigger asks[i]} :: 0 <= i < |asks| ==> AskIsSound(start, count, asks[i])
  {
    if !r.NotLeader? && r.last == w.client.prevIndex + |r.entries| {
      var c := w.client;
      if r.entries != [] {
        assert w.log[start..r.last] == w.log[start..c.prevIndex] + w.log[c.prevIndex..r.last];
      }
    }
  }

  lemma ApplyKeeps(limit: nat, w: World, start: nat, count: Option<nat>, applied: nat, entries: seq<string>)
    requires Inv(limit, w, start, count, applied)
    ensures Inv(limit, After(limit, w, Apply(entries)), start, count, applied)
  {
    var t := After(limit, w, Apply(entries));
    if w.pipe.Some? { StretchLonger(w.log, entries, w.pipe.value.firstQueued - 1, w.pipe.value.queue); }
    forall i | 0 <= i < |t.toClient| ensures ResponseIsSound(t, start, count, applied, t.toClient[i]) {
      var r := w.toClient[i];
      assert ResponseIsSound(w, start, count, applied, r);
      if !r.NotLeader? { assert t.log[r.last - |r.entries|..r.last] == w.log[r.last - |r.entries|..r.last]; }
    }
    if w.client.received != [] {
      assert t.log[start..w.client.prevIndex] == w.log[start..w.client.prevIndex];
    }
  }

  lemma StreamKeeps(limit: nat, w: World, start: nat, count: Option<nat>, applied: nat, n: nat)
    requires Inv(limit, w, start, count, applied)
    ensures Inv(limit, After(limit, w, Stream(n)), start, count, applied)
  {
    if w.pipe.Some? {
      var p := w.pipe.value;
      if 0 < n <= p.lastIndex - p.streamed && p.streamed + n <= |w.log| {
        var entries := w.log[p.streamed..p.streamed + n];
        StreamedKeeps(limit, w.log, p, entries);
        var (q, responses) := Streamed(limit, p, entries);
        MovesAreSound(limit, w, start, count, applied, q, responses);
        SendingKeeps(limit, w, start, count, applied, q, responses);
      }
    }
  }

  lemma ShiftKeeps(limit: nat, w: World, start: nat, count: Option<nat>, applied: nat)
    requires Inv(limit, w, start, count, applied) && w.toServer != []
    ensures Inv(limit, w.(toServer := w.toServer[1..]), start, count, applied)
  {
  }

  lemma ServeKeeps(limit: nat, w: World, start: nat, count: Option<nat>, applied: nat)
    requires Inv(limit, w, start, count, applied)
    ensures Inv(limit, After(limit, w, Serve), start, count, applied)
  {
    if w.toServer != [] {
      ShiftKeeps(limit, w, start, count, applied);
      var ask := w.toServer[0];
      var t := w.(toServer := w.toServer[1..]);
      if w.leading {
        HandledKeeps(limit, t, start, count, applied, ask);
        var (q, responses) := Handled(limit, t.lastApplied, t.pipe, ask.prevIndex, ask.count);
        SendingKeeps(limit, t, start, count, applied, q, responses);
      } else {
        assert AreSound(t, start, count, applied, [NotLeader]);
        SendingKeeps(limit, t, start, count, applied, t.pipe, [NotLeader]);
      }
    }
  }

  lemma ReceiveKeeps(limit: nat, w: World, start: nat, count: Option<nat>, applied: nat, enough: bool)
    requires Inv(limit, w, start, count, applied)
    ensures Inv(limit, After(limit, w, Receive(enough)), start, count, applied)
  {
    if w.toClient != [] && w.client.outcome.None? {
      AnsweredKeeps(w, start, count, applied, w.toClient[0], enough);
    }
  }

  lemma AfterKeeps(limit: nat, w: World, start: nat, count: Option<nat>, applied: nat, step: Step)
    requires Inv(limit, w, start, count, applied)
    ensures Inv(limit, After(limit, w, step), start, count, applied)
  {
    match step
    case Apply(entries) => ApplyKeeps(limit, w, start, count, applied, entries);
    case Stream(n) => StreamKeeps(limit, w, start, count, applied, n);
    case Serve => ServeKeeps(limit, w, start, count, applied);
    case Receive(enough) => ReceiveKeeps(limit, w, start, count, applied, enough);
    case _ =>
  }

  lemma {:induction false} EveryRun(limit: nat, log: seq<string>, start: nat, count: Option<nat>, steps: seq<Step>)
    requires limit > 0 && (count.Some? ==> count.value > 0)
    ensures Inv(limit, Run(limit, log, start, count, steps), start, count, |log|)
  {
    if steps != [] {
      EveryRun(limit, log, start, count, steps[..|steps| - 1]);
      AfterKeeps(limit, Run(limit, log, start, count, steps[..|steps| - 1]), start, count, |log|, steps[|steps| - 1]);
    }
  }

  // In every run, whatever is lost, cancelled or asked for again, the receiver gets the
  // log from the index after the start on, each entry once and none left out, and no
  // more than it asked for or than was applied.
  lemma ReceiverGetsTheLog(limit: nat, log: seq<string>, start: nat, count: Option<nat>, steps: seq<Step>)
    requires limit > 0 && (count.Some? ==> count.value > 0)
    ensures var w := Run(limit, log, start, count, steps);
            && start <= w.client.prevIndex
            && (w.client.received != [] ==>
                  w.client.prevIndex <= |w.log| && w.client.received == w.log[start..w.client.prevIndex])
            && (w.client.received == [] ==> w.client.prevIndex == start)
            && Within(start, count, w.client.prevIndex)
  {
    EveryRun(limit, log, start, count, steps);
  }

  // In every run, a client that was told that it has all has what it asked for, or all
  // that was applied when it began.
  lemma CompleteIsAll(limit: nat, log: seq<string>, start: nat, count: Option<nat>, steps: seq<Step>)
    requires limit > 0 && (count.Some? ==> count.value > 0)
    requires Run(limit, log, start, count, steps).client.outcome == Some(Complete)
    ensures var w := Run(limit, log, start, count, steps);
            |w.client.received| == w.client.prevIndex - start
            && (w.client.prevIndex >= |log| || (count.Some? && w.client.prevIndex == start + count.value))
  {
    EveryRun(limit, log, start, count, steps);
  }

  // In every run the leader has as many batches on the way as the limit allows and never
  // more, and what it sends was applied.
  lemma LeaderKeepsTheLimit(limit: nat, log: seq<string>, start: nat, count: Option<nat>, steps: seq<Step>)
    requires limit > 0 && (count.Some? ==> count.value > 0)
    ensures var w := Run(limit, log, start, count, steps);
            && (w.pipe.Some? ==> w.pipe.value.nextToSend == Min(limit, |w.pipe.value.queue|)
                                 && w.pipe.value.prevIndex <= w.pipe.value.lastIndex <= w.lastApplied)
            && forall r :: r in w.toClient && !r.NotLeader? ==> r.last <= w.lastApplied
  {
    EveryRun(limit, log, start, count, steps);
    var w := Run(limit, log, start, count, steps);
    if w.pipe.Some? {
      var p := w.pipe.value;
      if p.nextToSend > 0 { TotalSplit(p.queue, p.nextToSend - 1); }
    }
    forall r | r in w.toClient && !r.NotLeader? ensures r.last <= w.lastApplied {
      var i :| 0 <= i < |w.toClient| && w.toClient[i] == r;
      assert ResponseIsSound(w, start, count, |log|, w.toClient[i]);
    }
  }

  // ---------- Going on elsewhere ----------

  // In every run, a client that stops for any other reason than an order that is wrong
  // names the index after which it received nothing, so that asking another peer from
  // there on leaves nothing out and repeats nothing.
  lemma GoesOnWhereItStopped(limit: nat, log: seq<string>, start: nat, count: Option<nat>, steps: seq<Step>)
    requires limit > 0 && (count.Some? ==> count.value > 0)
    requires Run(limit, log, start, count, steps).client.outcome != Some(OutOfOrder)
    ensures var c := Run(limit, log, start, count, steps).client;
            && c.named == c.prevIndex == start + |c.received|
            && (count.Some? ==> c.count.Some? && c.named + c.count.value == start + count.value)
  {
    EveryRun(limit, log, start, count, steps);
  }

  // If the client takes a response in this step, it is in order or names the client's own
  // index.
  ghost predicate TakesInOrder(w: World, step: Step) {
    step.Receive? && w.toClient != [] && w.client.outcome.None? ==>
      var r := w.toClient[0];
      r.NotLeader? || r.last == w.client.prevIndex + |r.entries| || r.last == w.client.prevIndex
  }

  // The same of step k of a run.
  ghost predicate TakenInOrder(limit: nat, log: seq<string>, start: nat, count: Option<nat>, steps: seq<Step>, k: nat)
    requires k < |steps|
  {
    TakesInOrder(Run(limit, log, start, count, steps[..k]), steps[k])
  }

  // In every run, the named index is the one after which nothing was received if and only
  // if each response taken was in order or named the client's own index.
  lemma {:induction false} NamesItsIndexIff(limit: nat, log: seq<string>, start: nat, count: Option<nat>, steps: seq<Step>)
    ensures var c := Run(limit, log, start, count, steps).client;
            && (c.named == c.prevIndex <==>
                  forall k: nat :: k < |steps| ==> TakenInOrder(limit, log, start, count, steps, k))
            && (c.named != c.prevIndex ==> c.outcome.Some?)
  {
    if steps != [] {
      var n := |steps| - 1;
      var w := Run(limit, log, start, count, steps[..n]);
      NamesItsIndexIff(limit, log, start, count, steps[..n]);
      forall k: nat | k < n
        ensures TakenInOrder(limit, log, start, count, steps, k) == TakenInOrder(limit, log, start, count, steps[..n], k)
      {
        assert steps[..n][..k] == steps[..k];
      }
      NamedAfter(limit, w, steps[n]);
      assert TakenInOrder(limit, log, start, count, steps, n) == TakesInOrder(w, steps[n]);
      if forall k: nat :: k < n ==> TakenInOrder(limit, log, start, count, steps[..n], k) {
        forall k: nat | k < n ensures TakenInOrder(limit, log, start, count, steps, k) {
          assert TakenInOrder(limit, log, start, count, steps[..n], k);
        }
      } else {
        var k: nat :| k < n && !TakenInOrder(limit, log, start, count, steps[..n], k);
        assert !TakenInOrder(limit, log, start, count, steps, k);
      }
    }
  }

  lemma NamedAfter(limit: nat, w: World, step: Step)
    requires w.client.named != w.client.prevIndex ==> w.client.outcome.Some?
    ensures var c := After(limit, w, step).client;
            && (c.named == c.prevIndex <==> w.client.named == w.client.prevIndex && TakesInOrder(w, step))
            && (c.named != c.prevIndex ==> c.outcome.Some?)
  {
  }

  lemma PumpOne(limit: nat, p: Pipe)
    requires p.nextToSend < limit && p.nextToSend + 1 == |p.queue|
    ensures var entries := p.queue[p.nextToSend];
            var last := p.prevIndex + |entries|;
            Pump(limit, p) == (p.(nextToSend := |p.queue|, prevIndex := last),
                               [if last == p.lastIndex then Last(last, entries) else More(last, entries)])
  {
    var q := p.(nextToSend := |p.queue|, prevIndex := p.prevIndex + |p.queue[p.nextToSend]|);
    var r := if q.prevIndex == p.lastIndex then Last(q.prevIndex, p.queue[p.nextToSend])
             else More(q.prevIndex, p.queue[p.nextToSend]);
    assert Pump(limit, q) == (q, []);
    assert [r] + [] == [r];
  }

  ghost function Asked(pipe: Option<Pipe>, toClient: seq<Response>): World {
    Begin(["a", "b"], 0, None).(toServer := [], pipe := pipe, toClient := toClient)
  }

  lemma FirstBatch()
    ensures After(2, Asked(Some(Pipe([], 0, 0, 1, 0, 2)), []), Stream(1))
         == Asked(Some(Pipe([["a"]], 1, 1, 1, 1, 2)), [More(1, ["a"])])
  {
    var p := Pipe([], 0, 0, 1, 0, 2);
    PumpOne(2, p.(queue := [["a"]], streamed := 1));
    assert p.queue + [["a"]] == [["a"]];
    assert Streamed(2, p, ["a"]) == (Some(Pipe([["a"]], 1, 1, 1, 1, 2)), [More(1, ["a"])]);
    assert ["a", "b"][0..1] == ["a"];
  }

  lemma SecondBatch()
    ensures After(2, Asked(Some(Pipe([["a"]], 1, 1, 1, 1, 2)), [More(1, ["a"])]), Stream(1))
         == Asked(Some(Pipe([["a"], ["b"]], 2, 2, 1, 2, 2)), [More(1, ["a"]), Last(2, ["b"])])
  {
    var p := Pipe([["a"]], 1, 1, 1, 1, 2);
    PumpOne(2, p.(queue := [["a"], ["b"]], streamed := 2));
    assert p.queue + [["b"]] == [["a"], ["b"]];
    assert Streamed(2, p, ["b"]) == (Some(Pipe([["a"], ["b"]], 2, 2, 1, 2, 2)), [Last(2, ["b"])]);
    assert ["a", "b"][1..2] == ["b"];
    assert [More(1, ["a"])] + [Last(2, ["b"])] == [More(1, ["a"]), Last(2, ["b"])];
  }

  lemma FiveSteps(limit: nat, log: seq<string>, start: nat, count: Option<nat>, a: Step, b: Step, c: Step, d: Step, e: Step)
    ensures Run(limit, log, start, count, [a, b, c, d, e])
         == After(limit, After(limit, After(limit, After(limit, After(limit, Begin(log, start, count), a), b), c), d), e)
  {
    assert [a, b, c, d, e] == [a, b, c, d] + [e] && [a, b, c, d] == [a, b, c] + [d];
    assert [a, b, c] == [a, b] + [c] && [a, b] == [a] + [b] && [a] == [] + [a];
    RunMore(limit, log, start, count, [], a);
    RunMore(limit, log, start, count, [a], b);
    RunMore(limit, log, start, count, [a, b], c);
    RunMore(limit, log, start, count, [a, b, c], d);
    RunMore(limit, log, start, count, [a, b, c, d], e);
  }

  // A lost response is enough: the next one is out of order, and the client then names an
  // index whose entries it never received.
  lemma LostResponseIsSkipped()
    ensures var c := Run(2, ["a", "b"], 0, None, [Serve, Stream(1), Stream(1), LoseResponse(0), Receive(false)]).client;
            c.outcome == Some(OutOfOrder) && c.received == [] && c.prevIndex == 0 && c.named == 2
  {
    assert After(2, Begin(["a", "b"], 0, None), Serve) == Asked(Some(Pipe([], 0, 0, 1, 0, 2)), []);
    FirstBatch();
    SecondBatch();
    FiveSteps(2, ["a", "b"], 0, None, Serve, Stream(1), Stream(1), LoseResponse(0), Receive(false));
    assert [More(1, ["a"]), Last(2, ["b"])][..0] + [More(1, ["a"]), Last(2, ["b"])][1..] == [Last(2, ["b"])];
  }

  lemma RunMore(limit: nat, log: seq<string>, start: nat, count: Option<nat>, steps: seq<Step>, step: Step)
    ensures Run(limit, log, start, count, steps + [step]) == After(limit, Run(limit, log, start, count, steps), step)
  {
    assert (steps + [step])[..|steps|] == steps;
  }

  // ---------- The closure of the leader ----------

  class EntriesPipe {
    const limit: nat
    const lastIndex: nat
    var queue: seq<seq<string>>
    var nextToSend: nat
    var prevIndex: nat
    var firstQueued: nat
    var streamed: nat
    var active: bool
    ghost var said: seq<Response>

    ghost function View(): Option<Pipe>
      reads this
    {
      if active then Some(Pipe(queue, nextToSend, prevIndex, firstQueued, streamed, lastIndex)) else None
    }

    constructor (limit: nat, prevIndex: nat, lastIndex: nat)
      requires limit > 0 && prevIndex < lastIndex
      ensures this.limit == limit && this.lastIndex == lastIndex && said == []
      ensures View() == Opened(lastIndex, prevIndex, None).0
    {
      this.limit, this.lastIndex := limit, lastIndex;
      queue, nextToSend, this.prevIndex, firstQueued, streamed := [], 0, prevIndex, prevIndex + 1, prevIndex;
      active, said := true, [];
    }

    // Sends what may be sent, and is done when no confirmation is due any more.
    method SendQueued()
      requires active
      modifies this
      ensures var (q, responses) := Piped(limit, old(View().value));
              View() == q && said == old(said) + responses
    {
      ghost var before := View().value;
      while nextToSend < limit && nextToSend < |queue|
        invariant active
        invariant Pump(limit, View().value).0 == Pump(limit, before).0
        invariant said + Pump(limit, View().value).1 == old(said) + Pump(limit, before).1
        decreases |queue| - nextToSend
      {
        ghost var p := View().value;
        var entries := queue[nextToSend];
        nextToSend := nextToSend + 1;
        prevIndex := prevIndex + |entries|;
        var r := if prevIndex == lastIndex then Last(prevIndex, entries) else More(prevIndex, entries);
        ghost var rest := Pump(limit, View().value).1;
        assert said + Pump(limit, p).1 == said + ([r] + rest) == (said + [r]) + rest;
        said := said + [r];
      }
      if prevIndex == lastIndex && |queue| <= 1 { active := false; }
    }

    method OnData(entries: seq<string>)
      requires active
      modifies this
      ensures var (q, responses) := Streamed(limit, old(View().value), entries);
              View() == q && said == old(said) + responses
    {
      queue := queue + [entries];
      streamed := streamed + |entries|;
      SendQueued();
    }

    // A confirmation by the client. The result tells whether it was expected.
    method Request(confirmed: nat, count: Option<nat>) returns (handled: bool)
      requires active && (queue != [] ==> nextToSend > 0)
      modifies this
      ensures var (q, responses, expected) := Confirmed(limit, old(View().value), confirmed, count);
              View() == q && said == old(said) + responses && handled == expected
    {
      if count == Some(0) {
        active := false;
        return true;
      }
      if queue == [] {
        active := false;
        return false;
      }
      firstQueued := firstQueued + |queue[0]|;
      queue := queue[1..];
      nextToSend := nextToSend - 1;
      if confirmed != firstQueued - 1 {
        active := false;
        return false;
      }
      SendQueued();
      handled := true;
    }
  }
  // ---------- The closure of the client ----------

  class EntriesReceiver {
    var prevIndex: nat
    var count: Option<nat>
    var received: seq<string>
    var named: nat
    var outcome: Option<Outcome>

    ghost function View(): Client
      reads this
    {
      Client(prevIndex, count, received, named, outcome)
    }

    constructor (lastIndex: nat, count: Option<nat>)
      ensures View() == Client(lastIndex, count, [], lastIndex, None)
    {
      prevIndex, this.count, received, named, outcome := lastIndex, count, [], lastIndex, None;
    }

    // A response from the leader, and what is asked for next.
    method OnResponse(r: Response, enough: bool) returns (asks: seq<Ask>)
      requires outcome == None
      modifies this
      ensures (View(), asks) == Answered(old(View()), r, enough)
    {
      asks := [];
      if r.NotLeader? {
        outcome := Some(PeerNotLeader);
        return;
      }
      named := r.last;
      if r.last != prevIndex + |r.entries| {
        outcome := Some(OutOfOrder);
        return;
      }
      received := received + r.entries;
      if count.Some? {
        count := Some(if count.value > |r.entries| then count.value - |r.entries| else 0);
      }
      prevIndex := r.last;
      if r.Last? {
        outcome := Some(Complete);
      } else if count == Some(0) {
        asks := [Ask(prevIndex, Some(0))];
        outcome := Some(Complete);
      } else if enough {
        asks := [Ask(prevIndex, Some(0))];
        outcome := Some(Stopped);
      } else {
        asks := [Ask(prevIndex, count)];
      }
    }
  }
}
