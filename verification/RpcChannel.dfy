// One connection between a ZmqRpcSocket and the router of a peer: one request at a
// time, sent again until its reply comes, over a wire that is FIFO in both
// directions and may lose anything. Request ids have 24 bits. The router answers a
// request to append or to install a snapshot from its cache when the id is the one
// it handled last; a request for a vote does not go through the cache.
module RpcChannel {
  import opened Wrappers

  const IDS: nat := 0x100_0000

  function NextId(id: nat): nat { (id + 1) % IDS }

  // ---------- The wire ----------

  datatype Kind = Cached | Uncached

  // Request number `no`, and a reply with the id of request `no` that tells the
  // outcome of request `outcome`.
  datatype Reply = Reply(no: nat, outcome: nat)

  // The router's cache: the request handled last and whether it was answered yet.
  datatype Line = Line(held: nat, replied: bool)

  // `sent` are the requests so far, of which only the last may be pending. `ran`
  // are the cached requests that were executed, `got` the outcome that was taken
  // for the answer to each request.
  datatype Channel = Channel(
    base: nat,
    sent: seq<Kind>,
    pending: bool,
    toRouter: seq<nat>,
    toSocket: seq<Reply>,
    cache: Option<Line>,
    ran: seq<nat>,
    got: seq<nat>)

  datatype Step = Request(kind: Kind) | Again | LoseRequest(at: nat) | LoseReply(at: nat) | Arrive | Finish | Return

  // The id of a request: ids are given out in turn, from the socket's last one on.
  function Id(base: nat, no: nat): nat { (base + 1 + no) % IDS }

  predicate Enabled(c: Channel, step: Step) {
    match step
    case Request(_) => !c.pending
    case Again => c.pending
    case LoseRequest(at) => at < |c.toRouter|
    case LoseReply(at) => at < |c.toSocket|
    case Arrive => c.toRouter != [] && c.toRouter[0] < |c.sent|
    case Finish => c.cache.Some? && !c.cache.value.replied
    case Return => c.toSocket != [] && c.sent != []
  }

  predicate Bounced(c: Channel, no: nat) {
    c.cache.Some? && Id(c.base, c.cache.value.held) == Id(c.base, no)
  }

  function Arrives(c: Channel, no: nat): Channel
    requires no < |c.sent|
  {
    if c.sent[no] == Uncached then
      c.(toSocket := c.toSocket + [Reply(no, no)])
    else if Bounced(c, no) then
      if c.cache.value.replied then c.(toSocket := c.toSocket + [Reply(no, c.cache.value.held)]) else c
    else
      c.(cache := Some(Line(no, false)), ran := c.ran + [no])
  }

  function Next(c: Channel, step: Step): Channel
    requires Enabled(c, step)
  {
    match step
    case Request(kind) => c.(sent := c.sent + [kind], pending := true, toRouter := c.toRouter + [|c.sent|])
    case Again => if c.sent == [] then c else c.(toRouter := c.toRouter + [|c.sent| - 1])
    case LoseRequest(at) => c.(toRouter := c.toRouter[..at] + c.toRouter[at + 1..])
    case LoseReply(at) => c.(toSocket := c.toSocket[..at] + c.toSocket[at + 1..])
    case Arrive => Arrives(c.(toRouter := c.toRouter[1..]), c.toRouter[0])
    case Finish =>
      var no := c.cache.value.held;
      c.(cache := Some(Line(no, true)), toSocket := c.toSocket + [Reply(no, no)])
    case Return =>
      var r, last := c.toSocket[0], |c.sent| - 1;
      var d := c.(toSocket := c.toSocket[1..]);
      if c.pending && Id(c.base, r.no) == Id(c.base, last)
      then d.(pending := false, got := c.got + [r.outcome])
      else d
  }

  function Open(base: nat): Channel { Channel(base, [], false, [], [], None, [], []) }

  predicate IsRun(c: Channel, steps: seq<Step>)
    decreases |steps|
  {
    steps == [] || (Enabled(c, steps[0]) && IsRun(Next(c, steps[0]), steps[1..]))
  }

  function After(c: Channel, steps: seq<Step>): Channel
    requires IsRun(c, steps)
    decreases |steps|
  {
    if steps == [] then c else After(Next(c, steps[0]), steps[1..])
  }

  // ---------- What the ids decide ----------

  // The request whose outcome the cache holds once the first n are dealt with.
  function Held(base: nat, sent: seq<Kind>, n: nat): Option<nat>
    requires n <= |sent|
    ensures Held(base, sent, n).Some? ==> Held(base, sent, n).value < n && sent[Held(base, sent, n).value] == Cached
  {
    if n == 0 then None
    else
      var before := Held(base, sent, n - 1);
      if sent[n - 1] == Uncached || (before.Some? && Id(base, before.value) == Id(base, n - 1)) then before
      else Some(n - 1)
  }

  // Whether request no is executed: its id is not the one held in the cache.
  predicate Executes(base: nat, sent: seq<Kind>, no: nat)
    requires no < |sent|
  {
    sent[no] == Cached && !(Held(base, sent, no).Some? && Id(base, Held(base, sent, no).value) == Id(base, no))
  }

  function Executed(base: nat, sent: seq<Kind>, n: nat): seq<nat>
    requires n <= |sent|
  {
    if n == 0 then []
    else Executed(base, sent, n - 1) + if Executes(base, sent, n - 1) then [n - 1] else []
  }

  // The outcome that is taken for the answer to request no.
  function Outcome(base: nat, sent: seq<Kind>, no: nat): nat
    requires no < |sent|
  {
    if sent[no] == Cached && !Executes(base, sent, no) then Held(base, sent, no).value else no
  }

  // ---------- The invariant ----------

  // m requests have been dealt with: all that were answered, and the pending one
  // once it has arrived.
  predicate InvAt(c: Channel, m: nat) {
    && |c.got| == |c.sent| - (if c.pending then 1 else 0) && |c.got| <= m <= |c.sent|
    && (forall i :: 0 <= i < |c.toRouter| ==> m <= c.toRouter[i] + 1 && c.toRouter[i] < |c.sent|)
    && (forall i, j :: 0 <= i < j < |c.toRouter| ==> c.toRouter[i] <= c.toRouter[j])
    && (forall i :: 0 <= i < |c.toSocket| ==> ReplyOk(c, m, c.toSocket[i]))
    && (forall i, j :: 0 <= i < j < |c.toSocket| ==> c.toSocket[i].no <= c.toSocket[j].no)
    && (c.cache.Some? <==> Held(c.base, c.sent, m).Some?)
    && (c.cache.Some? ==> c.cache.value.held == Held(c.base, c.sent, m).value)
    && (c.cache.Some? && !c.cache.value.replied ==>
          && c.pending && m == |c.sent| && c.cache.value.held == m - 1
          && forall i :: 0 <= i < |c.toSocket| ==> c.toSocket[i].no + 1 < m)
    && c.ran == Executed(c.base, c.sent, m)
    && (forall k :: 0 <= k < |c.got| ==> c.got[k] == Outcome(c.base, c.sent, k))
  }

  predicate ReplyOk(c: Channel, m: nat, r: Reply) {
    |c.got| <= r.no + 1 && r.no < m <= |c.sent| && r.outcome == Outcome(c.base, c.sent, r.no)
  }

  // Sending more does not change what was decided before.
  lemma {:induction false} Settled(base: nat, sent: seq<Kind>, kind: Kind, n: nat)
    requires n <= |sent|
    ensures Held(base, sent + [kind], n) == Held(base, sent, n)
    ensures Executed(base, sent + [kind], n) == Executed(base, sent, n)
    ensures n < |sent| ==> Outcome(base, sent + [kind], n) == Outcome(base, sent, n)
  {
    if n > 0 { Settled(base, sent, kind, n - 1); }
  }

  lemma NeighbourIdsDiffer(base: nat, no: nat)
    ensures Id(base, no) != Id(base, no + 1)
  {
  }

  lemma RequestKeeps(c: Channel, m: nat, kind: Kind)
    requires InvAt(c, m) && !c.pending
    ensures InvAt(Next(c, Request(kind)), m)
  {
    var d := Next(c, Request(kind));
    Settled(c.base, c.sent, kind, m);
    forall k | 0 <= k < |c.sent| ensures Outcome(c.base, d.sent, k) == Outcome(c.base, c.sent, k) {
      Settled(c.base, c.sent, kind, k);
    }
  }

  // The request at the head of the wire was dealt with before or is the pending one.
  lemma ArriveKeeps(c: Channel, m: nat)
    requires InvAt(c, m) && Enabled(c, Arrive)
    ensures InvAt(Next(c, Arrive), if c.toRouter[0] == m then m + 1 else m)
  {
    if c.toRouter[0] == m { FirstArrival(c, m); } else { LateArrival(c, m); }
  }

  lemma FirstArrival(c: Channel, m: nat)
    requires InvAt(c, m) && Enabled(c, Arrive) && c.toRouter[0] == m
    ensures InvAt(Next(c, Arrive), m + 1)
  {
    var d := c.(toRouter := c.toRouter[1..]);
    assert Held(c.base, c.sent, m + 1)
      == if c.sent[m] == Uncached || Bounced(d, m) then Held(c.base, c.sent, m) else Some(m);
    assert forall i :: 0 <= i < |c.toSocket| ==> ReplyOk(c, m, c.toSocket[i]);
  }

  lemma LateArrival(c: Channel, m: nat)
    requires InvAt(c, m) && Enabled(c, Arrive) && c.toRouter[0] != m
    ensures InvAt(Next(c, Arrive), m)
  {
    var no, d := c.toRouter[0], c.(toRouter := c.toRouter[1..]);
    assert no + 1 == m;
    if c.sent[no] == Cached { assert Held(c.base, c.sent, m).Some? && Bounced(d, no); }
  }

  lemma AgainKeeps(c: Channel, m: nat)
    requires InvAt(c, m) && Enabled(c, Again)
    ensures InvAt(Next(c, Again), m)
  {
  }

  // What is left on a wire keeps its order.
  lemma Without<T>(s: seq<T>, at: nat, i: nat)
    requires at < |s| && i < |s| - 1
    ensures (s[..at] + s[at + 1..])[i] == s[if i < at then i else i + 1]
  {
  }

  lemma LoseRequestKeeps(c: Channel, m: nat, at: nat)
    requires InvAt(c, m) && Enabled(c, LoseRequest(at))
    ensures InvAt(Next(c, LoseRequest(at)), m)
  {
    var s, t := c.toRouter, c.toRouter[..at] + c.toRouter[at + 1..];
    forall i | 0 <= i < |t| ensures t[i] == s[if i < at then i else i + 1] { Without(s, at, i); }
  }

  lemma LoseReplyKeeps(c: Channel, m: nat, at: nat)
    requires InvAt(c, m) && Enabled(c, LoseReply(at))
    ensures InvAt(Next(c, LoseReply(at)), m)
  {
    var s, t, d := c.toSocket, c.toSocket[..at] + c.toSocket[at + 1..], Next(c, LoseReply(at));
    forall i | 0 <= i < |t| ensures t[i] == s[if i < at then i else i + 1] { Without(s, at, i); }
    forall i | 0 <= i < |t| ensures ReplyOk(d, m, t[i]) { assert ReplyOk(c, m, s[if i < at then i else i + 1]); }
  }

  // A reply is taken exactly when it answers the pending request.
  lemma TakenIff(c: Channel, m: nat)
    requires InvAt(c, m) && Enabled(c, Return)
    ensures var r := c.toSocket[0];
            c.pending ==> (Id(c.base, r.no) == Id(c.base, |c.sent| - 1) <==> r.no == |c.got|)
  {
    var r := c.toSocket[0];
    assert ReplyOk(c, m, r);
    if c.pending && r.no + 1 == |c.got| { NeighbourIdsDiffer(c.base, r.no); }
  }

  lemma ReturnKeeps(c: Channel, m: nat)
    requires InvAt(c, m) && Enabled(c, Return)
    ensures InvAt(Next(c, Return), m)
  {
    var r := c.toSocket[0];
    assert ReplyOk(c, m, r);
    TakenIff(c, m);
    if c.pending && r.no == |c.got| { TakenKeeps(c, m); } else { IgnoredKeeps(c, m); }
  }

  // No reply that is still on its way is older.
  lemma TakenKeeps(c: Channel, m: nat)
    requires InvAt(c, m) && Enabled(c, Return) && c.pending && c.toSocket[0].no == |c.got|
    ensures InvAt(c.(toSocket := c.toSocket[1..], pending := false, got := c.got + [c.toSocket[0].outcome]), m)
  {
    assert ReplyOk(c, m, c.toSocket[0]);
  }

  lemma IgnoredKeeps(c: Channel, m: nat)
    requires InvAt(c, m) && Enabled(c, Return)
    ensures InvAt(c.(toSocket := c.toSocket[1..]), m)
  {
  }

  lemma StepKeeps(c: Channel, m: nat, step: Step) returns (n: nat)
    requires InvAt(c, m) && Enabled(c, step)
    ensures InvAt(Next(c, step), n)
  {
    n := m;
    match step
    case Request(kind) => RequestKeeps(c, m, kind);
    case Arrive =>
      ArriveKeeps(c, m);
      n := if c.toRouter[0] == m then m + 1 else m;
    case Return => ReturnKeeps(c, m);
    case Finish => FinishKeeps(c, m);
    case Again => AgainKeeps(c, m);
    case LoseRequest(at) => LoseRequestKeeps(c, m, at);
    case LoseReply(at) => LoseReplyKeeps(c, m, at);
  }

  lemma FinishKeeps(c: Channel, m: nat)
    requires InvAt(c, m) && Enabled(c, Finish)
    ensures InvAt(Next(c, Finish), m)
  {
    assert Held(c.base, c.sent, m).value == m - 1;
    assert Executes(c.base, c.sent, m - 1);
  }

  lemma {:induction false} RunKeeps(c: Channel, m: nat, steps: seq<Step>) returns (n: nat)
    requires InvAt(c, m) && IsRun(c, steps)
    ensures InvAt(After(c, steps), n)
    decreases |steps|
  {
    n := m;
    if steps != [] {
      n := StepKeeps(c, m, steps[0]);
      n := RunKeeps(Next(c, steps[0]), n, steps[1..]);
    }
  }

  // ---------- What a connection guarantees ----------

  // Two cached requests, with only requests for votes between them, whose distance
  // is no multiple of 2^24.
  predicate GapOk(sent: seq<Kind>, j: nat, k: nat)
    requires j < k < |sent|
  {
    sent[j] == Cached && sent[k] == Cached && (forall i :: j < i < k ==> sent[i] == Uncached) ==> (k - j) % IDS != 0
  }

  predicate GapsOk(sent: seq<Kind>) {
    forall j, k {:trigger GapOk(sent, j, k)} :: 0 <= j < k < |sent| ==> GapOk(sent, j, k)
  }

  lemma SameId(base: nat, j: nat, k: nat)
    requires j <= k
    ensures Id(base, j) == Id(base, k) <==> (k - j) % IDS == 0
  {
    assert (base + 1 + k) == (base + 1 + j) + (k - j);
  }

  // The cache holds the last cached request, as long as every one was executed.
  lemma {:induction false} HeldIsLast(base: nat, sent: seq<Kind>, n: nat)
    requires n <= |sent| && forall k :: 0 <= k < n && sent[k] == Cached ==> Executes(base, sent, k)
    ensures Held(base, sent, n) == None ==> forall i :: 0 <= i < n ==> sent[i] == Uncached
    ensures Held(base, sent, n).Some? ==> forall i :: Held(base, sent, n).value < i < n ==> sent[i] == Uncached
  {
    if n > 0 { HeldIsLast(base, sent, n - 1); }
  }

  lemma {:induction false} GapsExecute(base: nat, sent: seq<Kind>, n: nat)
    requires n <= |sent| && GapsOk(sent)
    ensures forall k :: 0 <= k < n && sent[k] == Cached ==> Executes(base, sent, k)
  {
    if n > 0 {
      GapsExecute(base, sent, n - 1);
      HeldIsLast(base, sent, n - 1);
      var h := Held(base, sent, n - 1);
      if sent[n - 1] == Cached && h.Some? {
        assert GapOk(sent, h.value, n - 1);
        SameId(base, h.value, n - 1);
      }
    }
  }

  // Every cached request is executed if and only if no gap between two of them is
  // a multiple of 2^24.
  lemma ExecutedIffGapsOk(base: nat, sent: seq<Kind>)
    ensures (forall k :: 0 <= k < |sent| && sent[k] == Cached ==> Executes(base, sent, k)) <==> GapsOk(sent)
  {
    if GapsOk(sent) {
      GapsExecute(base, sent, |sent|);
    } else {
      var j, k :| 0 <= j < k < |sent| && !GapOk(sent, j, k);
      if forall i :: 0 <= i < |sent| && sent[i] == Cached ==> Executes(base, sent, i) {
        HeldIsLast(base, sent, k);
        HeldFrom(base, sent, j, k);
        SameId(base, j, k);
        assert false;
      }
    }
  }

  // What is executed stays in the cache while only requests for votes follow.
  lemma {:induction false} HeldFrom(base: nat, sent: seq<Kind>, j: nat, k: nat)
    requires j < k <= |sent| && Executes(base, sent, j) && forall i :: j < i < k ==> sent[i] == Uncached
    ensures Held(base, sent, k) == Some(j)
  {
    if j + 1 < k { HeldFrom(base, sent, j, k - 1); }
  }

  // The cached requests in order, once each.
  function CachedOnes(sent: seq<Kind>, n: nat): seq<nat>
    requires n <= |sent|
  {
    if n == 0 then [] else CachedOnes(sent, n - 1) + if sent[n - 1] == Cached then [n - 1] else []
  }

  lemma {:induction false} ExecutedAll(base: nat, sent: seq<Kind>, n: nat)
    requires n <= |sent| && forall k :: 0 <= k < n && sent[k] == Cached ==> Executes(base, sent, k)
    ensures Executed(base, sent, n) == CachedOnes(sent, n)
  {
    if n > 0 { ExecutedAll(base, sent, n - 1); }
  }

  // Whatever is lost and however often requests are sent again: the router runs the
  // handler once per cached request, in sending order, for all that were answered
  // and perhaps the pending one; and what the socket takes for the answer to a
  // request is the outcome of that very request.
  lemma ExactlyOnce(base: nat, steps: seq<Step>)
    requires IsRun(Open(base), steps) && GapsOk(After(Open(base), steps).sent)
    ensures var c := After(Open(base), steps);
            && |c.got| == |c.sent| - (if c.pending then 1 else 0)
            && (c.ran == CachedOnes(c.sent, |c.got|) || c.ran == CachedOnes(c.sent, |c.sent|))
            && forall k :: 0 <= k < |c.got| ==> c.got[k] == k
  {
    var m := RunKeeps(Open(base), 0, steps);
    var c := After(Open(base), steps);
    GapsExecute(base, c.sent, |c.sent|);
    BaseStays(Open(base), steps);
    ExecutedAll(base, c.sent, m);
  }

  lemma {:induction false} BaseStays(c: Channel, steps: seq<Step>)
    requires IsRun(c, steps)
    ensures After(c, steps).base == c.base
    decreases |steps|
  {
    if steps != [] { BaseStays(Next(c, steps[0]), steps[1..]); }
  }

  lemma {:induction false} RanIffExecutes(base: nat, sent: seq<Kind>, n: nat, k: nat)
    requires n <= |sent| && k < |sent|
    ensures k in Executed(base, sent, n) <==> k < n && Executes(base, sent, k)
  {
    if n > 0 { RanIffExecutes(base, sent, n - 1, k); }
  }

  // And exactly when it fails: a request with the id of the one the cache holds is
  // never executed, and its sender takes the earlier outcome for its own.
  lemma AnsweredWithoutExecution(base: nat, steps: seq<Step>, k: nat)
    requires IsRun(Open(base), steps) && k < |After(Open(base), steps).got|
    ensures k < |After(Open(base), steps).sent|
    ensures var c := After(Open(base), steps);
            c.sent[k] == Cached ==>
              && (k in c.ran <==> Executes(base, c.sent, k))
              && (c.got[k] == k <==> Executes(base, c.sent, k))
              && (!Executes(base, c.sent, k) ==>
                    c.got[k] < k && c.sent[c.got[k]] == Cached && (k - c.got[k]) % IDS == 0)
  {
    var m := RunKeeps(Open(base), 0, steps);
    var c := After(Open(base), steps);
    BaseStays(Open(base), steps);
    RanIffExecutes(base, c.sent, m, k);
    if c.sent[k] == Cached && !Executes(base, c.sent, k) {
      SameId(base, Held(base, c.sent, k).value, k);
    }
  }

  // ---------- The failing run ----------

  // Nothing is under way.
  predicate Quiet(c: Channel) {
    && !c.pending && c.toRouter == [] && c.toSocket == [] && |c.got| == |c.sent|
    && (c.cache.Some? ==> c.cache.value.replied)
  }

  // A request that is answered without a loss.
  function Exchange(c: Channel, kind: Kind): seq<Step> {
    if kind == Uncached || Bounced(c, |c.sent|) then [Request(kind), Arrive, Return]
    else [Request(kind), Arrive, Finish, Return]
  }

  lemma Exchanged(c: Channel, kind: Kind)
    requires Quiet(c)
    ensures IsRun(c, Exchange(c, kind))
    ensures var d := After(c, Exchange(c, kind)); Quiet(d) && d.sent == c.sent + [kind] && d.base == c.base
  {
    var n := |c.sent|;
    var c1 := Next(c, Request(kind));
    assert c1.toRouter == [n] && c1.toRouter[1..] == [];
    var c2 := Next(c1, Arrive);
    if kind == Uncached || Bounced(c, n) {
      assert c2.toSocket[1..] == [];
      assert Exchange(c, kind)[1..] == [Arrive, Return] && [Arrive, Return][1..] == [Return] && [Return][1..] == [];
      Three(c, Request(kind), Arrive, Return);
    } else {
      var c3 := Next(c2, Finish);
      assert c3.toSocket == [Reply(n, n)] && c3.toSocket[1..] == [];
      Four(c, Request(kind), Arrive, Finish, Return);
    }
  }

  lemma One(c: Channel, s: Step)
    requires Enabled(c, s)
    ensures IsRun(c, [s]) && After(c, [s]) == Next(c, s)
  {
    assert [s][1..] == [];
    assert After(Next(c, s), []) == Next(c, s);
  }

  lemma Three(c: Channel, s1: Step, s2: Step, s3: Step)
    requires Enabled(c, s1) && Enabled(Next(c, s1), s2) && Enabled(Next(Next(c, s1), s2), s3)
    ensures IsRun(c, [s1, s2, s3]) && After(c, [s1, s2, s3]) == Next(Next(Next(c, s1), s2), s3)
  {
    assert [s1, s2, s3][1..] == [s2, s3] && [s2, s3][1..] == [s3] && [s3][1..] == [];
    var d := Next(c, s1);
    One(Next(d, s2), s3);
    assert IsRun(d, [s2, s3]) && After(d, [s2, s3]) == Next(Next(d, s2), s3);
  }

  lemma Four(c: Channel, s1: Step, s2: Step, s3: Step, s4: Step)
    requires Enabled(c, s1) && Enabled(Next(c, s1), s2) && Enabled(Next(Next(c, s1), s2), s3)
    requires Enabled(Next(Next(Next(c, s1), s2), s3), s4)
    ensures IsRun(c, [s1, s2, s3, s4]) && After(c, [s1, s2, s3, s4]) == Next(Next(Next(Next(c, s1), s2), s3), s4)
  {
    assert [s1, s2, s3, s4][1..] == [s2, s3, s4];
    Three(Next(c, s1), s2, s3, s4);
  }

  lemma {:induction false} RunAppend(c: Channel, a: seq<Step>, b: seq<Step>)
    requires IsRun(c, a) && IsRun(After(c, a), b)
    ensures IsRun(c, a + b) && After(c, a + b) == After(After(c, a), b)
    decreases |a|
  {
    if a == [] {
      assert a + b == b;
    } else {
      assert (a + b)[0] == a[0] && (a + b)[1..] == a[1..] + b;
      RunAppend(Next(c, a[0]), a[1..], b);
    }
  }

  // Any requests can be made and answered in turn.
  lemma {:induction false} AnyRequests(base: nat, kinds: seq<Kind>) returns (steps: seq<Step>)
    ensures IsRun(Open(base), steps)
    ensures var c := After(Open(base), steps); Quiet(c) && c.sent == kinds && c.base == base
  {
    steps := [];
    if kinds != [] {
      steps := AnyRequests(base, kinds[..|kinds| - 1]);
      var c := After(Open(base), steps);
      var kind := kinds[|kinds| - 1];
      Exchanged(c, kind);
      RunAppend(Open(base), steps, Exchange(c, kind));
      steps := steps + Exchange(c, kind);
    }
  }

  function Votes(n: nat): (s: seq<Kind>)
    ensures |s| == n && forall i :: 0 <= i < n ==> s[i] == Uncached
  {
    if n == 0 then [] else Votes(n - 1) + [Uncached]
  }

  // The run in which it fails, without any loss: a cached request, 2^24 - 1 requests for
  // votes, and a cached request again. The last one is answered with the outcome of the
  // first and never executed.
  lemma GapIsReached(base: nat) returns (steps: seq<Step>)
    ensures IsRun(Open(base), steps)
    ensures var c := After(Open(base), steps);
            && !GapsOk(c.sent) && |c.got| == |c.sent| == IDS + 1 && c.sent[IDS] == Cached
            && IDS !in c.ran && c.got[IDS] == 0
  {
    var kinds := [Cached] + Votes(IDS - 1) + [Cached];
    steps := AnyRequests(base, kinds);
    var c := After(Open(base), steps);
    assert Executes(base, kinds, 0);
    HeldFrom(base, kinds, 0, IDS);
    assert IDS % IDS == 0 && (base + 1 + IDS) % IDS == (base + 1) % IDS;
    assert !GapOk(kinds, 0, IDS);
    AnsweredWithoutExecution(base, steps, IDS);
    assert !Executes(base, kinds, IDS);
    assert (IDS - c.got[IDS]) % IDS == 0;
    assert c.sent[c.got[IDS]] == Cached;
  }

  // ---------- The socket ----------

  // The sending side in the form of the program. What its methods do is what the
  // steps of the channel do at that end; a reset starts a new connection.
  class ZmqRpcSocket {
    var connected: bool
    var pending: bool
    var handler: Option<nat>
    var lastReqId: nat

    constructor ()
      ensures Follows(Open(0)) && !connected
    {
      connected, pending, handler, lastReqId := false, false, None, 0;
    }

    // The socket is the sending end of channel c.
    ghost predicate Follows(c: Channel)
      reads this
    {
      && lastReqId == (c.base + |c.sent|) % IDS && pending == c.pending && handler.Some? == pending
      && (pending ==> connected && c.sent != [] && handler == Some(Id(c.base, |c.sent| - 1)))
    }

    method NextRequestId() returns (id: nat)
      modifies this`lastReqId
      ensures id == lastReqId == NextId(old(lastReqId))
    {
      id := (lastReqId + 1) % IDS;
      lastReqId := id;
    }

    // The id that goes out with the request, or nothing while another is pending.
    method Request(kind: Kind, ghost c: Channel) returns (sent: Option<nat>, ghost d: Channel)
      requires Follows(c)
      modifies this
      ensures Follows(d)
      ensures if c.pending then sent == None && d == c
              else sent == Some(Id(c.base, |c.sent|)) && d == Next(c, Step.Request(kind))
    {
      d := c;
      if pending { return None, c; }
      connected, pending := true, true;
      var id := NextRequestId();
      handler := Some(id);
      d := Next(c, Step.Request(kind));
      sent := Some(id);
    }

    // The timer of a pending request sends it again, with the same id.
    method Timer(ghost c: Channel) returns (sent: Option<nat>, ghost d: Channel)
      requires Follows(c)
      ensures Follows(d)
      ensures if c.pending then sent == Some(Id(c.base, |c.sent| - 1)) && d == Next(c, Again) else sent == None && d == c
    {
      sent := handler;
      d := if c.pending then Next(c, Again) else c;
    }

    // The frames handler: anything but the reply to the pending request is ignored.
    method Frames(id: nat, ghost c: Channel) returns (resolved: bool, ghost d: Channel)
      requires Follows(c) && c.toSocket != [] && c.sent != [] && id == Id(c.base, c.toSocket[0].no)
      modifies this`pending, this`handler
      ensures d == Next(c, Return) && Follows(d)
      ensures resolved <==> |d.got| == |c.got| + 1
      ensures resolved ==> c.pending && !d.pending && d.got[|c.got|] == c.toSocket[0].outcome
    {
      d := Next(c, Return);
      resolved := handler == Some(id);
      if resolved { handler, pending := None, false; }
    }

    // reset: a pending request is given up together with its connection, and the
    // next request opens another one. Ids go on counting.
    method Reset(ghost c: Channel) returns (ghost d: Channel)
      requires Follows(c)
      modifies this`connected, this`pending, this`handler
      ensures d == if c.pending then Open((c.base + |c.sent|) % IDS) else c
      ensures Follows(d) && !pending
    {
      d := c;
      if pending {
        handler, pending, connected := None, false, false;
        d := Open(lastReqId);
      }
    }
  }
}
