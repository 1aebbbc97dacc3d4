// What a leader can get done. From every state that can be reached, a leader whose
// requests can still arrive at a quorum of peers that are up can bring its whole log to
// each of them, and commit it: refusals lead down to an index of agreement, and every
// acceptance is counted.
module RaftProgress {
  import opened Wrappers
  import opened Sealing
  import opened Quorum
  import opened RaftPeer
  import opened RaftSystem
  import opened RaftInvariant
  import opened RaftSteps
  import opened RaftSafety
  import opened RaftOwn
  import opened RaftCommit
  import opened RaftElections

  // ---------- The duplicate cache ----------

  lemma CachedHasArrived(st: Setup, s: System, h: History, x: PeerId, l: PeerId)
    requires Inv(st, s, h) && x in s.peers && Tidy(st.cfg, x, s.peers[x]) && !s.peers[x].panicked && l in s.peers[x].cache
    ensures HighOf(s, Conn(l, x, s.peers[x].cache[l].ident)) >= s.peers[x].cache[l].id
  {
    Facts(st, s, h, x);
    var e := s.peers[x].cache[l];
    assert ReplyOk(s, h, Answer(Conn(l, x, e.ident), e.id, e.lastReplied.value));
  }

  // A request that has not arrived yet is not taken for a duplicate.
  lemma NotBounced(st: Setup, s: System, pk: Packet)
    requires ValidSetup(st) && Reached(st, s) && pk.conn.dst in s.peers && !s.peers[pk.conn.dst].panicked
    requires HighOf(s, pk.conn) < pk.id
    ensures !Bounced(s.peers[pk.conn.dst], pk)
  {
    var x := pk.conn.dst;
    IsTidy(st, s, x);
    var h := WitnessOf(st, s);
    if pk.conn.src in s.peers[x].cache { CachedHasArrived(st, s, h, x, pk.conn.src); }
  }

  // ---------- Where a run may go ----------

  // The state is reached, by way of s; sealed.
  ghost predicate Comes(st: Setup, s: System, z: System) {
    forall key {:trigger Opens(key)} :: Opens(key) ==> Reached(st, z) && Leads(st, s, z)
  }

  lemma ComesOn(st: Setup, s: System, z: System, step: Step)
    requires Comes(st, s, z) && Enabled(st, z, step)
    ensures Comes(st, s, Next(st, z, step))
  {
    assert Opens(TheKey);
    LeadsOn(st, s, z, step);
    assert Leads(st, Init(st), z);
    LeadsOn(st, Init(st), z, step);
  }

  lemma ComesFromItself(st: Setup, s: System)
    requires Reached(st, s)
    ensures Comes(st, s, s)
  {
    assert IsRun(st, s, []) && After(st, s, []) == s;
  }

  lemma HasCome(st: Setup, s: System, z: System)
    requires Comes(st, s, z)
    ensures Reached(st, z) && Leads(st, s, z)
  {
    assert Opens(TheKey);
  }

  // ---------- A leader and a follower ----------

  predicate Leading(z: System, x: PeerId, term: nat) {
    x in z.peers && z.peers[x].role == Leader && z.peers[x].currentTerm == term && !z.peers[x].panicked
  }

  // The leader's socket is free and no later request was ever delivered on it.
  predicate Free(z: System, x: PeerId, f: PeerId) {
    && x in z.peers && f in z.peers[x].rpcs && z.peers[x].rpcs[f].pending.None?
    && HighOf(z, ConnOf(z, x, f)) <= z.peers[x].rpcs[f].lastId
  }

  // What a follower makes of a request that it does not take for a duplicate.
  lemma FollowerReplies(st: Setup, p: Peer, pk: Packet, ident: nat) returns (q: Peer, reply: Response)
    requires !p.panicked && pk.req.AppendRequest? && !Bounced(p, pk) && !Panics(p, pk.req) && p.currentTerm <= pk.req.term
    ensures Deliver(st, p, pk, ident) == Outcome(q, Some(reply))
    ensures q.currentTerm == pk.req.term && !q.panicked
    ensures reply.AppendResponse? && reply.term == pk.req.term
  {
    var out := Deliver(st, p, pk, ident);
    q, reply := out.peer, out.reply.value;
  }

  // The request arrives.
  lemma Brought(st: Setup, s: System, z: System, x: PeerId, f: PeerId) returns (u: System, q: Peer, reply: Response)
    requires ValidSetup(st) && Comes(st, s, z) && Waiting(z, x, f) && Up(z, f, z.peers[x].currentTerm)
    ensures Comes(st, s, u) && u.peers == z.peers[f := q] && z.sent <= u.sent
    ensures u.high == z.high[ConnOf(z, x, f) := z.peers[x].rpcs[f].lastId]
    ensures q.currentTerm == z.peers[x].currentTerm && !q.panicked
    ensures reply.AppendResponse? && reply.term == z.peers[x].currentTerm
    ensures Answer(ConnOf(z, x, f), z.peers[x].rpcs[f].lastId, reply) in u.answers
  {
    HasCome(st, s, z);
    var r := z.peers[x].rpcs[f];
    var pk := Packet(ConnOf(z, x, f), r.lastId, r.pending.value);
    NotBounced(st, z, pk);
    if Panics(z.peers[f], pk.req) { PanicOnlyOnRepetition(st, z, pk); }
    q, reply := FollowerReplies(st, z.peers[f], pk, z.clock);
    ComesOn(st, s, z, DeliverRequest(pk));
    u := Next(st, z, DeliverRequest(pk));
  }

  // What the reply tells: a refusal lowers nextIndex, and never below 1.
  lemma ReplyMeans(st: Setup, z: System, x: PeerId, f: PeerId, a: Answer)
    requires ValidSetup(st) && Reached(st, z) && Leading(z, x, a.resp.term) && a in z.answers && a.resp.AppendResponse?
    requires f in z.peers[x].rpcs && z.peers[x].rpcs[f].pending.Some? && z.peers[x].rpcs[f].pending.value.AppendRequest?
    requires a.conn == ConnOf(z, x, f) && a.id == z.peers[x].rpcs[f].lastId
    requires z.peers[x].rpcs[f].pending.value.term == a.resp.term
    ensures Enabled(st, z, DeliverAnswer(a))
    ensures var p := z.peers[x];
            && f in p.nextIndex
            && (!a.resp.success ==> 1 <= Refused(p, f, a.resp.conflict).nextIndex[f] < p.nextIndex[f])
            && (a.resp.success ==>
                  var r := p.rpcs[f].pending.value;
                  r.LastIndex() <= |p.log| && TermAt(p.log, r.LastIndex()) == Some(r.SentLastTerm()))
  {
    assert Informs(st, z, DeliverAnswer(a));
    if a.resp.success {
      PendingIsOfTheLog(st, z, DeliverAnswer(a));
      NextIndexInLog(st, z, x, f);
    } else {
      TakesReply(st, x, z.peers[x], a, z.clock);
      RefusalsDescend(st, z, DeliverAnswer(a));
    }
  }

  // The reply arrives.
  lemma Heard(st: Setup, s: System, z: System, x: PeerId, f: PeerId, a: Answer) returns (u: System)
    requires Comes(st, s, z) && Leading(z, x, a.resp.term) && a in z.answers && a.resp.AppendResponse?
    requires f in z.peers[x].rpcs && z.peers[x].rpcs[f].pending.Some? && z.peers[x].rpcs[f].pending.value.AppendRequest?
    requires a.conn == ConnOf(z, x, f) && a.id == z.peers[x].rpcs[f].lastId
    requires z.peers[x].rpcs[f].pending.value.term == a.resp.term
    ensures Comes(st, s, u) && z.sent <= u.sent && u.high == z.high
    ensures var p := z.peers[x];
            u.peers == z.peers[x := if a.resp.success then Accepted(st.cfg, x, p, f) else Refused(p, f, a.resp.conflict)]
  {
    TakesReply(st, x, z.peers[x], a, z.clock);
    ComesOn(st, s, z, DeliverAnswer(a));
    u := Next(st, z, DeliverAnswer(a));
  }

  // What a request and its reply leave alone: everyone but the two, and the leader's
  // dealings with others.
  ghost predicate Aside(z: System, u: System, x: PeerId, f: PeerId) {
    && x in z.peers && u.peers.Keys == z.peers.Keys && z.sent <= u.sent && u.peers[x].rpcs.Keys == z.peers[x].rpcs.Keys
    && (forall g {:trigger u.peers[g]} :: g in z.peers && g != x && g != f ==> u.peers[g] == z.peers[g])
    && (forall g {:trigger u.peers[x].rpcs[g]} :: g in z.peers[x].rpcs && g != f ==>
          u.peers[x].rpcs[g] == z.peers[x].rpcs[g] && HighOf(u, ConnOf(z, x, g)) == HighOf(z, ConnOf(z, x, g)))
  }

  // The follower is up and in the leader's term, and the leader's socket is free.
  predicate Joined(u: System, x: PeerId, f: PeerId, term: nat) {
    Leading(u, x, term) && Free(u, x, f) && f in u.peers && !u.peers[f].panicked && u.peers[f].currentTerm == term
  }

  // A request that waits is brought and answered.
  lemma Exchange(st: Setup, s: System, z: System, x: PeerId, f: PeerId, term: nat)
    returns (u: System, ok: bool, conflict: Option<nat>)
    requires ValidSetup(st) && Comes(st, s, z) && Leading(z, x, term) && f != x && Waiting(z, x, f) && Up(z, f, term)
    ensures Comes(st, s, u) && Aside(z, u, x, f) && Joined(u, x, f, term)
    ensures u.peers[x] == if ok then Accepted(st.cfg, x, z.peers[x], f) else Refused(z.peers[x], f, conflict)
    ensures var p := z.peers[x];
            && f in p.nextIndex && (!ok ==> 1 <= u.peers[x].nextIndex[f] < p.nextIndex[f])
            && (ok ==>
                  var r := p.rpcs[f].pending.value;
                  r.LastIndex() <= |p.log| && TermAt(p.log, r.LastIndex()) == Some(r.SentLastTerm()))
  {
    var v, q, reply := Brought(st, s, z, x, f);
    u := Returned(st, s, v, x, f, term, reply);
    ok, conflict := reply.success, reply.conflict;
    Exchanged(st.cfg, z, v, u, x, f, term, q, ok, conflict);
  }

  lemma Returned(st: Setup, s: System, v: System, x: PeerId, f: PeerId, term: nat, reply: Response) returns (u: System)
    requires ValidSetup(st) && Comes(st, s, v) && Leading(v, x, term)
    requires f in v.peers[x].rpcs && v.peers[x].rpcs[f].pending.Some? && v.peers[x].rpcs[f].pending.value.AppendRequest?
    requires v.peers[x].rpcs[f].pending.value.term == term && reply.AppendResponse? && reply.term == term
    requires Answer(ConnOf(v, x, f), v.peers[x].rpcs[f].lastId, reply) in v.answers
    ensures Comes(st, s, u) && v.sent <= u.sent && u.high == v.high
    ensures var p := v.peers[x];
            && u.peers == v.peers[x := if reply.success then Accepted(st.cfg, x, p, f) else Refused(p, f, reply.conflict)]
            && f in p.nextIndex && (!reply.success ==> 1 <= u.peers[x].nextIndex[f] < p.nextIndex[f])
            && (reply.success ==>
                  var r := p.rpcs[f].pending.value;
                  r.LastIndex() <= |p.log| && TermAt(p.log, r.LastIndex()) == Some(r.SentLastTerm()))
  {
    var a := Answer(ConnOf(v, x, f), v.peers[x].rpcs[f].lastId, reply);
    HasCome(st, s, v);
    ReplyMeans(st, v, x, f, a);
    u := Heard(st, s, v, x, f, a);
  }

  lemma Exchanged(cfg: Config, z: System, v: System, u: System, x: PeerId, f: PeerId, term: nat, q: Peer, ok: bool, conflict: Option<nat>)
    requires Leading(z, x, term) && f != x && Waiting(z, x, f) && f in z.peers && q.currentTerm == term && !q.panicked
    requires v.peers == z.peers[f := q] && z.sent <= v.sent <= u.sent
    requires u.high == v.high == z.high[ConnOf(z, x, f) := z.peers[x].rpcs[f].lastId]
    requires u.peers == v.peers[x := if ok then Accepted(cfg, x, z.peers[x], f) else Refused(z.peers[x], f, conflict)]
    ensures Aside(z, u, x, f) && Joined(u, x, f, term)
  {
    forall g | g in z.peers[x].rpcs && g != f
      ensures u.peers[x].rpcs[g] == z.peers[x].rpcs[g] && HighOf(u, ConnOf(z, x, g)) == HighOf(z, ConnOf(z, x, g))
    {
      assert ConnOf(z, x, g) != ConnOf(z, x, f);
    }
  }

  // The leader may send all that it has from nextIndex on.
  lemma CanSendAll(st: Setup, z: System, x: PeerId, f: PeerId, term: nat)
    requires ValidSetup(st) && Reached(st, z) && Leading(z, x, term) && Free(z, x, f)
    ensures var p := z.peers[x];
            f in p.nextIndex && 1 <= p.nextIndex[f] <= |p.log| + 1 && CanSendAppend(p, f, |p.log| + 1 - p.nextIndex[f])
  {
    var h := WitnessOf(st, z);
    Facts(st, z, h, x);
    assert KnowsOk(z, h, x, z.peers[x], f);
  }

  lemma Sends(st: Setup, s: System, z: System, x: PeerId, f: PeerId, count: nat) returns (u: System)
    requires Comes(st, s, z) && Free(z, x, f) && !z.peers[x].panicked && CanSendAppend(z.peers[x], f, count)
    ensures Comes(st, s, u) && u.peers == z.peers[x := SendAppend(z.peers[x], f, count)] && u.high == z.high
    ensures Waiting(u, x, f) && Aside(z, u, x, f)
    ensures u.peers[x].rpcs[f].pending == Some(AppendRequestFor(z.peers[x], f, count))
  {
    ComesOn(st, s, z, Replicate(x, f, count));
    u := Next(st, z, Replicate(x, f, count));
    InFlight(x, u.peers[x], f);
  }

  // The follower has the leader's whole log, and the leader knows.
  ghost predicate CaughtUp(cfg: Config, z: System, u: System, x: PeerId, f: PeerId) {
    && x in z.peers && x in u.peers
    && var p, q := z.peers[x], u.peers[x];
    && q.log == p.log && q.matchIndex == p.matchIndex[f := |p.log|]
    && q.commitIndex == if TermAt(p.log, |p.log|) == Some(p.currentTerm) && |p.log| > p.commitIndex
                           && IsQuorum(cfg, HoldersOf(x, |p.log|, q.matchIndex))
                        then |p.log| else p.commitIndex
  }

  lemma AsideTwice(z: System, v: System, u: System, x: PeerId, f: PeerId)
    requires Aside(z, v, x, f) && Aside(v, u, x, f)
    ensures Aside(z, u, x, f)
  {
    forall g | g in z.peers[x].rpcs && g != f
      ensures u.peers[x].rpcs[g] == z.peers[x].rpcs[g] && HighOf(u, ConnOf(z, x, g)) == HighOf(z, ConnOf(z, x, g))
    {
      assert v.peers[x].rpcs[g] == z.peers[x].rpcs[g];
    }
    forall g | g in z.peers && g != x && g != f ensures u.peers[g] == z.peers[g] { assert v.peers[g] == z.peers[g]; }
  }

  lemma AllAccepted(cfg: Config, z: System, v: System, u: System, x: PeerId, f: PeerId)
    requires x in z.peers && x in v.peers && x in u.peers
    requires f in z.peers[x].nextIndex && z.peers[x].nextIndex[f] <= |z.peers[x].log| + 1
    requires CanSendAppend(z.peers[x], f, |z.peers[x].log| + 1 - z.peers[x].nextIndex[f])
    requires v.peers[x] == SendAppend(z.peers[x], f, |z.peers[x].log| + 1 - z.peers[x].nextIndex[f])
    requires u.peers[x] == Accepted(cfg, x, v.peers[x], f)
    requires var r := v.peers[x].rpcs[f].pending.value; TermAt(v.peers[x].log, r.LastIndex()) == Some(r.SentLastTerm())
    ensures CaughtUp(cfg, z, u, x, f)
  {
  }

  // One request with all that it may bring, and its answer.
  lemma SendAndHear(st: Setup, s: System, z: System, x: PeerId, f: PeerId, term: nat) returns (u: System, ok: bool)
    requires ValidSetup(st) && Comes(st, s, z) && Leading(z, x, term) && f != x && Free(z, x, f) && Up(z, f, term)
    ensures Comes(st, s, u) && Aside(z, u, x, f) && Joined(u, x, f, term)
    ensures ok ==> CaughtUp(st.cfg, z, u, x, f)
    ensures var p, q := z.peers[x], u.peers[x];
            !ok ==> q.log == p.log && q.matchIndex == p.matchIndex && q.commitIndex == p.commitIndex
                    && f in p.nextIndex && f in q.nextIndex && q.nextIndex[f] < p.nextIndex[f]
  {
    HasCome(st, s, z);
    CanSendAll(st, z, x, f, term);
    var v := Sends(st, s, z, x, f, |z.peers[x].log| + 1 - z.peers[x].nextIndex[f]);
    var conflict;
    u, ok, conflict := Exchange(st, s, v, x, f, term);
    AsideTwice(z, v, u, x, f);
    if ok { AllAccepted(st.cfg, z, v, u, x, f); }
  }

  // Requests and refusals, until one is accepted.
  lemma {:induction false} CatchUp(st: Setup, s: System, z: System, x: PeerId, f: PeerId, term: nat) returns (u: System)
    requires ValidSetup(st) && Comes(st, s, z) && Leading(z, x, term) && f != x && Free(z, x, f) && Up(z, f, term)
    ensures Comes(st, s, u) && Aside(z, u, x, f) && Joined(u, x, f, term) && CaughtUp(st.cfg, z, u, x, f)
    decreases if x in z.peers && f in z.peers[x].nextIndex then z.peers[x].nextIndex[f] else 0
  {
    var ok;
    u, ok := SendAndHear(st, s, z, x, f, term);
    if !ok {
      var w := u;
      u := CatchUp(st, s, w, x, f, term);
      AsideTwice(z, w, u, x, f);
    }
  }

  // ---------- A whole quorum ----------

  // The follower is up, in no later term, and the leader's requests still get through.
  predicate InTouch(z: System, x: PeerId, f: PeerId, term: nat) {
    f != x && Up(z, f, term) && (Free(z, x, f) || Waiting(z, x, f))
  }

  lemma InTouchStill(z: System, u: System, x: PeerId, f: PeerId, g: PeerId, term: nat)
    requires Aside(z, u, x, f) && InTouch(z, x, g, term) && g != f && Leading(z, x, term) && Leading(u, x, term)
    ensures InTouch(u, x, g, term)
  {
    assert u.peers[g] == z.peers[g] && u.peers[x].rpcs[g] == z.peers[x].rpcs[g];
    assert HighOf(u, ConnOf(z, x, g)) == HighOf(z, ConnOf(z, x, g));
  }

  // The request on its way, if there is one, and then all that is missing.
  lemma Serve(st: Setup, s: System, z: System, x: PeerId, f: PeerId, term: nat) returns (u: System)
    requires ValidSetup(st) && Comes(st, s, z) && Leading(z, x, term) && InTouch(z, x, f, term)
    ensures Comes(st, s, u) && Aside(z, u, x, f) && Joined(u, x, f, term)
    ensures var p, q := z.peers[x], u.peers[x];
            && q.log == p.log && q.matchIndex == p.matchIndex[f := |p.log|] && p.commitIndex <= q.commitIndex
            && (TermAt(p.log, |p.log|) == Some(term) && IsQuorum(st.cfg, HoldersOf(x, |p.log|, q.matchIndex))
                ==> q.commitIndex >= |p.log|)
  {
    if Free(z, x, f) {
      u := CatchUp(st, s, z, x, f, term);
    } else {
      var ok, conflict;
      var v;
      v, ok, conflict := Exchange(st, s, z, x, f, term);
      u := CatchUp(st, s, v, x, f, term);
      AsideTwice(z, v, u, x, f);
      MatchTwice(st.cfg, z, v, x, f, ok, conflict);
    }
  }

  lemma MatchTwice(cfg: Config, z: System, v: System, x: PeerId, f: PeerId, ok: bool, conflict: Option<nat>)
    requires x in z.peers && x in v.peers && Waiting(z, x, f)
    requires v.peers[x] == if ok then Accepted(cfg, x, z.peers[x], f) else Refused(z.peers[x], f, conflict)
    ensures var p, q := z.peers[x], v.peers[x];
            && q.log == p.log && p.commitIndex <= q.commitIndex && q.currentTerm == p.currentTerm
            && forall n: nat {:trigger q.matchIndex[f := n]} :: q.matchIndex[f := n] == p.matchIndex[f := n]
  {
  }

  predicate AllInTouch(z: System, x: PeerId, rest: seq<PeerId>, term: nat) {
    forall f {:trigger InTouch(z, x, f, term)} :: f in rest ==> InTouch(z, x, f, term)
  }

  predicate AllHave(p: Peer, done: set<PeerId>) {
    forall g :: g in done ==> g in p.matchIndex && p.matchIndex[g] >= |p.log|
  }

  // One follower after another, until a quorum has the leader's whole log.
  lemma {:induction false} Spread(st: Setup, s: System, z: System, x: PeerId, term: nat, done: set<PeerId>, rest: seq<PeerId>)
    returns (u: System)
    requires ValidSetup(st) && Comes(st, s, z) && Leading(z, x, term) && AllInTouch(z, x, rest, term)
    requires Distinct(rest) && AllHave(z.peers[x], done) && rest != []
    requires TermAt(z.peers[x].log, |z.peers[x].log|) == Some(term) && IsQuorum(st.cfg, {x} + done + Ids(rest))
    ensures Comes(st, s, u) && Leading(u, x, term)
    ensures u.peers[x].log == z.peers[x].log && u.peers[x].commitIndex >= |z.peers[x].log|
    decreases |rest|
  {
    OneLess({x} + done, rest);
    assert {x} + (done + {rest[0]}) == {x} + done + {rest[0]};
    assert InTouch(z, x, rest[0], term);
    var v := Serve(st, s, z, x, rest[0], term);
    u := v;
    if rest[1..] == [] {
      AllHold(st.cfg, x, z.peers[x], done, rest[0], v.peers[x].matchIndex);
    } else {
      StillInTouch(z, v, x, rest[0], rest[1..], term);
      u := Spread(st, s, v, x, term, done + {rest[0]}, rest[1..]);
    }
  }

  lemma AllHold(cfg: Config, x: PeerId, p: Peer, done: set<PeerId>, f: PeerId, matchIndex: map<PeerId, nat>)
    requires AllHave(p, done) && matchIndex == p.matchIndex[f := |p.log|] && IsQuorum(cfg, {x} + done + {f})
    ensures IsQuorum(cfg, HoldersOf(x, |p.log|, matchIndex))
  {
    assert {x} + done + {f} <= HoldersOf(x, |p.log|, matchIndex);
    QuorumGrows(cfg, {x} + done + {f}, HoldersOf(x, |p.log|, matchIndex));
  }

  lemma StillInTouch(z: System, u: System, x: PeerId, f: PeerId, rest: seq<PeerId>, term: nat)
    requires Aside(z, u, x, f) && Leading(z, x, term) && Leading(u, x, term) && f !in rest && AllInTouch(z, x, rest, term)
    ensures AllInTouch(u, x, rest, term)
  {
    forall g | g in rest ensures InTouch(u, x, g, term) {
      assert InTouch(z, x, g, term);
      InTouchStill(z, u, x, f, g, term);
    }
  }

  // From every reached state: a leader that is up, and followers with whom it is a quorum,
  // each of them up, in no later term, and with a socket on which the leader's requests
  // still get through. A client's update is appended, and there is a run in which it is
  // committed, with everything before it.
  lemma LeaderCanCommit(st: Setup, s: System, x: PeerId, followers: seq<PeerId>, data: int) returns (z: System)
    requires ValidSetup(st) && Reached(st, s) && x in s.peers && Leading(s, x, s.peers[x].currentTerm)
    requires Distinct(followers) && IsQuorum(st.cfg, {x} + Ids(followers))
    requires AllInTouch(s, x, followers, s.peers[x].currentTerm)
    ensures Leads(st, s, z) && Leading(z, x, s.peers[x].currentTerm)
    ensures z.peers[x].log == s.peers[x].log + [Entry(s.peers[x].currentTerm, State(data))]
    ensures z.peers[x].commitIndex == |z.peers[x].log|
  {
    ComesFromItself(st, s);
    CommittedIsLogged(st, s, s, x);
    z := CommitsUpdate(st, s, x, s.peers[x].currentTerm, followers, data);
    CommittedIsLogged(st, s, z, x);
  }

  lemma CommitsUpdate(st: Setup, s: System, x: PeerId, term: nat, followers: seq<PeerId>, data: int) returns (z: System)
    requires ValidSetup(st) && Comes(st, s, s) && Leading(s, x, term) && s.peers[x].commitIndex <= |s.peers[x].log|
    requires Distinct(followers) && IsQuorum(st.cfg, {x} + Ids(followers)) && AllInTouch(s, x, followers, term)
    ensures Comes(st, s, z) && Leading(z, x, term)
    ensures z.peers[x].log == s.peers[x].log + [Entry(term, State(data))] && z.peers[x].commitIndex >= |z.peers[x].log|
  {
    var v := Updates(st, s, s, x, data);
    if followers == [] {
      z := v;
      Alone(st.cfg, x, followers);
    } else {
      UpdatedInTouch(st, s, v, x, followers, term, data);
      assert {x} + {} + Ids(followers) == {x} + Ids(followers);
      z := Spread(st, s, v, x, term, {}, followers);
    }
  }

  lemma UpdatedInTouch(st: Setup, s: System, v: System, x: PeerId, followers: seq<PeerId>, term: nat, data: int)
    requires Leading(s, x, term) && AllInTouch(s, x, followers, term)
    requires v.high == s.high && s.sent <= v.sent && v.peers == s.peers[x := ClientAppend(st, x, s.peers[x], data)]
    ensures AllInTouch(v, x, followers, term)
  {
    forall f | f in followers ensures InTouch(v, x, f, term) { assert InTouch(s, x, f, term); }
  }

  lemma Updates(st: Setup, s: System, z: System, x: PeerId, data: int) returns (u: System)
    requires Comes(st, s, z) && x in z.peers && Leading(z, x, z.peers[x].currentTerm)
    ensures Comes(st, s, u) && u.high == z.high && z.sent <= u.sent
    ensures u.peers == z.peers[x := ClientAppend(st, x, z.peers[x], data)]
  {
    ComesOn(st, s, z, ClientUpdate(x, data));
    u := Next(st, z, ClientUpdate(x, data));
  }

  lemma CommittedIsLogged(st: Setup, s: System, z: System, x: PeerId)
    requires ValidSetup(st) && Comes(st, s, z) && x in z.peers
    ensures Leads(st, s, z) && z.peers[x].commitIndex <= |z.peers[x].log|
  {
    HasCome(st, s, z);
    var h := WitnessOf(st, z);
    Facts(st, z, h, x);
  }

  // From every reached state: a peer that may stand, and voters with whom it is a quorum,
  // each of them up, not held back, in no later term and not ahead of it in its log. There
  // is a run in which it is elected in the next term and a client's update is committed on
  // top of its log.
  lemma QuorumCanCommit(st: Setup, s: System, x: PeerId, voters: seq<PeerId>, data: int) returns (z: System)
    requires ValidSetup(st) && Reached(st, s) && x in s.peers && s.peers[x].role != Leader && Able(st, s.peers[x])
    requires Distinct(voters) && x !in voters && IsQuorum(st.cfg, {x} + Ids(voters))
    requires forall f {:trigger Votes(st, s, f, s.peers[x])} :: f in voters ==> Votes(st, s, f, s.peers[x])
    ensures Leads(st, s, z) && Leading(z, x, s.peers[x].currentTerm + 1)
    ensures var p, q := s.peers[x], z.peers[x];
            && p.log <= q.log && q.log != [] && q.log[|q.log| - 1] == Entry(p.currentTerm + 1, State(data))
            && q.commitIndex == |q.log|
  {
    var y, steps := CanBeElected(st, s, x, voters);
    Led(st, s, y, x, voters);
    assert RunsTo(st, s, steps, y);
    z := LeaderCanCommit(st, y, x, voters, data);
    LeadsBoth(st, s, y, z);
  }

  lemma Led(st: Setup, s: System, y: System, x: PeerId, voters: seq<PeerId>)
    requires ValidSetup(st) && Reached(st, y) && x in s.peers && x !in voters
    requires Office(s, y, x, s.peers[x].currentTerm + 1, Ids(voters))
    ensures Leading(y, x, s.peers[x].currentTerm + 1) && AllInTouch(y, x, voters, s.peers[x].currentTerm + 1)
  {
    var h := WitnessOf(st, y);
    Facts(st, y, h, x);
    forall f | f in voters ensures InTouch(y, x, f, s.peers[x].currentTerm + 1) {
      assert f in Ids(voters) && Up(y, f, s.peers[x].currentTerm + 1);
      Facts(st, y, h, f);
      assert f in y.peers[x].rpcs && Waiting(y, x, f);
    }
  }

  lemma LeadsBoth(st: Setup, s: System, y: System, z: System)
    requires Leads(st, s, y) && Leads(st, y, z)
    ensures Leads(st, s, z)
  {
    var a :| IsRun(st, s, a) && After(st, s, a) == y;
    var b :| IsRun(st, y, b) && After(st, y, b) == z;
    RoutesJoin(st, s, a, y, b, z);
    Follow(st, s, a + b, z);
  }

  lemma Follow(st: Setup, s: System, steps: seq<Step>, z: System)
    requires Route(st, s, steps, z)
    ensures Leads(st, s, z)
  {
    assert Turns(TheKey);
  }
}
