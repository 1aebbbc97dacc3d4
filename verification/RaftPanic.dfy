// When a follower panics instead of truncating below its commit index: exactly when
// the request it executed last on a connection comes again and its bounce cache no
// longer holds it. Without crashes, and with connections used one after the other,
// the cache answers every repetition. Module RaftPanicRun shows that neither of the
// two can be left out.
module RaftPanic {
  import opened Quorum
  import opened RaftPeer
  import opened RaftSystem
  import opened RaftInvariant
  import opened RaftSteps
  import opened RaftStepsRequest
  import opened RaftStepsReply
  import opened RaftSafety

  // In every reachable state, what a delivered request does: the follower panics if and
  // only if the request is the very one delivered last on its connection, the cache does
  // not hold it, and it is of the follower's term and from below its commit index.
  lemma PanicsExactlyWhen(st: Setup, s: System, pk: Packet)
    requires ValidSetup(st) && Reached(st, s) && Enabled(st, s, DeliverRequest(pk)) && pk.req.AppendRequest?
    ensures var p := s.peers[pk.conn.dst];
            Next(st, s, DeliverRequest(pk)).peers[pk.conn.dst].panicked <==>
              && !Bounced(p, pk)
              && pk.conn in s.high && s.high[pk.conn] == pk.id
              && p.currentTerm == pk.req.term && pk.req.prevIndex < p.commitIndex
  {
    var p := s.peers[pk.conn.dst];
    DeliveryPanics(st, p, pk, s.clock);
    assert Next(st, s, DeliverRequest(pk)).peers[pk.conn.dst] == Deliver(st, p, pk, s.clock).peer;
    if Panics(p, pk.req) { PanicOnlyOnRepetition(st, s, pk); }
  }

  lemma DeliveryPanics(st: Setup, p: Peer, pk: Packet, ident: nat)
    requires !p.panicked && pk.req.AppendRequest?
    ensures Deliver(st, p, pk, ident).peer.panicked <==> !Bounced(p, pk) && Panics(p, pk.req)
  {
  }

  // ---------- Runs without a panic ----------

  // No crash, and once a request arrived on a connection, none arrives on an older
  // one between the same two peers.
  predicate Orderly(s: System, step: Step) {
    && !step.Crash?
    && (step.DeliverRequest? ==>
          forall c :: c in s.high && c.src == step.packet.conn.src && c.dst == step.packet.conn.dst
                      ==> c.ident <= step.packet.conn.ident)
  }

  ghost predicate OrderlyRun(st: Setup, s: System, steps: seq<Step>)
    requires IsRun(st, s, steps)
    decreases |steps|
  {
    steps == [] || (Orderly(s, steps[0]) && OrderlyRun(st, Next(st, s, steps[0]), steps[1..]))
  }

  predicate Newest(s: System, conn: Conn) {
    forall c :: c in s.high && c.src == conn.src && c.dst == conn.dst ==> c.ident <= conn.ident
  }

  // The last request delivered on the connection is in the receiver's cache,
  // unless it asked for a vote.
  predicate Covered(s: System, conn: Conn)
    requires conn in s.high
  {
    || (&& conn.dst in s.peers && conn.src in s.peers[conn.dst].cache
        && s.peers[conn.dst].cache[conn.src].ident == conn.ident
        && s.peers[conn.dst].cache[conn.src].id == s.high[conn])
    || (exists pk :: pk in s.sent && pk.req.VoteRequest? && pk.conn == conn && pk.id == s.high[conn])
  }

  predicate CacheHolds(s: System) {
    && (forall conn {:trigger Covered(s, conn)} :: conn in s.high && Newest(s, conn) ==> Covered(s, conn))
    && (forall x :: x in s.peers ==> !s.peers[x].panicked)
  }

  // A repetition is bounced, so the request panics nobody.
  lemma NoPanicHere(st: Setup, s: System, h: History, pk: Packet)
    requires Inv(st, s, h) && Deliverable(s, pk) && pk.req.AppendRequest? && pk.conn.dst in s.peers
    requires CacheHolds(s) && Newest(s, pk.conn) && !Bounced(s.peers[pk.conn.dst], pk)
    ensures !Panics(s.peers[pk.conn.dst], pk.req)
  {
    if Panics(s.peers[pk.conn.dst], pk.req) {
      PanicOnlyOnRepetitionAt(st, s, h, pk);
      assert Covered(s, pk.conn);
      var vk :| vk in s.sent && vk.req.VoteRequest? && vk.conn == pk.conn && vk.id == pk.id;
      SameRequest(st, s, h, vk, pk);
    }
  }

  lemma SameRequest(st: Setup, s: System, h: History, a: Packet, b: Packet)
    requires Inv(st, s, h) && a in s.sent && b in s.sent && a.conn == b.conn && a.id == b.id
    ensures a.req == b.req
  {
    assert PairOk(s, h, a, b);
  }

  lemma LocalStepHolds(st: Setup, s: System, step: Step)
    requires Enabled(st, s, step) && CacheHolds(s) && !step.DeliverRequest? && !step.Crash?
    ensures CacheHolds(Next(st, s, step))
  {
    var z := Next(st, s, step);
    LocalPeer(st, s, step);
    forall conn | conn in z.high && Newest(z, conn) ensures Covered(z, conn) {
      assert Newest(s, conn) && Covered(s, conn);
    }
  }

  lemma LocalPeer(st: Setup, s: System, step: Step)
    requires Enabled(st, s, step) && !step.DeliverRequest? && !step.Crash?
    ensures SameCache(s.peers[Actor(step)], Act(st, s, step).peer)
  {
    match step
    case Timeout(x) => LeaderCache(st, x, Standing(st, x, s.peers[x], s.clock), s.clock);
    case DeliverAnswer(a) => ReceiveCache(st, a.conn.src, s.peers[a.conn.src], a, s.clock);
    case _ =>
  }

  predicate SameCache(p: Peer, q: Peer) { q.cache == p.cache && q.panicked == p.panicked }

  lemma LeaderCache(st: Setup, x: PeerId, b: Peer, ident: nat)
    ensures SameCache(b, BecomeLeader(st, x, b, ident))
  {
  }

  lemma ReceiveCache(st: Setup, me: PeerId, p: Peer, a: Answer, ident: nat)
    requires Awaited(p, a) && a.resp.VoteResponse? == p.rpcs[a.conn.dst].pending.value.VoteRequest?
    ensures SameCache(p, Receive(st, me, p, a, ident))
  {
    var r := Resolved(p, a.conn.dst);
    if a.resp.VoteResponse? {
      VoteCache(st, me, r, a.conn.dst, p.rpcs[a.conn.dst].pending.value.term, a.resp.term, a.resp.granted, ident);
    }
  }

  lemma VoteCache(st: Setup, me: PeerId, p: Peer, f: PeerId, sent: nat, term: nat, granted: bool, ident: nat)
    ensures SameCache(p, OnVoteResponse(st, me, p, f, sent, term, granted, ident))
  {
    LeaderCache(st, me, Vote(p, f, granted), ident);
  }

  lemma DeliveredPeer(st: Setup, s: System, step: Step)
    requires Enabled(st, s, step) && step.DeliverRequest?
    requires var p, pk := s.peers[Actor(step)], step.packet;
             pk.req.AppendRequest? && !Bounced(p, pk) ==> !Panics(p, pk.req)
    ensures var p, q, pk := s.peers[Actor(step)], Act(st, s, step).peer, step.packet;
            && q.panicked == p.panicked
            && (forall l :: l != pk.conn.src && l in p.cache ==> l in q.cache && q.cache[l] == p.cache[l])
            && (pk.req.AppendRequest? ==> Bounced(q, pk))
  {
  }

  lemma RequestHolds(st: Setup, s: System, h: History, step: Step)
    requires Inv(st, s, h) && Enabled(st, s, step) && CacheHolds(s) && step.DeliverRequest? && Orderly(s, step)
    ensures CacheHolds(Next(st, s, step))
  {
    var pk, z := step.packet, Next(st, s, step);
    var p := s.peers[pk.conn.dst];
    if pk.req.AppendRequest? && !Bounced(p, pk) { NoPanicHere(st, s, h, pk); }
    DeliveredPeer(st, s, step);
    forall conn | conn in z.high && Newest(z, conn) ensures Covered(z, conn) {
      if conn == pk.conn {
        assert pk in z.sent;
      } else {
        StillCovered(st, s, step, conn);
      }
    }
  }

  lemma StillCovered(st: Setup, s: System, step: Step, conn: Conn)
    requires Enabled(st, s, step) && CacheHolds(s) && step.DeliverRequest? && Orderly(s, step)
    requires conn in Next(st, s, step).high && Newest(Next(st, s, step), conn) && conn != step.packet.conn
    requires var p, q, pk := s.peers[Actor(step)], Act(st, s, step).peer, step.packet;
             forall l :: l != pk.conn.src && l in p.cache ==> l in q.cache && q.cache[l] == p.cache[l]
    ensures Covered(Next(st, s, step), conn)
  {
    var pk, z := step.packet, Next(st, s, step);
    assert pk.conn in z.high;
    assert conn in s.high && Newest(s, conn) && Covered(s, conn);
    assert !(conn.src == pk.conn.src && conn.dst == pk.conn.dst);
  }

  lemma {:induction false} NoPanicAlong(st: Setup, s: System, h: History, steps: seq<Step>)
    requires Inv(st, s, h) && CacheHolds(s) && IsRun(st, s, steps) && OrderlyRun(st, s, steps)
    ensures CacheHolds(After(st, s, steps))
    decreases |steps|
  {
    if steps != [] {
      StepKeeps(st, s, h, steps[0]);
      if steps[0].DeliverRequest? {
        RequestHolds(st, s, h, steps[0]);
      } else {
        LocalStepHolds(st, s, steps[0]);
      }
      NoPanicAlong(st, Next(st, s, steps[0]), Observe(st, s, h, steps[0]), steps[1..]);
    }
  }

  // No run without crashes and without late packets of old connections panics.
  lemma NoPanic(st: Setup, steps: seq<Step>, x: PeerId)
    requires ValidSetup(st) && IsRun(st, Init(st), steps) && OrderlyRun(st, Init(st), steps)
    requires x in After(st, Init(st), steps).peers
    ensures !After(st, Init(st), steps).peers[x].panicked
  {
    InitKeeps(st);
    NoPanicAlong(st, Init(st), Blank, steps);
  }
}
