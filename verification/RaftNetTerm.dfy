// The network half of the invariant when a peer enters a new term, casts a vote,
// steps down or starts again.
module RaftNetTerm {
  import opened Wrappers
  import opened Quorum
  import opened RaftPeer
  import opened RaftSystem
  import opened RaftInvariant
  import opened RaftLogs
  import opened RaftCore

  // A connection is kept, or replaced by one never used before.
  predicate Reconnected(clock: nat, clock': nat, p: Rpc, q: Rpc) {
    (q.ident == p.ident && q.lastId == p.lastId) || clock <= q.ident < clock'
  }

  // x moves to q with no request pending.
  ghost predicate TermStep(cfg: Config, s: System, h: History, x: PeerId, q: Peer, z: System, g: History) {
    && x in s.peers && TermChange(cfg, s.peers, h, x, s.peers[x], q)
    && g == WithVote(h, x, s.peers[x], q) && HistoryGrows(h, g)
    && z == System(s.peers[x := q], s.sent, s.answers, s.high, z.clock) && z.clock >= s.clock
    && (q.cache == s.peers[x].cache || q.cache == map[])
    && q.rpcs.Keys == s.peers[x].rpcs.Keys
    && (forall f {:trigger q.rpcs[f]} :: f in q.rpcs ==>
          q.rpcs[f].pending.None? && Reconnected(s.clock, z.clock, s.peers[x].rpcs[f], q.rpcs[f]))
  }

  // No log of a peer outside the term agrees with the leader's own entries.
  lemma NoAgreement(a: Log, log: Log, j: nat, t: nat)
    requires TermsBelow(a, t) && 0 < j && (j <= |log| ==> log[j - 1].term == t)
    ensures !Agree(a, log, j)
  {
    if Agree(a, log, j) { AgreeAt(a, log, j, j - 1); }
  }

  lemma BeyondBase(cfg: Config, h: History, t: nat)
    requires HistoryOk(cfg, h) && t in h.terms
    ensures var r := h.terms[t]; r.base + 1 <= |r.log| ==> r.log[r.base].term == t
  {
    assert TermOk(cfg, h, t, h.terms[t]);
  }

  lemma AppendPacketGrows(cfg: Config, h: History, g: History, pk: Packet)
    requires HistoryGrows(h, g) && pk.req.AppendRequest? && AppendPacketOk(cfg, h, pk)
    ensures AppendPacketOk(cfg, g, pk)
  {
    var r := pk.req;
    assert TermGrows(r.term, h.terms[r.term], g.terms[r.term]);
    var a, b := h.terms[r.term].log, g.terms[r.term].log;
    assert b[..r.commit] == a[..r.commit];
    CommittedGrows(cfg, h, g, a[..r.commit], r.term, r.term);
  }

  lemma AnswerGrows(s: System, h: History, z: System, g: History, a: Answer)
    requires HistoryGrows(h, g) && AnswerOk(s, h, a) && s.sent <= z.sent && s.high == z.high
    ensures AnswerOk(z, g, a)
  {
    var pk :| pk in s.sent && AnswerTo(h, a, pk);
    assert pk in z.sent && AnswerTo(g, a, pk);
  }

  lemma TermPacket(cfg: Config, s: System, h: History, x: PeerId, q: Peer, z: System, g: History, pk: Packet)
    requires HistoryOk(cfg, h) && TermStep(cfg, s, h, x, q, z, g) && PacketOk(cfg, s, h, pk)
    requires pk in s.sent && LogOk(h, x, s.peers[x]) && NoFuture(h, x, s.peers[x].currentTerm)
    ensures PacketOk(cfg, z, g, pk)
  {
    TermWire(cfg, s, h, x, q, z, g, pk);
    if pk.req.AppendRequest? {
      AppendPacketGrows(cfg, h, g, pk);
      TermProbe(cfg, s, h, x, q, z, g, pk);
    }
  }

  lemma TermWire(cfg: Config, s: System, h: History, x: PeerId, q: Peer, z: System, g: History, pk: Packet)
    requires TermStep(cfg, s, h, x, q, z, g) && PacketOk(cfg, s, h, pk)
    ensures WireOk(cfg, z, pk)
    ensures pk.req.VoteRequest? ==> VotePacketOk(z, pk)
    ensures pk.req.AppendRequest? ==> LeaderConnOk(z, pk)
  {
    if pk.conn.src == x {
      var f := pk.conn.dst;
      assert Reconnected(s.clock, z.clock, s.peers[x].rpcs[f], q.rpcs[f]);
    }
  }

  lemma TermProbe(cfg: Config, s: System, h: History, x: PeerId, q: Peer, z: System, g: History, pk: Packet)
    requires HistoryOk(cfg, h) && TermStep(cfg, s, h, x, q, z, g)
    requires pk.req.AppendRequest? && pk.req.term in h.terms && pk.conn.dst in s.peers && ProbeOk(s, h, pk)
    requires LogOk(h, x, s.peers[x]) && NoFuture(h, x, s.peers[x].currentTerm)
    ensures ProbeOk(z, g, pk)
  {
    var p := s.peers[x];
    if pk.conn.dst == x && q.currentTerm == pk.req.term && p.currentTerm < q.currentTerm {
      LogTermsBelow(cfg, h, x, p, q.currentTerm);
      BeyondBase(cfg, h, pk.req.term);
      NoAgreement(p.log, h.terms[pk.req.term].log, pk.req.prevIndex + 1, pk.req.term);
    }
  }

  lemma TermPair(cfg: Config, s: System, h: History, x: PeerId, q: Peer, z: System, g: History, a: Packet, b: Packet)
    requires TermStep(cfg, s, h, x, q, z, g) && PairOk(s, h, a, b)
    ensures PairOk(z, g, a, b)
  {
    if a.req.AppendRequest? && b.req.AppendRequest? { assert OrderOk(s, h, a, b); }
  }

  lemma TermReply(cfg: Config, s: System, h: History, x: PeerId, q: Peer, z: System, g: History, a: Answer)
    requires TermStep(cfg, s, h, x, q, z, g) && ReplyOk(s, h, a)
    requires NoFuture(h, x, s.peers[x].currentTerm)
    ensures ReplyOk(z, g, a)
  {
    AnswerGrows(s, h, z, g, a);
    if a.conn.src == x {
      assert a.conn.dst in q.rpcs ==> q.rpcs[a.conn.dst].pending.None?;
    }
  }

  lemma TermSockets(cfg: Config, s: System, h: History, x: PeerId, q: Peer, z: System, g: History, y: PeerId)
    requires HistoryOk(cfg, h) && TermStep(cfg, s, h, x, q, z, g)
    requires y in s.peers && SocketsOk(cfg, s, h, y, s.peers[y])
    requires LogOk(h, x, s.peers[x]) && NoFuture(h, x, s.peers[x].currentTerm)
    requires LeadingOk(cfg, h, y, s.peers[y])
    ensures SocketsOk(cfg, z, g, y, z.peers[y])
  {
    if y == x {
      assert RpcsOk(cfg, z, x, q) by {
        forall f | f in q.rpcs ensures q.rpcs[f].ident < z.clock {
          assert Reconnected(s.clock, z.clock, s.peers[x].rpcs[f], q.rpcs[f]);
        }
      }
    } else {
      TermLeader(cfg, s, h, x, q, z, g, y);
    }
  }

  lemma TermLeader(cfg: Config, s: System, h: History, x: PeerId, q: Peer, z: System, g: History, y: PeerId)
    requires HistoryOk(cfg, h) && TermStep(cfg, s, h, x, q, z, g)
    requires y in s.peers && y != x && LeaderOk(cfg, s, h, y, s.peers[y]) && LeadingOk(cfg, h, y, s.peers[y])
    requires LogOk(h, x, s.peers[x]) && NoFuture(h, x, s.peers[x].currentTerm)
    ensures LeaderOk(cfg, z, g, y, s.peers[y])
  {
    var l := s.peers[y];
    if l.role == Leader {
      forall f | f in Others(cfg, y) ensures KnowsOk(z, g, y, l, f) {
        assert KnowsOk(s, h, y, l, f);
        TermFollower(cfg, s, h, x, q, z, g, y, f);
      }
    }
  }

  lemma TermFollower(cfg: Config, s: System, h: History, x: PeerId, q: Peer, z: System, g: History, y: PeerId, f: PeerId)
    requires HistoryOk(cfg, h) && TermStep(cfg, s, h, x, q, z, g)
    requires y in s.peers && y != x && KnowsOk(s, h, y, s.peers[y], f)
    requires s.peers[y].currentTerm in h.terms && h.terms[s.peers[y].currentTerm].log == s.peers[y].log
    requires LogOk(h, x, s.peers[x]) && NoFuture(h, x, s.peers[x].currentTerm)
    ensures KnowsOk(z, g, y, s.peers[y], f)
  {
    var p, l := s.peers[x], s.peers[y];
    if f == x && q.currentTerm == l.currentTerm && p.currentTerm < q.currentTerm {
      LogTermsBelow(cfg, h, x, p, q.currentTerm);
      BeyondBase(cfg, h, l.currentTerm);
      NoAgreement(p.log, l.log, l.nextIndex[f], l.currentTerm);
    }
    forall b | Leftover(z, y, f, l.currentTerm, b) && l.rpcs[f].pending.None?
               && z.peers[f].currentTerm <= l.currentTerm
      ensures Before(z, g, b, l.nextIndex[f] - 1)
    {
      assert Leftover(s, y, f, l.currentTerm, b);
      assert Before(s, h, b, l.nextIndex[f] - 1);
    }
  }

  lemma TermChangeNet(cfg: Config, s: System, h: History, x: PeerId, q: Peer, z: System, g: History)
    requires CoreOk(cfg, s.peers, h) && NetOk(cfg, s, h) && TermStep(cfg, s, h, x, q, z, g)
    ensures NetOk(cfg, z, g)
  {
    assert PeerOk(cfg, h, x, s.peers[x]);
    forall pk | pk in z.sent ensures PacketOk(cfg, z, g, pk) {
      assert PacketOk(cfg, s, h, pk);
      TermPacket(cfg, s, h, x, q, z, g, pk);
    }
    forall a, b | a in z.sent && b in z.sent ensures PairOk(z, g, a, b) {
      assert PairOk(s, h, a, b);
      TermPair(cfg, s, h, x, q, z, g, a, b);
    }
    forall a | a in z.answers ensures ReplyOk(z, g, a) {
      assert ReplyOk(s, h, a);
      TermReply(cfg, s, h, x, q, z, g, a);
    }
    forall y | y in z.peers ensures SocketsOk(cfg, z, g, y, z.peers[y]) {
      assert SocketsOk(cfg, s, h, y, s.peers[y]) && PeerOk(cfg, h, y, s.peers[y]);
      TermSockets(cfg, s, h, x, q, z, g, y);
    }
    forall conn | conn in z.high ensures HighOk(z, conn) {
      assert HighOk(s, conn);
      if conn.src == x { assert Reconnected(s.clock, z.clock, s.peers[x].rpcs[conn.dst], q.rpcs[conn.dst]); }
    }
  }
}
