// The network half of the invariant under the elementary changes: traffic, a
// change nobody else can see, and a new term or vote.
module RaftNet {
  import opened Wrappers
  import opened Quorum
  import opened RaftPeer
  import opened RaftSystem
  import opened RaftInvariant
  import opened RaftLogs
  import opened RaftCore

  // ---------- Traffic ----------

  lemma RaiseNet(cfg: Config, s: System, h: History, pk: Packet)
    requires NetOk(cfg, s, h) && Deliverable(s, pk)
    ensures NetOk(cfg, s.(high := s.high[pk.conn := pk.id]), h)
  {
    var z := s.(high := s.high[pk.conn := pk.id]);
    assert PacketOk(cfg, s, h, pk);
    RaisePackets(cfg, s, h, pk);
    forall a | a in z.answers ensures ReplyOk(z, h, a) {
      assert ReplyOk(s, h, a);
      var b :| b in s.sent && AnswerTo(h, a, b);
      assert b in z.sent && AnswerTo(h, a, b);
    }
    forall x | x in z.peers ensures SocketsOk(cfg, z, h, x, z.peers[x]) {
      assert SocketsOk(cfg, s, h, x, s.peers[x]);
      RaiseLeader(cfg, s, h, pk, x);
    }
    forall conn | conn in z.high ensures HighOk(z, conn) {
      if conn != pk.conn { assert HighOk(s, conn); }
    }
  }

  lemma RaisePackets(cfg: Config, s: System, h: History, pk: Packet)
    requires PacketsOk(cfg, s, h) && Deliverable(s, pk)
    ensures PacketsOk(cfg, s.(high := s.high[pk.conn := pk.id]), h)
  {
    var z := s.(high := s.high[pk.conn := pk.id]);
    assert PacketOk(cfg, s, h, pk);
    forall b | b in z.sent ensures PacketOk(cfg, z, h, b) { assert PacketOk(cfg, s, h, b); }
    forall a, b | a in z.sent && b in z.sent ensures PairOk(z, h, a, b) { assert PairOk(s, h, a, b); }
  }

  lemma RaiseLeader(cfg: Config, s: System, h: History, pk: Packet, x: PeerId)
    requires x in s.peers && LeaderOk(cfg, s, h, x, s.peers[x]) && Deliverable(s, pk)
    ensures LeaderOk(cfg, s.(high := s.high[pk.conn := pk.id]), h, x, s.peers[x])
  {
    var z, l := s.(high := s.high[pk.conn := pk.id]), s.peers[x];
    if l.role == Leader {
      forall f | f in Others(cfg, x) ensures KnowsOk(z, h, x, l, f) {
        assert KnowsOk(s, h, x, l, f);
        forall b | Leftover(z, x, f, l.currentTerm, b) && l.rpcs[f].pending.None?
                   && z.peers[f].currentTerm <= l.currentTerm
          ensures Before(z, h, b, l.nextIndex[f] - 1)
        {
          assert Leftover(s, x, f, l.currentTerm, b);
        }
      }
    }
  }

  lemma AnswerNet(cfg: Config, s: System, h: History, a: Answer)
    requires NetOk(cfg, s, h) && ReplyOk(s, h, a)
    ensures NetOk(cfg, s.(answers := s.answers + {a}), h)
  {
    var z := s.(answers := s.answers + {a});
    forall b | b in z.sent ensures PacketOk(cfg, z, h, b) { assert PacketOk(cfg, s, h, b); }
    forall b, c | b in z.sent && c in z.sent ensures PairOk(z, h, b, c) { assert PairOk(s, h, b, c); }
    forall b | b in z.answers ensures ReplyOk(z, h, b) {
      assert ReplyOk(s, h, b);
      var pk :| pk in s.sent && AnswerTo(h, b, pk);
      assert pk in z.sent && AnswerTo(h, b, pk);
    }
    forall x | x in z.peers ensures SocketsOk(cfg, z, h, x, z.peers[x]) {
      assert SocketsOk(cfg, s, h, x, s.peers[x]);
      SameLeader(cfg, s, h, z, x);
    }
    forall conn | conn in z.high ensures HighOk(z, conn) { assert HighOk(s, conn); }
  }

  // A leader's knowledge does not depend on answers or the clock.
  lemma SameLeader(cfg: Config, s: System, h: History, z: System, x: PeerId)
    requires x in s.peers && LeaderOk(cfg, s, h, x, s.peers[x])
    requires z.peers == s.peers && z.sent == s.sent && z.high == s.high
    ensures LeaderOk(cfg, z, h, x, s.peers[x])
  {
    var l := s.peers[x];
    if l.role == Leader {
      forall f | f in Others(cfg, x) ensures KnowsOk(z, h, x, l, f) {
        assert KnowsOk(s, h, x, l, f);
        forall b | Leftover(z, x, f, l.currentTerm, b) && l.rpcs[f].pending.None?
                   && z.peers[f].currentTerm <= l.currentTerm
          ensures Before(z, h, b, l.nextIndex[f] - 1)
        {
          assert Leftover(s, x, f, l.currentTerm, b);
        }
      }
    }
  }

  lemma TickNet(cfg: Config, s: System, h: History)
    requires NetOk(cfg, s, h)
    ensures NetOk(cfg, s.(clock := s.clock + 1), h)
  {
    var z := s.(clock := s.clock + 1);
    forall b | b in z.sent ensures PacketOk(cfg, z, h, b) { assert PacketOk(cfg, s, h, b); }
    forall b, c | b in z.sent && c in z.sent ensures PairOk(z, h, b, c) { assert PairOk(s, h, b, c); }
    forall b | b in z.answers ensures ReplyOk(z, h, b) {
      assert ReplyOk(s, h, b);
      var pk :| pk in s.sent && AnswerTo(h, b, pk);
      assert pk in z.sent && AnswerTo(h, b, pk);
    }
    forall x | x in z.peers ensures SocketsOk(cfg, z, h, x, z.peers[x]) {
      assert SocketsOk(cfg, s, h, x, s.peers[x]);
      SameLeader(cfg, s, h, z, x);
    }
    forall conn | conn in z.high ensures HighOk(z, conn) { assert HighOk(s, conn); }
  }

  // ---------- Changes the network does not see ----------

  // Only pending requests of a candidate may be dropped; commitment, votes
  // counted and the like may change at will.
  predicate Unseen(p: Peer, q: Peer) {
    && q.role == p.role && q.currentTerm == p.currentTerm && q.log == p.log
    && q.nextIndex == p.nextIndex && q.matchIndex == p.matchIndex && q.matchTerm == p.matchTerm
    && q.rpcs.Keys == p.rpcs.Keys
    && (forall f :: f in p.rpcs ==>
          q.rpcs[f] == p.rpcs[f] || (p.role == Candidate && q.rpcs[f] == p.rpcs[f].(pending := None)))
  }

  lemma UnseenNet(cfg: Config, s: System, h: History, x: PeerId, q: Peer)
    requires NetOk(cfg, s, h) && x in s.peers && Unseen(s.peers[x], q) && CacheOk(s, x, q)
    ensures NetOk(cfg, s.(peers := s.peers[x := q]), h)
  {
    var z := s.(peers := s.peers[x := q]);
    forall b | b in z.sent ensures PacketOk(cfg, z, h, b) {
      assert PacketOk(cfg, s, h, b);
      UnseenPacket(cfg, s, h, x, q, b);
    }
    forall b, c | b in z.sent && c in z.sent ensures PairOk(z, h, b, c) {
      assert PairOk(s, h, b, c);
      UnseenPair(s, h, x, q, b, c);
    }
    forall b | b in z.answers ensures ReplyOk(z, h, b) {
      assert ReplyOk(s, h, b);
      UnseenReply(s, h, x, q, b);
    }
    forall y | y in z.peers ensures SocketsOk(cfg, z, h, y, z.peers[y]) {
      assert SocketsOk(cfg, s, h, y, s.peers[y]);
      UnseenLeader(cfg, s, h, x, q, y);
      UnseenRpcs(cfg, s, x, q, y);
    }
    forall conn | conn in z.high ensures HighOk(z, conn) {
      assert HighOk(s, conn);
      UnseenHigh(s, x, q, conn);
    }
  }

  lemma UnseenPacket(cfg: Config, s: System, h: History, x: PeerId, q: Peer, b: Packet)
    requires x in s.peers && Unseen(s.peers[x], q) && PacketOk(cfg, s, h, b)
    ensures PacketOk(cfg, s.(peers := s.peers[x := q]), h, b)
  {
  }

  lemma UnseenPair(s: System, h: History, x: PeerId, q: Peer, b: Packet, c: Packet)
    requires x in s.peers && Unseen(s.peers[x], q) && PairOk(s, h, b, c)
    ensures PairOk(s.(peers := s.peers[x := q]), h, b, c)
  {
  }

  lemma UnseenReply(s: System, h: History, x: PeerId, q: Peer, b: Answer)
    requires x in s.peers && Unseen(s.peers[x], q) && ReplyOk(s, h, b)
    ensures ReplyOk(s.(peers := s.peers[x := q]), h, b)
  {
    var z := s.(peers := s.peers[x := q]);
    var pk :| pk in s.sent && AnswerTo(h, b, pk);
    assert pk in z.sent && AnswerTo(h, b, pk);
    assert AnswerOk(z, h, b);
  }

  lemma UnseenRpcs(cfg: Config, s: System, x: PeerId, q: Peer, y: PeerId)
    requires x in s.peers && y in s.peers && Unseen(s.peers[x], q)
    requires RpcsOk(cfg, s, y, s.peers[y]) && CacheOk(s, y, s.peers[y]) && CacheOk(s, x, q)
    ensures var z := s.(peers := s.peers[x := q]); RpcsOk(cfg, z, y, z.peers[y]) && CacheOk(z, y, z.peers[y])
  {
  }

  lemma UnseenHigh(s: System, x: PeerId, q: Peer, conn: Conn)
    requires x in s.peers && Unseen(s.peers[x], q) && conn in s.high && HighOk(s, conn)
    ensures HighOk(s.(peers := s.peers[x := q]), conn)
  {
  }

  lemma UnseenLeader(cfg: Config, s: System, h: History, x: PeerId, q: Peer, y: PeerId)
    requires x in s.peers && y in s.peers && Unseen(s.peers[x], q) && LeaderOk(cfg, s, h, y, s.peers[y])
    ensures var z := s.(peers := s.peers[x := q]); LeaderOk(cfg, z, h, y, z.peers[y])
  {
    var z := s.(peers := s.peers[x := q]);
    var k, l := s.peers[y], z.peers[y];
    if l.role == Leader {
      forall f | f in Others(cfg, y) ensures KnowsOk(z, h, y, l, f) {
        assert KnowsOk(s, h, y, k, f);
        forall b | Leftover(z, y, f, l.currentTerm, b) && l.rpcs[f].pending.None?
                   && z.peers[f].currentTerm <= l.currentTerm
          ensures Before(z, h, b, l.nextIndex[f] - 1)
        {
          assert Leftover(s, y, f, k.currentTerm, b);
        }
      }
    }
  }
}
