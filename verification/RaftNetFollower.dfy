// The network half of the invariant when a follower accepts a request to append
// and when its leader learns of the acceptance or the refusal.
module RaftNetFollower {
  import opened Wrappers
  import opened Quorum
  import opened RaftPeer
  import opened RaftSystem
  import opened RaftInvariant
  import opened RaftLogs
  import opened RaftCore
  import opened RaftCoreFollower
  import opened RaftNetTerm

  // ---------- Accepting ----------

  // x accepts the packet it was just handed.
  ghost predicate AcceptStep(cfg: Config, s: System, h: History, x: PeerId, pk: Packet, q: Peer, z: System, g: History) {
    && x in s.peers && pk in s.sent && pk.conn.dst == x && pk.req.AppendRequest? && HighOf(s, pk.conn) == pk.id
    && var p := s.peers[x];
    && AcceptsFrom(cfg, h, x, p, pk.req, q) && q.log == h.terms[pk.req.term].log[..pk.req.LastIndex()]
    && Agree(p.log, h.terms[pk.req.term].log, pk.req.prevIndex)
    && g == WithAcc(h, x, p.currentTerm, |q.log|) && HistoryGrows(h, g)
    && z == s.(peers := s.peers[x := q])
    && q.rpcs == p.rpcs && q.cache == p.cache
  }

  // A request of the same leadership that may still arrive repeats the accepted
  // one or starts where it ended.
  lemma Successor(cfg: Config, s: System, h: History, x: PeerId, pk: Packet, q: Peer, z: System, g: History, b: Packet)
    requires AcceptStep(cfg, s, h, x, pk, q, z, g)
    requires b in s.sent && b.req.AppendRequest? && b.req.term == pk.req.term && b.conn == pk.conn && pk.id <= b.id
    requires PairOk(s, h, pk, b)
    ensures b.req == pk.req || (Synced(h, x, s.peers[x]) && b.req.prevIndex == pk.req.LastIndex())
  {
    if pk.id < b.id {
      assert OrderOk(s, h, pk, b);
      assert Deliverable(s, pk);
      assert Before(s, h, pk, b.req.prevIndex);
    }
  }

  lemma AcceptProbe(cfg: Config, s: System, h: History, x: PeerId, pk: Packet, q: Peer, z: System, g: History, b: Packet)
    requires AcceptStep(cfg, s, h, x, pk, q, z, g)
    requires PacketOk(cfg, s, h, b) && PacketOk(cfg, s, h, pk) && b in s.sent && b.req.AppendRequest?
    requires PairOk(s, h, pk, b)
    ensures ProbeOk(z, g, b)
  {
    if b.conn.dst == x && b.req.term == q.currentTerm && Deliverable(s, b) {
      assert b.conn == pk.conn;
      Successor(cfg, s, h, x, pk, q, z, g, b);
    }
  }

  lemma AcceptPacket(cfg: Config, s: System, h: History, x: PeerId, pk: Packet, q: Peer, z: System, g: History, b: Packet)
    requires AcceptStep(cfg, s, h, x, pk, q, z, g)
    requires PacketOk(cfg, s, h, b) && PacketOk(cfg, s, h, pk) && b in s.sent
    requires PairOk(s, h, pk, b)
    ensures PacketOk(cfg, z, g, b)
  {
    if b.req.AppendRequest? {
      AppendPacketGrows(cfg, h, g, b);
      AcceptProbe(cfg, s, h, x, pk, q, z, g, b);
    }
  }

  lemma AcceptPair(cfg: Config, s: System, h: History, x: PeerId, pk: Packet, q: Peer, z: System, g: History, a: Packet, b: Packet)
    requires AcceptStep(cfg, s, h, x, pk, q, z, g)
    requires a in s.sent && b in s.sent && PacketOk(cfg, s, h, a) && PacketOk(cfg, s, h, pk)
    requires PairOk(s, h, a, b) && PairOk(s, h, pk, a) && PairOk(s, h, pk, b)
    ensures PairOk(z, g, a, b)
  {
    if a.req.AppendRequest? && b.req.AppendRequest? {
      assert OrderOk(s, h, a, b);
      if a.req.term == b.req.term && a.conn == b.conn && a.id < b.id && Deliverable(s, a) {
        if a.conn.dst == x && q.currentTerm == a.req.term {
          assert a.conn == pk.conn;
          Successor(cfg, s, h, x, pk, q, z, g, a);
          Successor(cfg, s, h, x, pk, q, z, g, b);
          assert Before(s, h, a, b.req.prevIndex);
          assert Before(z, g, a, b.req.prevIndex);
        } else if s.peers[a.conn.dst].currentTerm <= a.req.term {
          assert Before(s, h, a, b.req.prevIndex);
        }
      }
    }
  }

  lemma AcceptReply(cfg: Config, s: System, h: History, x: PeerId, pk: Packet, q: Peer, z: System, g: History, a: Answer)
    requires AcceptStep(cfg, s, h, x, pk, q, z, g)
    requires ReplyOk(s, h, a) && PacketOk(cfg, s, h, pk)
    requires var l := s.peers[a.conn.src];
             RpcsOk(cfg, s, a.conn.src, l) && LeadingOk(cfg, h, a.conn.src, l)
    requires Awaited(s.peers[a.conn.src], a) ==>
               var r := s.peers[a.conn.src].rpcs[a.conn.dst];
               PairOk(s, h, pk, Packet(a.conn, a.id, r.pending.value))
    ensures ReplyOk(z, g, a)
  {
    AnswerGrows(s, h, z, g, a);
    var l := s.peers[a.conn.src];
    if Awaited(l, a) {
      assert Awaited(z.peers[a.conn.src], a);
      AcceptRefusal(cfg, s, h, x, pk, q, z, g, a);
    }
  }

  // The follower cannot have refused the pending request and now accept another
  // one of the same leadership.
  lemma AcceptRefusal(cfg: Config, s: System, h: History, x: PeerId, pk: Packet, q: Peer, z: System, g: History, a: Answer)
    requires AcceptStep(cfg, s, h, x, pk, q, z, g)
    requires ReplyOk(s, h, a) && PacketOk(cfg, s, h, pk) && Awaited(s.peers[a.conn.src], a)
    requires var l := s.peers[a.conn.src];
             RpcsOk(cfg, s, a.conn.src, l) && LeadingOk(cfg, h, a.conn.src, l)
    requires PairOk(s, h, pk, Packet(a.conn, a.id, s.peers[a.conn.src].rpcs[a.conn.dst].pending.value))
    ensures RefusalOk(z, g, a)
  {
    assert RefusalOk(s, h, a);
  }

  lemma AcceptSockets(cfg: Config, s: System, h: History, x: PeerId, pk: Packet, q: Peer, z: System, g: History, y: PeerId)
    requires AcceptStep(cfg, s, h, x, pk, q, z, g) && s.peers.Keys == cfg.Members()
    requires y in s.peers && SocketsOk(cfg, s, h, y, s.peers[y]) && LeadingOk(cfg, h, y, s.peers[y])
    requires PacketOk(cfg, s, h, pk)
    requires forall b {:trigger PairOk(s, h, pk, b)} :: b in s.sent ==> PairOk(s, h, pk, b)
    ensures SocketsOk(cfg, z, g, y, z.peers[y])
  {
    if s.peers[y].role == Leader {
      forall f | f in Others(cfg, y) ensures KnowsOk(z, g, y, z.peers[y], f) {
        assert KnowsOk(s, h, y, s.peers[y], f);
        if f == x && s.peers[y].currentTerm == q.currentTerm {
          AcceptKnown(cfg, s, h, x, pk, q, z, g, y);
        } else {
          AcceptElsewhere(cfg, s, h, x, pk, q, z, g, y, f);
        }
      }
    }
  }

  lemma AcceptKnown(cfg: Config, s: System, h: History, x: PeerId, pk: Packet, q: Peer, z: System, g: History, y: PeerId)
    requires AcceptStep(cfg, s, h, x, pk, q, z, g)
    requires y in s.peers && y != x && s.peers[y].role == Leader && LeadingOk(cfg, h, y, s.peers[y])
    requires s.peers[y].currentTerm == q.currentTerm && KnowsOk(s, h, y, s.peers[y], x)
    requires PacketOk(cfg, s, h, pk)
    requires forall b {:trigger PairOk(s, h, pk, b)} :: b in s.sent ==> PairOk(s, h, pk, b)
    ensures KnowsOk(z, g, y, s.peers[y], x)
  {
    var l := s.peers[y];
    var n := l.nextIndex[x];
    assert pk.conn.src == y;
    if l.rpcs[x].pending.None? {
      assert Leftover(s, y, x, l.currentTerm, pk);
      assert Before(s, h, pk, n - 1);
      assert n - 1 == |q.log|;
      forall b | Leftover(z, y, x, l.currentTerm, b) ensures Before(z, g, b, n - 1) {
        assert Leftover(s, y, x, l.currentTerm, b);
        assert Before(s, h, b, n - 1);
        assert PairOk(s, h, pk, b);
      }
    }
  }

  lemma AcceptElsewhere(cfg: Config, s: System, h: History, x: PeerId, pk: Packet, q: Peer, z: System, g: History, y: PeerId, f: PeerId)
    requires AcceptStep(cfg, s, h, x, pk, q, z, g)
    requires y in s.peers && s.peers[y].role == Leader && KnowsOk(s, h, y, s.peers[y], f)
    requires !(f == x && s.peers[y].currentTerm == q.currentTerm)
    ensures KnowsOk(z, g, y, z.peers[y], f)
  {
    var l := s.peers[y];
    forall b | Leftover(z, y, f, l.currentTerm, b) && l.rpcs[f].pending.None?
               && z.peers[f].currentTerm <= l.currentTerm
      ensures Before(z, g, b, l.nextIndex[f] - 1)
    {
      assert Leftover(s, y, f, l.currentTerm, b);
      assert Before(s, h, b, l.nextIndex[f] - 1);
    }
  }

  lemma AcceptPackets(cfg: Config, s: System, h: History, x: PeerId, pk: Packet, q: Peer, z: System, g: History)
    requires CoreOk(cfg, s.peers, h) && NetOk(cfg, s, h) && AcceptStep(cfg, s, h, x, pk, q, z, g)
    ensures PacketsOk(cfg, z, g)
  {
    assert PacketOk(cfg, s, h, pk);
    forall b | b in z.sent ensures PacketOk(cfg, z, g, b) {
      assert PacketOk(cfg, s, h, b) && PairOk(s, h, pk, b);
      AcceptPacket(cfg, s, h, x, pk, q, z, g, b);
    }
    forall a, b | a in z.sent && b in z.sent ensures PairOk(z, g, a, b) {
      assert PacketOk(cfg, s, h, a) && PairOk(s, h, a, b) && PairOk(s, h, pk, a) && PairOk(s, h, pk, b);
      AcceptPair(cfg, s, h, x, pk, q, z, g, a, b);
    }
  }

  lemma AcceptReplies(cfg: Config, s: System, h: History, x: PeerId, pk: Packet, q: Peer, z: System, g: History)
    requires CoreOk(cfg, s.peers, h) && NetOk(cfg, s, h) && AcceptStep(cfg, s, h, x, pk, q, z, g)
    ensures AnswersOk(z, g)
  {
    assert PacketOk(cfg, s, h, pk);
    forall a | a in z.answers ensures ReplyOk(z, g, a) {
      assert ReplyOk(s, h, a);
      var l := a.conn.src;
      assert SocketsOk(cfg, s, h, l, s.peers[l]) && PeerOk(cfg, h, l, s.peers[l]);
      if Awaited(s.peers[l], a) {
        assert PairOk(s, h, pk, Packet(a.conn, a.id, s.peers[l].rpcs[a.conn.dst].pending.value));
      }
      AcceptReply(cfg, s, h, x, pk, q, z, g, a);
    }
  }

  lemma AcceptNet(cfg: Config, s: System, h: History, x: PeerId, pk: Packet, q: Peer, z: System, g: History)
    requires CoreOk(cfg, s.peers, h) && NetOk(cfg, s, h) && AcceptStep(cfg, s, h, x, pk, q, z, g)
    ensures NetOk(cfg, z, g)
  {
    AcceptPackets(cfg, s, h, x, pk, q, z, g);
    AcceptReplies(cfg, s, h, x, pk, q, z, g);
    assert PacketOk(cfg, s, h, pk);
    forall y | y in z.peers ensures SocketsOk(cfg, z, g, y, z.peers[y]) {
      assert SocketsOk(cfg, s, h, y, s.peers[y]) && PeerOk(cfg, h, y, s.peers[y]);
      AcceptSockets(cfg, s, h, x, pk, q, z, g, y);
    }
    forall conn | conn in z.high ensures HighOk(z, conn) { assert HighOk(s, conn); }
  }

  // ---------- The leader learns the outcome ----------

  // The reply `a` resolves the pending request of leader x to f.
  ghost predicate LearnStep(cfg: Config, s: System, h: History, x: PeerId, a: Answer, q: Peer, z: System) {
    && x in s.peers && a in s.answers && a.conn.src == x && a.resp.AppendResponse?
    && var p, f := s.peers[x], a.conn.dst;
    && p.role == Leader && Awaited(p, a) && p.rpcs[f].pending.value.AppendRequest?
    && a.resp.term <= p.currentTerm
    && f in p.nextIndex && f in p.matchIndex && f in p.matchTerm
    && var r := p.rpcs[f].pending.value;
    && q.role == p.role && q.currentTerm == p.currentTerm && q.log == p.log && q.cache == p.cache
    && q.rpcs == p.rpcs[f := p.rpcs[f].(pending := None)]
    && (if a.resp.success then
          && q.nextIndex == p.nextIndex[f := r.LastIndex() + 1]
          && q.matchIndex == p.matchIndex[f := r.LastIndex()]
          && q.matchTerm == p.matchTerm[f := r.SentLastTerm()]
        else
          && q.nextIndex == p.nextIndex[f := NextIndexAfterRefusal(r.prevIndex, a.resp.conflict)]
          && q.matchIndex == p.matchIndex && q.matchTerm == p.matchTerm)
    && z == s.(peers := s.peers[x := q])
  }

  // The pending request itself, as a packet.
  function PendingPacket(p: Peer, a: Answer): Packet
    requires Awaited(p, a)
  {
    Packet(a.conn, a.id, p.rpcs[a.conn.dst].pending.value)
  }

  lemma LearnedTerm(cfg: Config, h: History, pk: Packet, log: Log)
    requires pk.req.AppendRequest? && AppendPacketOk(cfg, h, pk) && log == h.terms[pk.req.term].log
    ensures TermAt(log, pk.req.LastIndex()) == Some(pk.req.SentLastTerm())
  {
  }

  // While nothing is pending the only packet that can still arrive is the last one.
  lemma OnlyLast(cfg: Config, s: System, h: History, x: PeerId, a: Answer, b: Packet)
    requires x == a.conn.src && x in s.peers && Awaited(s.peers[x], a) && ReplyOk(s, h, a)
    requires a.conn in s.high ==> HighOk(s, a.conn)
    requires b in s.sent && PacketOk(cfg, s, h, b) && b.req.AppendRequest? && Deliverable(s, b)
    requires s.peers[x].role == Leader && b.conn.src == x && b.conn.dst == a.conn.dst
    requires b.req.term == s.peers[x].currentTerm
    ensures b == PendingPacket(s.peers[x], a)
  {
  }

  lemma LearnAccepted(cfg: Config, s: System, h: History, x: PeerId, a: Answer, q: Peer, z: System)
    requires LearnStep(cfg, s, h, x, a, q, z) && a.resp.success
    requires ReplyOk(s, h, a) && LeadingOk(cfg, h, x, s.peers[x]) && KnowsOk(s, h, x, s.peers[x], a.conn.dst)
    requires LogOk(h, a.conn.dst, s.peers[a.conn.dst]) && NoFuture(h, a.conn.dst, s.peers[a.conn.dst].currentTerm)
    requires a.conn in s.high ==> HighOk(s, a.conn)
    requires RpcsOk(cfg, s, x, s.peers[x])
    requires forall b {:trigger PacketOk(cfg, s, h, b)} :: b in s.sent ==> PacketOk(cfg, s, h, b)
    requires forall b, c {:trigger PairOk(s, h, b, c)} :: b in s.sent && c in s.sent ==> PairOk(s, h, b, c)
    ensures KnowsOk(z, h, x, q, a.conn.dst)
  {
    var p, f := s.peers[x], a.conn.dst;
    var pk := PendingPacket(p, a);
    assert pk in s.sent && PacketOk(cfg, s, h, pk);
    var c :| c in s.sent && AnswerTo(h, a, c);
    assert PairOk(s, h, c, pk);
    LearnedTerm(cfg, h, pk, p.log);
    assert MatchOk(h, q, f);
    forall b | Leftover(z, x, f, q.currentTerm, b) && z.peers[f].currentTerm <= q.currentTerm
      ensures Before(z, h, b, q.nextIndex[f] - 1)
    {
      assert PacketOk(cfg, s, h, b);
      OnlyLast(cfg, s, h, x, a, b);
    }
    assert ProbeOk(s, h, pk);
    assert FollowerOk(z, h, x, q, f);
  }

  lemma LearnRefused(cfg: Config, s: System, h: History, x: PeerId, a: Answer, q: Peer, z: System)
    requires LearnStep(cfg, s, h, x, a, q, z) && !a.resp.success
    requires ReplyOk(s, h, a) && LeadingOk(cfg, h, x, s.peers[x]) && KnowsOk(s, h, x, s.peers[x], a.conn.dst)
    requires a.conn in s.high ==> HighOk(s, a.conn)
    requires RpcsOk(cfg, s, x, s.peers[x])
    requires forall b {:trigger PacketOk(cfg, s, h, b)} :: b in s.sent ==> PacketOk(cfg, s, h, b)
    requires forall b, c {:trigger PairOk(s, h, b, c)} :: b in s.sent && c in s.sent ==> PairOk(s, h, b, c)
    ensures KnowsOk(z, h, x, q, a.conn.dst)
    ensures 1 <= q.nextIndex[a.conn.dst] < s.peers[x].nextIndex[a.conn.dst]
  {
    var p, f := s.peers[x], a.conn.dst;
    var pk := PendingPacket(p, a);
    assert pk in s.sent && PacketOk(cfg, s, h, pk);
    var c :| c in s.sent && AnswerTo(h, a, c);
    assert PairOk(s, h, c, pk);
    assert RefusalOk(s, h, a);
    forall b | Leftover(z, x, f, q.currentTerm, b) && z.peers[f].currentTerm <= q.currentTerm
      ensures Before(z, h, b, q.nextIndex[f] - 1)
    {
      assert PacketOk(cfg, s, h, b);
      OnlyLast(cfg, s, h, x, a, b);
    }
    assert FollowerOk(z, h, x, q, f);
  }

  lemma LearnElsewhere(cfg: Config, s: System, h: History, x: PeerId, a: Answer, q: Peer, z: System, y: PeerId, e: PeerId)
    requires LearnStep(cfg, s, h, x, a, q, z) && y in s.peers
    requires KnowsOk(s, h, y, s.peers[y], e) && !(y == x && e == a.conn.dst)
    ensures KnowsOk(z, h, y, z.peers[y], e)
  {
    var l := s.peers[y];
    forall b | Leftover(z, y, e, l.currentTerm, b) && l.rpcs[e].pending.None?
               && z.peers[e].currentTerm <= l.currentTerm
      ensures Before(z, h, b, l.nextIndex[e] - 1)
    {
      assert Leftover(s, y, e, l.currentTerm, b);
      assert Before(s, h, b, l.nextIndex[e] - 1);
    }
  }

  lemma LearnOwn(cfg: Config, s: System, h: History, x: PeerId, a: Answer, q: Peer, z: System)
    requires CoreOk(cfg, s.peers, h) && NetOk(cfg, s, h) && LearnStep(cfg, s, h, x, a, q, z)
    ensures KnowsOk(z, h, x, q, a.conn.dst)
    ensures !a.resp.success ==> 1 <= q.nextIndex[a.conn.dst] < s.peers[x].nextIndex[a.conn.dst]
  {
    var f := a.conn.dst;
    assert PeerOk(cfg, h, x, s.peers[x]) && SocketsOk(cfg, s, h, x, s.peers[x]);
    assert KnowsOk(s, h, x, s.peers[x], f) && ReplyOk(s, h, a) && PeerOk(cfg, h, f, s.peers[f]);
    assert a.conn in s.high ==> HighOk(s, a.conn);
    if a.resp.success { LearnAccepted(cfg, s, h, x, a, q, z); } else { LearnRefused(cfg, s, h, x, a, q, z); }
  }

  lemma LearnRpcs(cfg: Config, s: System, h: History, x: PeerId, a: Answer, q: Peer, z: System, y: PeerId)
    requires LearnStep(cfg, s, h, x, a, q, z) && y in s.peers
    requires RpcsOk(cfg, s, y, s.peers[y]) && CacheOk(s, y, s.peers[y])
    ensures RpcsOk(cfg, z, y, z.peers[y]) && CacheOk(z, y, z.peers[y])
  {
  }

  lemma LearnKnows(cfg: Config, s: System, h: History, x: PeerId, a: Answer, q: Peer, z: System, y: PeerId, e: PeerId)
    requires LearnStep(cfg, s, h, x, a, q, z) && y in s.peers && KnowsOk(s, h, y, s.peers[y], e)
    requires KnowsOk(z, h, x, q, a.conn.dst) && s.peers[y].role == Leader
    ensures KnowsOk(z, h, y, z.peers[y], e)
  {
    if !(y == x && e == a.conn.dst) { LearnElsewhere(cfg, s, h, x, a, q, z, y, e); }
  }

  lemma LearnLeader(cfg: Config, s: System, h: History, x: PeerId, a: Answer, q: Peer, z: System, y: PeerId)
    requires LearnStep(cfg, s, h, x, a, q, z) && y in s.peers && LeaderOk(cfg, s, h, y, s.peers[y])
    requires KnowsOk(z, h, x, q, a.conn.dst) && a.conn.dst in Others(cfg, x)
    ensures LeaderOk(cfg, z, h, y, z.peers[y])
  {
    if s.peers[y].role == Leader {
      forall e | e in Others(cfg, y) ensures KnowsOk(z, h, y, z.peers[y], e) {
        LearnKnows(cfg, s, h, x, a, q, z, y, e);
      }
    }
  }

  lemma LearnReply(cfg: Config, s: System, h: History, x: PeerId, a: Answer, q: Peer, z: System, b: Answer)
    requires LearnStep(cfg, s, h, x, a, q, z) && ReplyOk(s, h, b)
    ensures ReplyOk(z, h, b)
  {
    AnswerGrows(s, h, z, h, b);
    if Awaited(z.peers[b.conn.src], b) { assert Awaited(s.peers[b.conn.src], b); }
  }

  lemma LearnPacket(cfg: Config, s: System, h: History, x: PeerId, a: Answer, q: Peer, z: System, b: Packet)
    requires LearnStep(cfg, s, h, x, a, q, z) && PacketOk(cfg, s, h, b)
    ensures PacketOk(cfg, z, h, b)
  {
  }

  lemma LearnPair(cfg: Config, s: System, h: History, x: PeerId, a: Answer, q: Peer, z: System, b: Packet, c: Packet)
    requires LearnStep(cfg, s, h, x, a, q, z) && PairOk(s, h, b, c)
    ensures PairOk(z, h, b, c)
  {
  }

  lemma LearnHigh(cfg: Config, s: System, h: History, x: PeerId, a: Answer, q: Peer, z: System, conn: Conn)
    requires LearnStep(cfg, s, h, x, a, q, z) && conn in s.high && HighOk(s, conn)
    ensures HighOk(z, conn)
  {
  }

  lemma LearnNet(cfg: Config, s: System, h: History, x: PeerId, a: Answer, q: Peer, z: System)
    requires CoreOk(cfg, s.peers, h) && NetOk(cfg, s, h) && LearnStep(cfg, s, h, x, a, q, z)
    ensures NetOk(cfg, z, h)
    ensures !a.resp.success ==> 1 <= q.nextIndex[a.conn.dst] < s.peers[x].nextIndex[a.conn.dst]
  {
    LearnOwn(cfg, s, h, x, a, q, z);
    assert a.conn.dst in Others(cfg, x) by { assert SocketsOk(cfg, s, h, x, s.peers[x]); }
    forall b | b in z.sent ensures PacketOk(cfg, z, h, b) {
      assert PacketOk(cfg, s, h, b);
      LearnPacket(cfg, s, h, x, a, q, z, b);
    }
    forall b, c | b in z.sent && c in z.sent ensures PairOk(z, h, b, c) {
      assert PairOk(s, h, b, c);
      LearnPair(cfg, s, h, x, a, q, z, b, c);
    }
    forall b | b in z.answers ensures ReplyOk(z, h, b) {
      assert ReplyOk(s, h, b);
      LearnReply(cfg, s, h, x, a, q, z, b);
    }
    forall y | y in z.peers ensures SocketsOk(cfg, z, h, y, z.peers[y]) {
      assert SocketsOk(cfg, s, h, y, s.peers[y]);
      LearnRpcs(cfg, s, h, x, a, q, z, y);
      LearnLeader(cfg, s, h, x, a, q, z, y);
    }
    forall conn | conn in z.high ensures HighOk(z, conn) {
      assert HighOk(s, conn);
      LearnHigh(cfg, s, h, x, a, q, z, conn);
    }
  }
}
