// The network half of the invariant when a candidate asks for votes and when it
// wins and greets its followers.
module RaftNetElect {
  import opened Wrappers
  import opened Quorum
  import opened RaftPeer
  import opened RaftSystem
  import opened RaftInvariant
  import opened RaftLogs
  import opened RaftCore
  import opened RaftCoreLeader
  import opened RaftNetTerm

  // ---------- Asking for votes ----------

  // Every socket of the candidate p, none of them busy, gets the same new request.
  ghost predicate AsksStep(cfg: Config, s: System, x: PeerId, q: Peer, z: System) {
    && x in s.peers
    && var p := s.peers[x];
    && p.role == Candidate
    && (forall f {:trigger p.rpcs[f]} :: f in p.rpcs ==> p.rpcs[f].pending.None?)
    && q == p.(rpcs := SendAll(p.rpcs, VoteRequest(p.currentTerm, |p.log|, LastTerm(p.log))))
    && z == System(s.peers[x := q], s.sent + PendingPackets(x, q), s.answers, s.high, s.clock)
  }

  lemma NewPacket(x: PeerId, q: Peer, pk: Packet)
    requires pk in PendingPackets(x, q)
    ensures pk.conn.src == x && pk.conn.dst in q.rpcs && q.rpcs[pk.conn.dst].pending == Some(pk.req)
    ensures pk.conn.ident == q.rpcs[pk.conn.dst].ident && pk.id == q.rpcs[pk.conn.dst].lastId
  {
  }

  lemma AsksPacket(cfg: Config, s: System, h: History, x: PeerId, q: Peer, z: System, pk: Packet)
    requires AsksStep(cfg, s, x, q, z) && SocketsOk(cfg, s, h, x, s.peers[x])
    requires s.peers.Keys == cfg.Members()
    requires pk in s.sent ==> PacketOk(cfg, s, h, pk)
    requires pk in z.sent
    ensures PacketOk(cfg, z, h, pk)
  {
    if pk !in s.sent {
      NewPacket(x, q, pk);
      assert q.rpcs[pk.conn.dst] == Send(s.peers[x].rpcs[pk.conn.dst], pk.req);
    } else if pk.conn.src == x {
      assert q.rpcs[pk.conn.dst].lastId == s.peers[x].rpcs[pk.conn.dst].lastId + 1;
    }
  }

  lemma AsksPair(cfg: Config, s: System, h: History, x: PeerId, q: Peer, z: System, a: Packet, b: Packet)
    requires AsksStep(cfg, s, x, q, z) && a in z.sent && b in z.sent
    requires a in s.sent ==> PacketOk(cfg, s, h, a)
    requires b in s.sent ==> PacketOk(cfg, s, h, b)
    requires a in s.sent && b in s.sent ==> PairOk(s, h, a, b)
    ensures PairOk(z, h, a, b)
  {
    if a !in s.sent { NewPacket(x, q, a); }
    if b !in s.sent { NewPacket(x, q, b); }
  }

  lemma AsksReply(cfg: Config, s: System, h: History, x: PeerId, q: Peer, z: System, a: Answer)
    requires AsksStep(cfg, s, x, q, z) && ReplyOk(s, h, a)
    ensures ReplyOk(z, h, a)
  {
    AnswerGrows(s, h, z, h, a);
  }

  lemma AsksSockets(cfg: Config, s: System, h: History, x: PeerId, q: Peer, z: System, y: PeerId)
    requires AsksStep(cfg, s, x, q, z) && y in s.peers && SocketsOk(cfg, s, h, y, s.peers[y])
    ensures SocketsOk(cfg, z, h, y, z.peers[y])
  {
    var l := z.peers[y];
    if y == x {
      forall f | f in q.rpcs
        ensures Packet(Conn(x, f, q.rpcs[f].ident), q.rpcs[f].lastId, q.rpcs[f].pending.value) in PendingPackets(x, q)
      {
      }
    } else if l.role == Leader {
      forall f | f in Others(cfg, y) ensures KnowsOk(z, h, y, l, f) {
        assert KnowsOk(s, h, y, l, f);
        AsksFollower(cfg, s, h, x, q, z, y, f);
      }
    }
  }

  lemma AsksFollower(cfg: Config, s: System, h: History, x: PeerId, q: Peer, z: System, y: PeerId, f: PeerId)
    requires AsksStep(cfg, s, x, q, z) && y in s.peers && y != x && KnowsOk(s, h, y, s.peers[y], f)
    ensures KnowsOk(z, h, y, s.peers[y], f)
  {
    var l := s.peers[y];
    forall b | Leftover(z, y, f, l.currentTerm, b) && l.rpcs[f].pending.None?
               && z.peers[f].currentTerm <= l.currentTerm
      ensures Before(z, h, b, l.nextIndex[f] - 1)
    {
      if b !in s.sent { NewPacket(x, q, b); }
      assert Leftover(s, y, f, l.currentTerm, b);
    }
  }

  lemma AsksNet(cfg: Config, s: System, h: History, x: PeerId, q: Peer, z: System)
    requires CoreOk(cfg, s.peers, h) && NetOk(cfg, s, h) && AsksStep(cfg, s, x, q, z)
    ensures NetOk(cfg, z, h)
  {
    assert SocketsOk(cfg, s, h, x, s.peers[x]);
    forall pk | pk in z.sent ensures PacketOk(cfg, z, h, pk) {
      if pk in s.sent { assert PacketOk(cfg, s, h, pk); }
      AsksPacket(cfg, s, h, x, q, z, pk);
    }
    forall a, b | a in z.sent && b in z.sent ensures PairOk(z, h, a, b) {
      if a in s.sent { assert PacketOk(cfg, s, h, a); }
      if b in s.sent { assert PacketOk(cfg, s, h, b); }
      if a in s.sent && b in s.sent { assert PairOk(s, h, a, b); }
      AsksPair(cfg, s, h, x, q, z, a, b);
    }
    forall a | a in z.answers ensures ReplyOk(z, h, a) {
      assert ReplyOk(s, h, a);
      AsksReply(cfg, s, h, x, q, z, a);
    }
    forall y | y in z.peers ensures SocketsOk(cfg, z, h, y, z.peers[y]) {
      assert SocketsOk(cfg, s, h, y, s.peers[y]);
      AsksSockets(cfg, s, h, x, q, z, y);
    }
    forall conn | conn in z.high ensures HighOk(z, conn) { assert HighOk(s, conn); }
  }

  // ---------- Winning ----------

  // The winner's sockets: free ones keep their connection, busy ones get a new
  // one, and the first request of the leadership goes out on all of them.
  ghost predicate ElectStep(cfg: Config, s: System, h: History, x: PeerId, q: Peer, z: System, g: History) {
    && x in s.peers && Elects(s.peers[x], q)
    && var p := s.peers[x];
    && p.currentTerm !in h.terms && g == WithTerm(h, x, p) && HistoryGrows(h, g)
    && p.commitIndex <= |p.log| && Committed(cfg, g, p.log[..p.commitIndex], p.currentTerm)
    && z == System(s.peers[x := q], s.sent + PendingPackets(x, q), s.answers, s.high, z.clock)
    && z.clock >= s.clock
    && q.cache == p.cache
    && q.rpcs.Keys == p.rpcs.Keys
    && (forall f {:trigger q.rpcs[f]} :: f in q.rpcs ==> GreetOk(s.clock, z.clock, p, q, f))
    && q.nextIndex.Keys == Others(cfg, x) && q.matchIndex.Keys == Others(cfg, x)
    && q.matchTerm.Keys == Others(cfg, x)
    && (forall f {:trigger q.nextIndex[f]} :: f in Others(cfg, x) ==>
          q.nextIndex[f] == |p.log| + 1 && q.matchIndex[f] == 0 && q.matchTerm[f] == 0)
  }

  predicate GreetOk(clock: nat, clock': nat, p: Peer, q: Peer, f: PeerId)
    requires f in q.rpcs
  {
    && f in p.rpcs
    && q.rpcs[f].pending == Some(AppendRequest(p.currentTerm, |p.log|, LastTerm(p.log), p.commitIndex, []))
    && q.rpcs[f].lastId > 0
    && ((q.rpcs[f].ident == p.rpcs[f].ident && q.rpcs[f].lastId == p.rpcs[f].lastId + 1)
        || clock <= q.rpcs[f].ident < clock')
  }

  lemma ElectPacket(cfg: Config, s: System, h: History, x: PeerId, q: Peer, z: System, g: History, pk: Packet)
    requires HistoryOk(cfg, h) && ElectStep(cfg, s, h, x, q, z, g) && s.peers.Keys == cfg.Members()
    requires SocketsOk(cfg, s, h, x, s.peers[x]) && pk in z.sent
    requires pk in s.sent ==> PacketOk(cfg, s, h, pk)
    ensures PacketOk(cfg, z, g, pk)
  {
    if pk in s.sent {
      ElectOldPacket(cfg, s, h, x, q, z, g, pk);
    } else {
      NewPacket(x, q, pk);
      ElectNewPacket(cfg, s, h, x, q, z, g, pk);
    }
  }

  lemma ElectOldPacket(cfg: Config, s: System, h: History, x: PeerId, q: Peer, z: System, g: History, pk: Packet)
    requires ElectStep(cfg, s, h, x, q, z, g) && PacketOk(cfg, s, h, pk) && pk in s.sent
    ensures PacketOk(cfg, z, g, pk)
  {
    if pk.conn.src == x { assert GreetOk(s.clock, z.clock, s.peers[x], q, pk.conn.dst); }
    if pk.req.AppendRequest? { AppendPacketGrows(cfg, h, g, pk); }
  }

  lemma ElectNewWire(cfg: Config, s: System, h: History, x: PeerId, q: Peer, z: System, g: History, pk: Packet)
    requires ElectStep(cfg, s, h, x, q, z, g) && s.peers.Keys == cfg.Members() && SocketsOk(cfg, s, h, x, s.peers[x])
    requires pk.conn.src == x && pk.conn.dst in q.rpcs && q.rpcs[pk.conn.dst].pending == Some(pk.req)
    requires pk.conn.ident == q.rpcs[pk.conn.dst].ident && pk.id == q.rpcs[pk.conn.dst].lastId
    ensures WireOk(cfg, z, pk) && pk.req.AppendRequest? && LeaderConnOk(z, pk)
  {
    assert GreetOk(s.clock, z.clock, s.peers[x], q, pk.conn.dst);
  }

  lemma ElectNewPacket(cfg: Config, s: System, h: History, x: PeerId, q: Peer, z: System, g: History, pk: Packet)
    requires HistoryOk(cfg, h) && ElectStep(cfg, s, h, x, q, z, g) && s.peers.Keys == cfg.Members()
    requires SocketsOk(cfg, s, h, x, s.peers[x])
    requires pk.conn.src == x && pk.conn.dst in q.rpcs && q.rpcs[pk.conn.dst].pending == Some(pk.req)
    requires pk.conn.ident == q.rpcs[pk.conn.dst].ident && pk.id == q.rpcs[pk.conn.dst].lastId
    ensures PacketOk(cfg, z, g, pk)
  {
    var p, f := s.peers[x], pk.conn.dst;
    ElectNewWire(cfg, s, h, x, q, z, g, pk);
    assert GreetOk(s.clock, z.clock, p, q, f);
    assert Key(f, p.currentTerm) in h.acc ==> AccOk(cfg, h, Key(f, p.currentTerm), h.acc[Key(f, p.currentTerm)]);
    assert AppendPacketOk(cfg, g, pk);
    assert ProbeOk(z, g, pk);
  }

  lemma ElectPair(cfg: Config, s: System, h: History, x: PeerId, q: Peer, z: System, g: History, a: Packet, b: Packet)
    requires ElectStep(cfg, s, h, x, q, z, g) && a in z.sent && b in z.sent
    requires a in s.sent ==> PacketOk(cfg, s, h, a)
    requires b in s.sent ==> PacketOk(cfg, s, h, b)
    requires a in s.sent && b in s.sent ==> PairOk(s, h, a, b)
    ensures PairOk(z, g, a, b)
  {
    ElectAlike(cfg, s, h, x, q, z, g, a, b);
    ElectOrder(cfg, s, h, x, q, z, g, a, b);
  }

  lemma ElectAlike(cfg: Config, s: System, h: History, x: PeerId, q: Peer, z: System, g: History, a: Packet, b: Packet)
    requires ElectStep(cfg, s, h, x, q, z, g) && a in z.sent && b in z.sent
    requires a in s.sent ==> PacketOk(cfg, s, h, a)
    requires b in s.sent ==> PacketOk(cfg, s, h, b)
    requires a in s.sent && b in s.sent ==> PairOk(s, h, a, b)
    ensures SameId(a, b) && SameConn(a, b)
  {
    if a !in s.sent { NewPacket(x, q, a); assert GreetOk(s.clock, z.clock, s.peers[x], q, a.conn.dst); }
    if b !in s.sent { NewPacket(x, q, b); assert GreetOk(s.clock, z.clock, s.peers[x], q, b.conn.dst); }
  }

  // No request of the new term is older than the first one.
  lemma ElectOrder(cfg: Config, s: System, h: History, x: PeerId, q: Peer, z: System, g: History, a: Packet, b: Packet)
    requires ElectStep(cfg, s, h, x, q, z, g) && a in z.sent && b in z.sent
    requires a in s.sent ==> PacketOk(cfg, s, h, a)
    requires b in s.sent ==> PacketOk(cfg, s, h, b)
    requires a in s.sent && b in s.sent ==> PairOk(s, h, a, b)
    ensures a.req.AppendRequest? && b.req.AppendRequest? ==> OrderOk(z, g, a, b)
  {
    if a !in s.sent { NewPacket(x, q, a); assert GreetOk(s.clock, z.clock, s.peers[x], q, a.conn.dst); }
    if b !in s.sent { NewPacket(x, q, b); assert GreetOk(s.clock, z.clock, s.peers[x], q, b.conn.dst); }
  }

  lemma ElectReply(cfg: Config, s: System, h: History, x: PeerId, q: Peer, z: System, g: History, a: Answer)
    requires ElectStep(cfg, s, h, x, q, z, g) && ReplyOk(s, h, a)
    requires a.conn in s.high ==> HighOk(s, a.conn)
    requires RpcsOk(cfg, s, a.conn.src, s.peers[a.conn.src])
    requires LeadingOk(cfg, h, a.conn.src, s.peers[a.conn.src])
    ensures ReplyOk(z, g, a)
  {
    AnswerGrows(s, h, z, g, a);
    if a.conn.src == x {
      if a.conn.dst in q.rpcs { assert GreetOk(s.clock, z.clock, s.peers[x], q, a.conn.dst); }
      assert !Awaited(q, a);
    }
  }

  lemma ElectSockets(cfg: Config, s: System, h: History, x: PeerId, q: Peer, z: System, g: History, y: PeerId)
    requires HistoryOk(cfg, h) && ElectStep(cfg, s, h, x, q, z, g) && s.peers.Keys == cfg.Members()
    requires y in s.peers && SocketsOk(cfg, s, h, y, s.peers[y]) && LeadingOk(cfg, h, y, s.peers[y])
    ensures SocketsOk(cfg, z, g, y, z.peers[y])
  {
    if y == x {
      ElectOwnSockets(cfg, s, h, x, q, z, g);
    } else if s.peers[y].role == Leader {
      forall f | f in Others(cfg, y) ensures KnowsOk(z, g, y, s.peers[y], f) {
        assert KnowsOk(s, h, y, s.peers[y], f);
        ElectFollower(cfg, s, h, x, q, z, g, y, f);
      }
    }
  }

  // Nothing is known of a follower yet.
  lemma ElectKnows(cfg: Config, s: System, h: History, x: PeerId, q: Peer, z: System, g: History, f: PeerId)
    requires HistoryOk(cfg, h) && ElectStep(cfg, s, h, x, q, z, g) && s.peers.Keys == cfg.Members()
    requires SocketsOk(cfg, s, h, x, s.peers[x]) && f in Others(cfg, x)
    ensures KnowsOk(z, g, x, q, f)
  {
    var p := s.peers[x];
    assert GreetOk(s.clock, z.clock, p, q, f);
    assert q.nextIndex[f] == |p.log| + 1;
    assert Key(f, p.currentTerm) in h.acc ==> AccOk(cfg, h, Key(f, p.currentTerm), h.acc[Key(f, p.currentTerm)]);
  }

  lemma ElectOwnSockets(cfg: Config, s: System, h: History, x: PeerId, q: Peer, z: System, g: History)
    requires HistoryOk(cfg, h) && ElectStep(cfg, s, h, x, q, z, g) && s.peers.Keys == cfg.Members()
    requires SocketsOk(cfg, s, h, x, s.peers[x])
    ensures SocketsOk(cfg, z, g, x, q)
  {
    var p := s.peers[x];
    forall f | f in q.rpcs
      ensures q.rpcs[f].ident < z.clock && q.rpcs[f].pending.Some? && q.rpcs[f].pending.value.AppendRequest?
      ensures q.rpcs[f].pending.value.term == q.currentTerm
      ensures Packet(Conn(x, f, q.rpcs[f].ident), q.rpcs[f].lastId, q.rpcs[f].pending.value) in PendingPackets(x, q)
    {
      assert GreetOk(s.clock, z.clock, p, q, f);
    }
    assert RpcsOk(cfg, z, x, q);
    forall f | f in Others(cfg, x) ensures KnowsOk(z, g, x, q, f) { ElectKnows(cfg, s, h, x, q, z, g, f); }
  }

  lemma ElectFollower(cfg: Config, s: System, h: History, x: PeerId, q: Peer, z: System, g: History, y: PeerId, f: PeerId)
    requires ElectStep(cfg, s, h, x, q, z, g) && y in s.peers && y != x && KnowsOk(s, h, y, s.peers[y], f)
    ensures KnowsOk(z, g, y, s.peers[y], f)
  {
    var l := s.peers[y];
    forall b | Leftover(z, y, f, l.currentTerm, b) && l.rpcs[f].pending.None?
               && z.peers[f].currentTerm <= l.currentTerm
      ensures Before(z, g, b, l.nextIndex[f] - 1)
    {
      if b !in s.sent { NewPacket(x, q, b); }
      assert Leftover(s, y, f, l.currentTerm, b);
      assert Before(s, h, b, l.nextIndex[f] - 1);
    }
  }

  lemma ElectPackets(cfg: Config, s: System, h: History, x: PeerId, q: Peer, z: System, g: History)
    requires CoreOk(cfg, s.peers, h) && NetOk(cfg, s, h) && ElectStep(cfg, s, h, x, q, z, g)
    ensures PacketsOk(cfg, z, g)
  {
    assert SocketsOk(cfg, s, h, x, s.peers[x]);
    forall pk | pk in z.sent ensures PacketOk(cfg, z, g, pk) {
      if pk in s.sent { assert PacketOk(cfg, s, h, pk); }
      ElectPacket(cfg, s, h, x, q, z, g, pk);
    }
    forall a, b | a in z.sent && b in z.sent ensures PairOk(z, g, a, b) {
      if a in s.sent { assert PacketOk(cfg, s, h, a); }
      if b in s.sent { assert PacketOk(cfg, s, h, b); }
      if a in s.sent && b in s.sent { assert PairOk(s, h, a, b); }
      ElectPair(cfg, s, h, x, q, z, g, a, b);
    }
  }

  lemma ElectReplies(cfg: Config, s: System, h: History, x: PeerId, q: Peer, z: System, g: History)
    requires CoreOk(cfg, s.peers, h) && NetOk(cfg, s, h) && ElectStep(cfg, s, h, x, q, z, g)
    ensures AnswersOk(z, g)
  {
    assert SocketsOk(cfg, s, h, x, s.peers[x]);
    forall a | a in z.answers ensures ReplyOk(z, g, a) {
      assert ReplyOk(s, h, a);
      var l := a.conn.src;
      assert SocketsOk(cfg, s, h, l, s.peers[l]) && PeerOk(cfg, h, l, s.peers[l]);
      assert a.conn in s.high ==> HighOk(s, a.conn);
      ElectReply(cfg, s, h, x, q, z, g, a);
    }
  }

  lemma ElectNet(cfg: Config, s: System, h: History, x: PeerId, q: Peer, z: System, g: History)
    requires CoreOk(cfg, s.peers, h) && NetOk(cfg, s, h) && ElectStep(cfg, s, h, x, q, z, g)
    ensures NetOk(cfg, z, g)
  {
    assert SocketsOk(cfg, s, h, x, s.peers[x]);
    ElectPackets(cfg, s, h, x, q, z, g);
    ElectReplies(cfg, s, h, x, q, z, g);
    forall y | y in z.peers ensures SocketsOk(cfg, z, g, y, z.peers[y]) {
      assert SocketsOk(cfg, s, h, y, s.peers[y]) && PeerOk(cfg, h, y, s.peers[y]);
      ElectSockets(cfg, s, h, x, q, z, g, y);
    }
    forall conn | conn in z.high ensures HighOk(z, conn) {
      assert HighOk(s, conn);
      ElectHigh(cfg, s, h, x, q, z, g, conn);
    }
  }

  lemma ElectHigh(cfg: Config, s: System, h: History, x: PeerId, q: Peer, z: System, g: History, conn: Conn)
    requires ElectStep(cfg, s, h, x, q, z, g) && conn in s.high && HighOk(s, conn)
    ensures HighOk(z, conn)
  {
    if conn.src == x { assert GreetOk(s.clock, z.clock, s.peers[x], q, conn.dst); }
  }
}
