// The network half of the invariant when a leader appends to its log, sends a
// request to append and learns what became of it.
module RaftNetLeader {
  import opened Wrappers
  import opened Quorum
  import opened RaftPeer
  import opened RaftSystem
  import opened RaftInvariant
  import opened RaftLogs
  import opened RaftCore
  import opened RaftCoreLeader
  import opened RaftNetTerm
  import opened RaftNetElect

  // ---------- The leader's log grows ----------

  ghost predicate GrowStep(cfg: Config, s: System, h: History, x: PeerId, q: Peer, z: System, g: History) {
    && x in s.peers && Appends(s.peers[x], q)
    && var p := s.peers[x];
    && p.currentTerm in h.terms && h.terms[p.currentTerm].leader == x && h.terms[p.currentTerm].log == p.log
    && g == WithLog(h, x, p.currentTerm, q.log) && HistoryGrows(h, g)
    && z == s.(peers := s.peers[x := q])
    && q.cache == p.cache && q.rpcs == p.rpcs
    && q.nextIndex == p.nextIndex && q.matchIndex == p.matchIndex && q.matchTerm == p.matchTerm
  }

  // An index at which the follower did not agree before, it does not agree at now.
  lemma StillDisagrees(a: Log, log: Log, log': Log, j: nat, t: nat)
    requires TermsBelow(a, t) && !Agree(a, log, j)
    requires |log'| == |log| + 1 && log == log'[..|log|] && log'[|log|].term == t
    ensures !Agree(a, log', j)
  {
    if j <= |log| {
      assert log'[..j] == log[..j];
    } else if j == |log| + 1 {
      NoAgreement(a, log', j, t);
    }
  }

  lemma GrowProbe(cfg: Config, s: System, h: History, x: PeerId, q: Peer, z: System, g: History, pk: Packet)
    requires GrowStep(cfg, s, h, x, q, z, g)
    requires pk.req.AppendRequest? && pk.req.term in h.terms && pk.conn.dst in s.peers && ProbeOk(s, h, pk)
    requires h.terms[pk.req.term].leader == pk.conn.src && pk.conn.src != pk.conn.dst
    requires LogOk(h, pk.conn.dst, s.peers[pk.conn.dst])
    ensures ProbeOk(z, g, pk)
  {
    var f, t := s.peers[pk.conn.dst], pk.req.term;
    if f.currentTerm == t && t == q.currentTerm && Deliverable(s, pk) && !Synced(h, pk.conn.dst, f) {
      StillDisagrees(f.log, s.peers[x].log, q.log, pk.req.prevIndex + 1, t);
    }
  }

  lemma GrowPacket(cfg: Config, s: System, h: History, x: PeerId, q: Peer, z: System, g: History, pk: Packet)
    requires GrowStep(cfg, s, h, x, q, z, g) && PacketOk(cfg, s, h, pk)
    requires LogOk(h, pk.conn.dst, s.peers[pk.conn.dst])
    ensures PacketOk(cfg, z, g, pk)
  {
    if pk.req.AppendRequest? {
      AppendPacketGrows(cfg, h, g, pk);
      GrowProbe(cfg, s, h, x, q, z, g, pk);
    }
  }

  lemma GrowBefore(cfg: Config, s: System, h: History, x: PeerId, q: Peer, z: System, g: History, pk: Packet, n: nat)
    requires GrowStep(cfg, s, h, x, q, z, g)
    requires pk.req.AppendRequest? && pk.req.term in h.terms && pk.conn.dst in s.peers
    requires h.terms[pk.req.term].leader == pk.conn.src && pk.conn.src != pk.conn.dst
    requires Before(s, h, pk, n) && LogOk(h, pk.conn.dst, s.peers[pk.conn.dst])
    ensures Before(z, g, pk, n)
  {
    var f, t := s.peers[pk.conn.dst], pk.req.term;
    if t == q.currentTerm && !Synced(h, pk.conn.dst, f) {
      StillDisagrees(f.log, s.peers[x].log, q.log, pk.req.prevIndex, t);
    }
  }

  lemma GrowPair(cfg: Config, s: System, h: History, x: PeerId, q: Peer, z: System, g: History, a: Packet, b: Packet)
    requires GrowStep(cfg, s, h, x, q, z, g) && PairOk(s, h, a, b)
    requires PacketOk(cfg, s, h, a) && LogOk(h, a.conn.dst, s.peers[a.conn.dst])
    ensures PairOk(z, g, a, b)
  {
    if a.req.AppendRequest? && b.req.AppendRequest? {
      assert OrderOk(s, h, a, b);
      if a.req.term == b.req.term && a.conn == b.conn && a.id < b.id
         && Deliverable(s, a) && s.peers[a.conn.dst].currentTerm <= a.req.term
      {
        GrowBefore(cfg, s, h, x, q, z, g, a, b.req.prevIndex);
      }
    }
  }

  lemma GrowReply(cfg: Config, s: System, h: History, x: PeerId, q: Peer, z: System, g: History, a: Answer)
    requires GrowStep(cfg, s, h, x, q, z, g) && ReplyOk(s, h, a)
    requires a.conn.dst in s.peers && LogOk(h, a.conn.dst, s.peers[a.conn.dst])
    requires RpcsOk(cfg, s, a.conn.src, s.peers[a.conn.src])
    requires LeadingOk(cfg, h, a.conn.src, s.peers[a.conn.src])
    ensures ReplyOk(z, g, a)
  {
    AnswerGrows(s, h, z, g, a);
    if Awaited(s.peers[a.conn.src], a) {
      assert RefusalOk(s, h, a);
      GrowRefusal(cfg, s, h, x, q, z, g, a);
    }
  }

  lemma GrowRefusal(cfg: Config, s: System, h: History, x: PeerId, q: Peer, z: System, g: History, a: Answer)
    requires GrowStep(cfg, s, h, x, q, z, g)
    requires a.conn.src in s.peers && a.conn.dst in s.peers && Awaited(s.peers[a.conn.src], a)
    requires RefusalOk(s, h, a) && LogOk(h, a.conn.dst, s.peers[a.conn.dst])
    requires RpcsOk(cfg, s, a.conn.src, s.peers[a.conn.src])
    requires LeadingOk(cfg, h, a.conn.src, s.peers[a.conn.src])
    ensures RefusalOk(z, g, a)
  {
    var r := s.peers[a.conn.src].rpcs[a.conn.dst].pending.value;
    var f := s.peers[a.conn.dst];
    if a.resp.AppendResponse? && !a.resp.success && r.AppendRequest? && r.term in h.terms
       && a.resp.term == r.term && f.currentTerm <= r.term && r.term == q.currentTerm
    {
      StillDisagrees(f.log, s.peers[x].log, q.log, r.prevIndex, r.term);
      if a.resp.conflict.Some? {
        StillDisagrees(f.log, s.peers[x].log, q.log, a.resp.conflict.value, r.term);
      }
    }
  }

  lemma GrowSockets(cfg: Config, s: System, h: History, x: PeerId, q: Peer, z: System, g: History, y: PeerId)
    requires GrowStep(cfg, s, h, x, q, z, g) && HistoryOk(cfg, h)
    requires y in s.peers && SocketsOk(cfg, s, h, y, s.peers[y]) && LeadingOk(cfg, h, y, s.peers[y])
    requires forall f {:trigger LogOk(h, f, s.peers[f])} :: f in s.peers ==> LogOk(h, f, s.peers[f])
    requires s.peers.Keys == cfg.Members()
    ensures SocketsOk(cfg, z, g, y, z.peers[y])
  {
    if s.peers[y].role == Leader {
      forall f | f in Others(cfg, y) ensures KnowsOk(z, g, y, z.peers[y], f) {
        assert KnowsOk(s, h, y, s.peers[y], f) && LogOk(h, f, s.peers[f]);
        GrowFollower(cfg, s, h, x, q, z, g, y, f);
      }
    }
  }

  lemma GrowFollower(cfg: Config, s: System, h: History, x: PeerId, q: Peer, z: System, g: History, y: PeerId, f: PeerId)
    requires GrowStep(cfg, s, h, x, q, z, g)
    requires y in s.peers && f != y && KnowsOk(s, h, y, s.peers[y], f) && LogOk(h, f, s.peers[f])
    requires s.peers[y].role == Leader && LeadingOk(cfg, h, y, s.peers[y])
    ensures KnowsOk(z, g, y, z.peers[y], f)
  {
    var l := s.peers[y];
    if y == x && s.peers[f].currentTerm == l.currentTerm && !Synced(h, f, s.peers[f]) {
      StillDisagrees(s.peers[f].log, l.log, q.log, l.nextIndex[f], l.currentTerm);
    }
    forall b | Leftover(z, y, f, l.currentTerm, b) && l.rpcs[f].pending.None?
               && z.peers[f].currentTerm <= l.currentTerm
      ensures Before(z, g, b, l.nextIndex[f] - 1)
    {
      assert Leftover(s, y, f, l.currentTerm, b);
      assert Before(s, h, b, l.nextIndex[f] - 1);
      GrowBefore(cfg, s, h, x, q, z, g, b, l.nextIndex[f] - 1);
    }
  }

  lemma GrowPackets(cfg: Config, s: System, h: History, x: PeerId, q: Peer, z: System, g: History)
    requires CoreOk(cfg, s.peers, h) && NetOk(cfg, s, h) && GrowStep(cfg, s, h, x, q, z, g)
    ensures PacketsOk(cfg, z, g)
  {
    forall f | f in s.peers ensures LogOk(h, f, s.peers[f]) { assert PeerOk(cfg, h, f, s.peers[f]); }
    forall pk | pk in z.sent ensures PacketOk(cfg, z, g, pk) {
      assert PacketOk(cfg, s, h, pk) && LogOk(h, pk.conn.dst, s.peers[pk.conn.dst]);
      GrowPacket(cfg, s, h, x, q, z, g, pk);
    }
    forall a, b | a in z.sent && b in z.sent ensures PairOk(z, g, a, b) {
      assert PairOk(s, h, a, b) && PacketOk(cfg, s, h, a) && LogOk(h, a.conn.dst, s.peers[a.conn.dst]);
      GrowPair(cfg, s, h, x, q, z, g, a, b);
    }
  }

  lemma GrowNet(cfg: Config, s: System, h: History, x: PeerId, q: Peer, z: System, g: History)
    requires CoreOk(cfg, s.peers, h) && NetOk(cfg, s, h) && GrowStep(cfg, s, h, x, q, z, g)
    ensures NetOk(cfg, z, g)
  {
    GrowPackets(cfg, s, h, x, q, z, g);
    forall f | f in s.peers ensures LogOk(h, f, s.peers[f]) { assert PeerOk(cfg, h, f, s.peers[f]); }
    forall a | a in z.answers ensures ReplyOk(z, g, a) {
      assert ReplyOk(s, h, a) && LogOk(h, a.conn.dst, s.peers[a.conn.dst]);
      var l := a.conn.src;
      assert SocketsOk(cfg, s, h, l, s.peers[l]) && PeerOk(cfg, h, l, s.peers[l]);
      GrowReply(cfg, s, h, x, q, z, g, a);
    }
    forall y | y in z.peers ensures SocketsOk(cfg, z, g, y, z.peers[y]) {
      assert SocketsOk(cfg, s, h, y, s.peers[y]) && PeerOk(cfg, h, y, s.peers[y]);
      GrowSockets(cfg, s, h, x, q, z, g, y);
    }
    forall conn | conn in z.high ensures HighOk(z, conn) { assert HighOk(s, conn); }
  }

  // ---------- The leader sends ----------

  ghost predicate SendStep(cfg: Config, s: System, h: History, x: PeerId, f: PeerId, count: nat, z: System) {
    && x in s.peers && CanSendAppend(s.peers[x], f, count)
    && z == s.(peers := s.peers[x := SendAppend(s.peers[x], f, count)],
               sent := s.sent + PendingPackets(x, SendAppend(s.peers[x], f, count)))
  }

  function Fresh(s: System, x: PeerId, f: PeerId, count: nat): Packet
    requires x in s.peers && CanSendAppend(s.peers[x], f, count)
  {
    var r := s.peers[x].rpcs[f];
    Packet(Conn(x, f, r.ident), r.lastId + 1, AppendRequestFor(s.peers[x], f, count))
  }

  lemma SendOnly(cfg: Config, s: System, h: History, x: PeerId, f: PeerId, count: nat, z: System)
    requires SendStep(cfg, s, h, x, f, count, z) && RpcsOk(cfg, s, x, s.peers[x])
    ensures z.sent == s.sent + {Fresh(s, x, f, count)}
  {
    var p, q := s.peers[x], SendAppend(s.peers[x], f, count);
    forall pk | pk in PendingPackets(x, q) ensures pk in s.sent + {Fresh(s, x, f, count)} {
      NewPacket(x, q, pk);
      if pk.conn.dst != f { assert q.rpcs[pk.conn.dst] == p.rpcs[pk.conn.dst]; }
    }
    assert Fresh(s, x, f, count) in PendingPackets(x, q) by { assert f in q.rpcs && q.rpcs[f].pending.Some?; }
  }

  // The term quoted for the previous entry is right, from the hot path as well.
  lemma SentTerm(s: System, h: History, x: PeerId, f: PeerId, count: nat)
    requires x in s.peers && CanSendAppend(s.peers[x], f, count) && KnowsOk(s, h, x, s.peers[x], f)
    ensures var r := AppendRequestFor(s.peers[x], f, count);
            TermAt(s.peers[x].log, r.prevIndex) == Some(r.prevTerm)
  {
  }

  lemma SendOldWire(cfg: Config, s: System, h: History, x: PeerId, f: PeerId, count: nat, z: System, pk: Packet)
    requires SendStep(cfg, s, h, x, f, count, z) && WireOk(cfg, s, pk) && RpcsOk(cfg, s, x, s.peers[x])
    requires pk.req.VoteRequest? ==> VotePacketOk(s, pk)
    ensures WireOk(cfg, z, pk) && (pk.req.VoteRequest? ==> VotePacketOk(z, pk))
  {
  }

  lemma SendOldPacket(cfg: Config, s: System, h: History, x: PeerId, f: PeerId, count: nat, z: System, pk: Packet)
    requires SendStep(cfg, s, h, x, f, count, z) && pk in s.sent && PacketOk(cfg, s, h, pk)
    requires PeerOk(cfg, h, x, s.peers[x]) && SocketsOk(cfg, s, h, x, s.peers[x]) && s.peers.Keys == cfg.Members()
    requires Conn(x, f, s.peers[x].rpcs[f].ident) in s.high ==> HighOk(s, Conn(x, f, s.peers[x].rpcs[f].ident))
    ensures PacketOk(cfg, z, h, pk)
  {
    SendOldWire(cfg, s, h, x, f, count, z, pk);
    if pk.req.AppendRequest? { SendOldProbe(cfg, s, h, x, f, count, z, pk); }
  }

  // What a request already sent may still do is not changed by sending another.
  lemma SendOldProbe(cfg: Config, s: System, h: History, x: PeerId, f: PeerId, count: nat, z: System, pk: Packet)
    requires SendStep(cfg, s, h, x, f, count, z) && pk in s.sent && pk.req.AppendRequest? && PacketOk(cfg, s, h, pk)
    ensures LeaderConnOk(z, pk) && ProbeOk(z, h, pk)
  {
  }

  lemma SendPacket(cfg: Config, s: System, h: History, x: PeerId, f: PeerId, count: nat, z: System, pk: Packet)
    requires SendStep(cfg, s, h, x, f, count, z) && z.sent == s.sent + {Fresh(s, x, f, count)}
    requires PeerOk(cfg, h, x, s.peers[x]) && SocketsOk(cfg, s, h, x, s.peers[x]) && s.peers.Keys == cfg.Members()
    requires pk in z.sent && (pk in s.sent ==> PacketOk(cfg, s, h, pk))
    requires Conn(x, f, s.peers[x].rpcs[f].ident) in s.high ==> HighOk(s, Conn(x, f, s.peers[x].rpcs[f].ident))
    ensures PacketOk(cfg, z, h, pk)
  {
    if pk in s.sent {
      SendOldPacket(cfg, s, h, x, f, count, z, pk);
    } else {
      assert KnowsOk(s, h, x, s.peers[x], f);
      SentTerm(s, h, x, f, count);
      SendFresh(cfg, s, h, x, f, count, z);
    }
  }

  lemma SendFresh(cfg: Config, s: System, h: History, x: PeerId, f: PeerId, count: nat, z: System)
    requires SendStep(cfg, s, h, x, f, count, z) && z.sent == s.sent + {Fresh(s, x, f, count)}
    requires PeerOk(cfg, h, x, s.peers[x]) && RpcsOk(cfg, s, x, s.peers[x]) && s.peers.Keys == cfg.Members()
    requires KnowsOk(s, h, x, s.peers[x], f)
    requires var r := AppendRequestFor(s.peers[x], f, count);
             TermAt(s.peers[x].log, r.prevIndex) == Some(r.prevTerm)
    ensures PacketOk(cfg, z, h, Fresh(s, x, f, count))
  {
    var pk := Fresh(s, x, f, count);
    assert AppendPacketOk(cfg, h, pk);
    assert ProbeOk(z, h, pk);
  }

  lemma SendPair(cfg: Config, s: System, h: History, x: PeerId, f: PeerId, count: nat, z: System, a: Packet, b: Packet)
    requires SendStep(cfg, s, h, x, f, count, z) && z.sent == s.sent + {Fresh(s, x, f, count)}
    requires LeadingOk(cfg, h, x, s.peers[x]) && SocketsOk(cfg, s, h, x, s.peers[x])
    requires a in z.sent && b in z.sent
    requires a in s.sent ==> PacketOk(cfg, s, h, a)
    requires b in s.sent ==> PacketOk(cfg, s, h, b)
    requires a in s.sent && b in s.sent ==> PairOk(s, h, a, b)
    ensures PairOk(z, h, a, b)
  {
    if a in s.sent && b !in s.sent && a.req.AppendRequest? && a.req.term == b.req.term && a.conn == b.conn
       && Deliverable(s, a) && s.peers[f].currentTerm <= a.req.term
    {
      assert KnowsOk(s, h, x, s.peers[x], f);
      assert Leftover(s, x, f, s.peers[x].currentTerm, a);
      assert Before(s, h, a, s.peers[x].nextIndex[f] - 1);
    }
  }

  lemma SendReply(cfg: Config, s: System, h: History, x: PeerId, f: PeerId, count: nat, z: System, a: Answer)
    requires SendStep(cfg, s, h, x, f, count, z) && s.sent <= z.sent && ReplyOk(s, h, a)
    requires a.conn in s.high ==> HighOk(s, a.conn)
    ensures ReplyOk(z, h, a)
  {
    AnswerGrows(s, h, z, h, a);
    if a.conn.src == x && a.conn.dst == f { assert !Awaited(z.peers[x], a); }
  }

  lemma SendSockets(cfg: Config, s: System, h: History, x: PeerId, f: PeerId, count: nat, z: System, y: PeerId)
    requires SendStep(cfg, s, h, x, f, count, z) && z.sent == s.sent + {Fresh(s, x, f, count)}
    requires y in s.peers && SocketsOk(cfg, s, h, y, s.peers[y])
    requires SocketsOk(cfg, s, h, x, s.peers[x])
    requires PeerOk(cfg, h, x, s.peers[x])
    requires Conn(x, f, s.peers[x].rpcs[f].ident) in s.high ==> HighOk(s, Conn(x, f, s.peers[x].rpcs[f].ident))
    ensures SocketsOk(cfg, z, h, y, z.peers[y])
  {
    assert RpcsOk(cfg, z, y, z.peers[y]);
    if s.peers[y].role == Leader {
      forall e | e in Others(cfg, y) ensures KnowsOk(z, h, y, z.peers[y], e) {
        assert KnowsOk(s, h, y, s.peers[y], e);
        SendFollower(cfg, s, h, x, f, count, z, y, e);
      }
    }
  }

  lemma SendFollower(cfg: Config, s: System, h: History, x: PeerId, f: PeerId, count: nat, z: System, y: PeerId, e: PeerId)
    requires SendStep(cfg, s, h, x, f, count, z) && z.sent == s.sent + {Fresh(s, x, f, count)}
    requires y in s.peers && KnowsOk(s, h, y, s.peers[y], e)
    ensures KnowsOk(z, h, y, z.peers[y], e)
  {
    var l := z.peers[y];
    forall b | Leftover(z, y, e, l.currentTerm, b) && l.rpcs[e].pending.None?
               && z.peers[e].currentTerm <= l.currentTerm
      ensures Before(z, h, b, l.nextIndex[e] - 1)
    {
      assert Leftover(s, y, e, l.currentTerm, b);
      assert Before(s, h, b, l.nextIndex[e] - 1);
    }
  }

  lemma SendPackets(cfg: Config, s: System, h: History, x: PeerId, f: PeerId, count: nat, z: System)
    requires CoreOk(cfg, s.peers, h) && NetOk(cfg, s, h) && SendStep(cfg, s, h, x, f, count, z)
    requires z.sent == s.sent + {Fresh(s, x, f, count)}
    ensures PacketsOk(cfg, z, h)
  {
    assert SocketsOk(cfg, s, h, x, s.peers[x]) && PeerOk(cfg, h, x, s.peers[x]);
    var conn := Conn(x, f, s.peers[x].rpcs[f].ident);
    assert conn in s.high ==> HighOk(s, conn);
    forall pk | pk in z.sent ensures PacketOk(cfg, z, h, pk) {
      if pk in s.sent { assert PacketOk(cfg, s, h, pk); }
      SendPacket(cfg, s, h, x, f, count, z, pk);
    }
    forall a, b | a in z.sent && b in z.sent ensures PairOk(z, h, a, b) {
      if a in s.sent { assert PacketOk(cfg, s, h, a); }
      if b in s.sent { assert PacketOk(cfg, s, h, b); }
      if a in s.sent && b in s.sent { assert PairOk(s, h, a, b); }
      SendPair(cfg, s, h, x, f, count, z, a, b);
    }
  }

  lemma SendHigh(cfg: Config, s: System, h: History, x: PeerId, f: PeerId, count: nat, z: System, c: Conn)
    requires SendStep(cfg, s, h, x, f, count, z) && c in s.high && HighOk(s, c)
    ensures HighOk(z, c)
  {
  }

  lemma SendNet(cfg: Config, s: System, h: History, x: PeerId, f: PeerId, count: nat, z: System)
    requires CoreOk(cfg, s.peers, h) && NetOk(cfg, s, h) && SendStep(cfg, s, h, x, f, count, z)
    ensures NetOk(cfg, z, h)
  {
    assert SocketsOk(cfg, s, h, x, s.peers[x]) && PeerOk(cfg, h, x, s.peers[x]);
    SendOnly(cfg, s, h, x, f, count, z);
    SendPackets(cfg, s, h, x, f, count, z);
    var conn := Conn(x, f, s.peers[x].rpcs[f].ident);
    assert conn in s.high ==> HighOk(s, conn);
    forall a | a in z.answers ensures ReplyOk(z, h, a) {
      assert ReplyOk(s, h, a);
      assert a.conn in s.high ==> HighOk(s, a.conn);
      SendReply(cfg, s, h, x, f, count, z, a);
    }
    forall y | y in z.peers ensures SocketsOk(cfg, z, h, y, z.peers[y]) {
      assert SocketsOk(cfg, s, h, y, s.peers[y]);
      SendSockets(cfg, s, h, x, f, count, z, y);
    }
    forall c | c in z.high ensures HighOk(z, c) {
      assert HighOk(s, c);
      SendHigh(cfg, s, h, x, f, count, z, c);
    }
  }
}
