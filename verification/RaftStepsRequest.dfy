// Every step of the cluster keeps the invariant: a request that arrives.
module RaftStepsRequest {
  import opened Wrappers
  import opened Quorum
  import opened RaftPeer
  import opened RaftSystem
  import opened RaftInvariant
  import opened RaftLogs
  import opened RaftCore
  import opened RaftCoreLeader
  import opened RaftCoreFollower
  import opened RaftNet
  import opened RaftNetTerm
  import opened RaftNetFollower
  import opened RaftSteps

  // ---------- A delivery, in pieces ----------

  function ReplyTo(pk: Packet, reply: Option<Response>): set<Answer> {
    if reply.Some? then {Answer(pk.conn, pk.id, reply.value)} else {}
  }

  ghost predicate Handles(s: System, pk: Packet, q: Peer, reply: Option<Response>, z: System) {
    && pk.conn.dst in s.peers
    && z == System(s.peers[pk.conn.dst := q], s.sent, s.answers + ReplyTo(pk, reply),
                   s.high[pk.conn := pk.id], s.clock + 1)
  }

  ghost predicate Records(h: History, x: PeerId, p: Peer, q: Peer, accepts: bool, g: History) {
    && g.terms == ObserveTerms(h, x, p, q) && g.votes == ObserveVotes(h, x, p, q)
    && g.acc == if q.role == Leader || accepts then h.acc[Key(x, q.currentTerm) := |q.log|] else h.acc
  }

  lemma DeliveredView(st: Setup, s: System, h: History, step: Step, q: Peer, reply: Option<Response>, z: System, g: History)
    requires Enabled(st, s, step) && step.DeliverRequest? && Act(st, s, step) == Outcome(q, reply)
    requires Handles(s, step.packet, q, reply, z)
    requires Records(h, Actor(step), s.peers[Actor(step)], q, AcceptsNow(s, step), g)
    requires RpcsOk(st.cfg, s, Actor(step), s.peers[Actor(step)]) && q.rpcs.Keys == s.peers[Actor(step)].rpcs.Keys
    requires forall f :: f in q.rpcs && q.rpcs[f].pending.Some? ==> q.rpcs[f] == s.peers[Actor(step)].rpcs[f]
    ensures Next(st, s, step) == z && Observe(st, s, h, step) == g
  {
    AlreadySent(st.cfg, s, Actor(step), s.peers[Actor(step)], q);
  }

  lemma Delivered(st: Setup, s: System, h: History, step: Step, q: Peer, reply: Option<Response>, z: System, g: History)
    requires Enabled(st, s, step) && step.DeliverRequest? && Act(st, s, step) == Outcome(q, reply)
    requires Handles(s, step.packet, q, reply, z)
    requires Records(h, Actor(step), s.peers[Actor(step)], q, AcceptsNow(s, step), g)
    requires RpcsOk(st.cfg, s, Actor(step), s.peers[Actor(step)]) && q.rpcs.Keys == s.peers[Actor(step)].rpcs.Keys
    requires forall f :: f in q.rpcs && q.rpcs[f].pending.Some? ==> q.rpcs[f] == s.peers[Actor(step)].rpcs[f]
    requires Inv(st, z, g) && HistoryGrows(h, g)
    ensures Kept(st, s, h, step)
  {
    DeliveredView(st, s, h, step, q, reply, z, g);
  }

  function Raise(s: System, pk: Packet): System { s.(high := s.high[pk.conn := pk.id]) }

  lemma Raised(st: Setup, s: System, h: History, pk: Packet)
    requires Inv(st, s, h) && Deliverable(s, pk)
    ensures Inv(st, Raise(s, pk), h) && Deliverable(Raise(s, pk), pk)
  {
    RaiseNet(st.cfg, s, h, pk);
  }

  lemma Ticked(st: Setup, s: System, h: History, pk: Packet)
    requires Inv(st, s, h) && Deliverable(s, pk)
    ensures Inv(st, Raise(s, pk).(clock := s.clock + 1), h)
  {
    Raised(st, s, h, pk);
    Tick(st, Raise(s, pk), h);
  }

  lemma Replied(st: Setup, s: System, h: History, pk: Packet, resp: Response)
    requires Inv(st, s, h) && pk in s.sent && HighOf(s, pk.conn) == pk.id
    requires AnswerTo(h, Answer(pk.conn, pk.id, resp), pk)
    requires pk.conn.src in s.peers && pk.conn.dst in s.peers
    requires var a := Answer(pk.conn, pk.id, resp); Awaited(s.peers[pk.conn.src], a) ==> RefusalOk(s, h, a)
    ensures Inv(st, s.(answers := s.answers + {Answer(pk.conn, pk.id, resp)}), h)
  {
    var a := Answer(pk.conn, pk.id, resp);
    assert AnswerOk(s, h, a);
    assert ReplyOk(s, h, a);
    AnswerNet(st.cfg, s, h, a);
  }

  lemma Remembered(st: Setup, s: System, h: History, x: PeerId, l: PeerId, e: CacheEntry)
    requires Inv(st, s, h) && x in s.peers
    requires e.lastReplied.Some? ==> Answer(Conn(l, x, e.ident), e.id, e.lastReplied.value) in s.answers
    ensures Inv(st, s.(peers := s.peers[x := s.peers[x].(cache := s.peers[x].cache[l := e])]), h)
  {
    Facts(st, s, h, x);
    Silent(st, s, h, x, s.peers[x].(cache := s.peers[x].cache[l := e]));
  }

  // ---------- Requests for votes ----------

  predicate Idle(st: Setup, p: Peer, candidate: PeerId, req: Request)
    requires req.VoteRequest?
  {
    || req.term < p.currentTerm || Spiralling(st, p)
    || (req.term == p.currentTerm && !Grants(p, candidate, req))
  }

  predicate Grants(p: Peer, candidate: PeerId, req: Request)
    requires req.VoteRequest?
  {
    && (p.votedFor == None || p.votedFor == Some(candidate) || req.term > p.currentTerm)
    && UpToDate(req.lastIndex, req.lastTerm, p.log)
  }

  ghost function Voter(p: Peer, candidate: PeerId, req: Request, ident: nat): Peer
    requires req.VoteRequest?
  {
    UpdateState(p, Follower, req.term, if Grants(p, candidate, req) then Some(candidate) else None, ident)
  }

  lemma VoteRequestView(st: Setup, s: System, step: Step)
    requires Enabled(st, s, step) && step.DeliverRequest? && step.packet.req.VoteRequest?
    ensures var pk, p := step.packet, s.peers[Actor(step)];
            Act(st, s, step) ==
              if Idle(st, p, pk.conn.src, pk.req) then Outcome(p, Some(VoteResponse(p.currentTerm, false)))
              else Outcome(Voter(p, pk.conn.src, pk.req, s.clock),
                           Some(VoteResponse(pk.req.term, Grants(p, pk.conn.src, pk.req))))
    ensures !AcceptsNow(s, step)
  {
  }

  lemma StepVoteRequest(st: Setup, s: System, h: History, step: Step)
    requires Inv(st, s, h) && Enabled(st, s, step) && step.DeliverRequest? && step.packet.req.VoteRequest?
    ensures Kept(st, s, h, step)
  {
    VoteRequestView(st, s, step);
    if Idle(st, s.peers[Actor(step)], step.packet.conn.src, step.packet.req) {
      VoteRefused(st, s, h, step);
    } else {
      VoteCast(st, s, h, step);
    }
  }

  // The two ends of a packet are peers, and a packet is not for its sender.
  lemma Ends(st: Setup, s: System, h: History, pk: Packet)
    requires Inv(st, s, h) && pk in s.sent
    ensures pk.conn.src in s.peers && pk.conn.dst in s.peers && pk.conn.src != pk.conn.dst
    ensures pk.conn.src in st.cfg.Members() && pk.conn.dst in Others(st.cfg, pk.conn.src)
    ensures pk.conn.src in Others(st.cfg, pk.conn.dst)
    ensures PacketOk(st.cfg, s, h, pk)
  {
    assert PacketOk(st.cfg, s, h, pk);
  }

  lemma VoteRefused(st: Setup, s: System, h: History, step: Step)
    requires Inv(st, s, h) && Enabled(st, s, step) && step.DeliverRequest? && step.packet.req.VoteRequest?
    requires var p := s.peers[Actor(step)];
             Act(st, s, step) == Outcome(p, Some(VoteResponse(p.currentTerm, false)))
    ensures Kept(st, s, h, step)
  {
    var x, pk := Actor(step), step.packet;
    var p := s.peers[x];
    var resp := VoteResponse(p.currentTerm, false);
    Facts(st, s, h, x);
    Ends(st, s, h, pk);
    Ticked(st, s, h, pk);
    var m := Raise(s, pk).(clock := s.clock + 1);
    Replied(st, m, h, pk, resp);
    NothingNew(st.cfg, h, x, p, p);
    assert s.peers[x := p] == s.peers;
    Delivered(st, s, h, step, p, Some(resp), m.(answers := m.answers + {Answer(pk.conn, pk.id, resp)}), h);
  }

  lemma VoterChanges(st: Setup, s: System, h: History, x: PeerId, pk: Packet, ident: nat)
    requires x in s.peers && pk.req.VoteRequest? && pk.conn.dst == x && pk.conn.src != x
    requires pk.conn.src in st.cfg.Members() && pk.conn.src in s.peers && VotePacketOk(s, pk)
    requires VotingOk(st.cfg, h, x, s.peers[x]) && LeadingOk(st.cfg, h, x, s.peers[x])
    requires CommitOk(st.cfg, h, s.peers[x]) && pk.conn.src in Others(st.cfg, x)
    requires !Idle(st, s.peers[x], pk.conn.src, pk.req)
    ensures TermChange(st.cfg, s.peers, h, x, s.peers[x], Voter(s.peers[x], pk.conn.src, pk.req, ident))
  {
  }

  lemma VoterSockets(cfg: Config, s: System, x: PeerId, p: Peer, candidate: PeerId, req: Request)
    requires req.VoteRequest? && RpcsOk(cfg, s, x, p)
    ensures FreshSockets(p, Voter(p, candidate, req, s.clock), s.clock)
  {
  }

  lemma VoteCast(st: Setup, s: System, h: History, step: Step)
    requires Inv(st, s, h) && Enabled(st, s, step) && step.DeliverRequest? && step.packet.req.VoteRequest?
    requires var p, pk := s.peers[Actor(step)], step.packet;
             && !Idle(st, p, pk.conn.src, pk.req) && !AcceptsNow(s, step)
             && Act(st, s, step) == Outcome(Voter(p, pk.conn.src, pk.req, s.clock),
                                            Some(VoteResponse(pk.req.term, Grants(p, pk.conn.src, pk.req))))
    ensures Kept(st, s, h, step)
  {
    var x, pk := Actor(step), step.packet;
    var p := s.peers[x];
    var q := Voter(p, pk.conn.src, pk.req, s.clock);
    var resp := VoteResponse(pk.req.term, Grants(p, pk.conn.src, pk.req));
    var m := Raise(s, pk).(peers := s.peers[x := q], clock := s.clock + 1);
    var g := WithVote(h, x, p, q);
    Facts(st, s, h, x);
    Ends(st, s, h, pk);
    VoterChanges(st, s, h, x, pk, s.clock);
    VoterSockets(st.cfg, s, x, p, pk.conn.src, pk.req);
    Enters(st, s, h, pk, q, m);
    VoteIsRecorded(st.cfg, h, x, p, pk, s.clock);
    CastView(st, s, h, step, q);
    Replied(st, m, g, pk, resp);
    Delivered(st, s, h, step, q, Some(resp), m.(answers := m.answers + {Answer(pk.conn, pk.id, resp)}), g);
  }

  lemma CastView(st: Setup, s: System, h: History, step: Step, q: Peer)
    requires Enabled(st, s, step) && step.DeliverRequest? && q.role == Follower && !AcceptsNow(s, step)
    ensures var x := Actor(step);
            Records(h, x, s.peers[x], q, AcceptsNow(s, step), WithVote(h, x, s.peers[x], q))
  {
  }

  // The receiver of a packet enters a new term or casts its vote.
  lemma Enters(st: Setup, s: System, h: History, pk: Packet, q: Peer, m: System)
    requires Inv(st, s, h) && Deliverable(s, pk) && pk.conn.dst in s.peers
    requires TermChange(st.cfg, s.peers, h, pk.conn.dst, s.peers[pk.conn.dst], q)
    requires FreshSockets(s.peers[pk.conn.dst], q, s.clock)
    requires m == Raise(s, pk).(peers := s.peers[pk.conn.dst := q], clock := s.clock + 1)
    ensures var g := WithVote(h, pk.conn.dst, s.peers[pk.conn.dst], q); Inv(st, m, g) && HistoryGrows(h, g)
    ensures HighOf(m, pk.conn) == pk.id
  {
    Raised(st, s, h, pk);
    ChangeTerm(st, Raise(s, pk), h, pk.conn.dst, q, m);
  }

  lemma VoteIsRecorded(cfg: Config, h: History, x: PeerId, p: Peer, pk: Packet, ident: nat)
    requires pk.req.VoteRequest? && VotingOk(cfg, h, x, p) && NoFuture(h, x, p.currentTerm) && pk.conn.dst == x
    requires pk.req.term >= p.currentTerm && (p.role == Leader && p.votedFor.None? ==> Others(cfg, x) == {})
    requires pk.conn.src in Others(cfg, x)
    ensures AnswerTo(WithVote(h, x, p, Voter(p, pk.conn.src, pk.req, ident)),
                     Answer(pk.conn, pk.id, VoteResponse(pk.req.term, Grants(p, pk.conn.src, pk.req))), pk)
  {
  }

  // ---------- Requests to append ----------

  // The receiver as a follower of the request's term, before it looks at its log.
  ghost function Following(p: Peer, req: Request, ident: nat): Peer
    requires req.AppendRequest?
  {
    UpdateState(p, Follower, req.term, if req.term > p.currentTerm then None else p.votedFor, ident)
  }

  ghost function Accepting(m: Peer, req: Request): Peer
    requires req.AppendRequest? && req.prevIndex <= |m.log|
  {
    var log := AppendAt(m.log, req.prevIndex, req.entries);
    m.(log := log, commitIndex := if req.commit > m.commitIndex
                                  then (if req.commit < |log| then req.commit else |log|)
                                  else m.commitIndex)
  }

  function Refusal(p: Peer, req: Request): Response
    requires req.AppendRequest?
  {
    AppendResponse(req.term, false, if |p.log| < req.prevIndex then Some(|p.log| + 1) else None)
  }

  ghost function Cached(q: Peer, pk: Packet, resp: Option<Response>): Peer {
    q.(cache := q.cache[pk.conn.src := CacheEntry(pk.conn.ident, pk.id, resp)])
  }

  lemma AppendRequestView(st: Setup, s: System, step: Step)
    requires Enabled(st, s, step) && step.DeliverRequest? && step.packet.req.AppendRequest?
    ensures var pk, p := step.packet, s.peers[Actor(step)];
            var m := Following(p, pk.req, s.clock);
            && (AcceptsNow(s, step) <==> !Bounced(p, pk) && Accepts(p, pk.req))
            && (Accepts(p, pk.req) ==> pk.req.prevIndex <= |p.log|)
            && Act(st, s, step) ==
                 if Bounced(p, pk) then Outcome(p, p.cache[pk.conn.src].lastReplied)
                 else if pk.req.term < p.currentTerm
                 then (var resp := Some(AppendResponse(p.currentTerm, false, None)); Outcome(Cached(p, pk, resp), resp))
                 else if Panics(p, pk.req) then Outcome(Cached(p.(panicked := true), pk, None), None)
                 else if Accepts(p, pk.req)
                 then (var resp := Some(AppendResponse(pk.req.term, true, None));
                       Outcome(Cached(Accepting(m, pk.req), pk, resp), resp))
                 else (var resp := Some(Refusal(p, pk.req)); Outcome(Cached(m, pk, resp), resp))
  {
  }

  lemma StepAppendRequest(st: Setup, s: System, h: History, step: Step)
    requires Inv(st, s, h) && Enabled(st, s, step) && step.DeliverRequest? && step.packet.req.AppendRequest?
    ensures Kept(st, s, h, step)
  {
    var pk, p := step.packet, s.peers[Actor(step)];
    AppendRequestView(st, s, step);
    if Bounced(p, pk) {
      AppendBounced(st, s, h, step);
    } else if pk.req.term < p.currentTerm {
      AppendStale(st, s, h, step);
    } else if Panics(p, pk.req) {
      AppendPanics(st, s, h, step);
    } else {
      AppendHandled(st, s, h, step);
    }
  }

  lemma Unrecorded(st: Setup, s: System, h: History, x: PeerId, p: Peer, q: Peer)
    requires PeerOk(st.cfg, h, x, p)
    requires q.role == p.role && q.currentTerm == p.currentTerm && q.votedFor == p.votedFor && q.log == p.log
    ensures Records(h, x, p, q, false, h)
  {
    NothingNew(st.cfg, h, x, p, q);
  }

  lemma AppendBounced(st: Setup, s: System, h: History, step: Step)
    requires Inv(st, s, h) && Enabled(st, s, step) && step.DeliverRequest? && !AcceptsNow(s, step)
    requires var p, pk := s.peers[Actor(step)], step.packet;
             Bounced(p, pk) && Act(st, s, step) == Outcome(p, p.cache[pk.conn.src].lastReplied)
    ensures Kept(st, s, h, step)
  {
    var x, pk := Actor(step), step.packet;
    var p := s.peers[x];
    Facts(st, s, h, x);
    Ticked(st, s, h, pk);
    Unrecorded(st, s, h, x, p, p);
    assert s.peers[x := p] == s.peers;
    assert s.answers + ReplyTo(pk, p.cache[pk.conn.src].lastReplied) == s.answers;
    Delivered(st, s, h, step, p, p.cache[pk.conn.src].lastReplied, Raise(s, pk).(clock := s.clock + 1), h);
  }

  // Only the pending request can be answered, so a reply in a later term is no refusal to rely on.
  lemma NoRefusal(cfg: Config, s: System, h: History, pk: Packet, resp: Response)
    requires PacketOk(cfg, s, h, pk) && resp.AppendResponse? && pk.req.AppendRequest?
    requires resp.success || resp.term != pk.req.term
    requires Awaited(s.peers[pk.conn.src], Answer(pk.conn, pk.id, resp))
    ensures RefusalOk(s, h, Answer(pk.conn, pk.id, resp))
  {
  }

  lemma StaleRefuses(st: Setup, m: System, h: History, pk: Packet, resp: Response)
    requires Inv(st, m, h) && pk in m.sent && pk.req.AppendRequest?
    requires resp.AppendResponse? && resp.term != pk.req.term
    ensures pk.conn.src in m.peers && pk.conn.dst in m.peers
    ensures Awaited(m.peers[pk.conn.src], Answer(pk.conn, pk.id, resp)) ==> RefusalOk(m, h, Answer(pk.conn, pk.id, resp))
  {
    Ends(st, m, h, pk);
    if Awaited(m.peers[pk.conn.src], Answer(pk.conn, pk.id, resp)) { NoRefusal(st.cfg, m, h, pk, resp); }
  }

  lemma AppendStale(st: Setup, s: System, h: History, step: Step)
    requires Inv(st, s, h) && Enabled(st, s, step) && step.DeliverRequest? && step.packet.req.AppendRequest?
    requires !AcceptsNow(s, step) && step.packet.req.term < s.peers[Actor(step)].currentTerm
    requires var resp := Some(AppendResponse(s.peers[Actor(step)].currentTerm, false, None));
             Act(st, s, step) == Outcome(Cached(s.peers[Actor(step)], step.packet, resp), resp)
    ensures Kept(st, s, h, step)
  {
    var x, pk := Actor(step), step.packet;
    var p := s.peers[x];
    var resp := AppendResponse(p.currentTerm, false, None);
    Facts(st, s, h, x);
    Ends(st, s, h, pk);
    Ticked(st, s, h, pk);
    var m := Raise(s, pk).(clock := s.clock + 1);
    StaleRefuses(st, m, h, pk, resp);
    Unrecorded(st, s, h, x, p, Cached(p, pk, Some(resp)));
    Finishes(st, s, h, step, p, resp, m, h);
  }

  // The reply goes out and is remembered.
  lemma Finishes(st: Setup, s: System, h: History, step: Step, q: Peer, resp: Response, m: System, g: History)
    requires Enabled(st, s, step) && step.DeliverRequest?
    requires Act(st, s, step) == Outcome(Cached(q, step.packet, Some(resp)), Some(resp))
    requires m == Raise(s, step.packet).(peers := s.peers[Actor(step) := q], clock := s.clock + 1)
    requires Inv(st, m, g) && HistoryGrows(h, g)
    requires Records(h, Actor(step), s.peers[Actor(step)], q, AcceptsNow(s, step), g)
    requires step.packet.conn.src in m.peers
    requires AnswerTo(g, Answer(step.packet.conn, step.packet.id, resp), step.packet)
    requires var a := Answer(step.packet.conn, step.packet.id, resp);
             Awaited(m.peers[step.packet.conn.src], a) ==> RefusalOk(m, g, a)
    requires RpcsOk(st.cfg, s, Actor(step), s.peers[Actor(step)]) && q.rpcs.Keys == s.peers[Actor(step)].rpcs.Keys
    requires forall f :: f in q.rpcs && q.rpcs[f].pending.Some? ==> q.rpcs[f] == s.peers[Actor(step)].rpcs[f]
    ensures Kept(st, s, h, step)
  {
    var x, pk := Actor(step), step.packet;
    var e := CacheEntry(pk.conn.ident, pk.id, Some(resp));
    var n := m.(answers := m.answers + {Answer(pk.conn, pk.id, resp)});
    Replied(st, m, g, pk, resp);
    Remembered(st, n, g, x, pk.conn.src, e);
    var z := n.(peers := n.peers[x := q.(cache := q.cache[pk.conn.src := e])]);
    assert n.peers[x := Cached(q, pk, Some(resp))] == s.peers[x := Cached(q, pk, Some(resp))];
    Delivered(st, s, h, step, Cached(q, pk, Some(resp)), Some(resp), z, g);
  }

  // The state after the panic, apart from what the handler says about it.
  lemma PanicKeeps(st: Setup, s: System, h: History, pk: Packet, q: Peer, z: System)
    requires Inv(st, s, h) && Deliverable(s, pk) && pk.conn.dst in s.peers
    requires q == Cached(s.peers[pk.conn.dst].(panicked := true), pk, None)
    requires z == Raise(s.(peers := s.peers[pk.conn.dst := q]), pk).(clock := s.clock + 1)
    ensures Inv(st, z, h) && Handles(s, pk, q, None, z)
    ensures Records(h, pk.conn.dst, s.peers[pk.conn.dst], q, false, h)
    ensures RpcsOk(st.cfg, s, pk.conn.dst, s.peers[pk.conn.dst])
  {
    var x, m := pk.conn.dst, s.(peers := s.peers[pk.conn.dst := q]);
    Facts(st, s, h, x);
    PanicIsSilent(st.cfg, s, h, x, s.peers[x], pk);
    Silent(st, s, h, x, q);
    Ticked(st, m, h, pk);
    Unrecorded(st, s, h, x, s.peers[x], q);
    PanicHandles(s, pk, q, m);
  }

  lemma AppendPanics(st: Setup, s: System, h: History, step: Step)
    requires Inv(st, s, h) && Enabled(st, s, step) && step.DeliverRequest? && !AcceptsNow(s, step)
    requires Act(st, s, step) == Outcome(Cached(s.peers[Actor(step)].(panicked := true), step.packet, None), None)
    ensures Kept(st, s, h, step)
  {
    var pk := step.packet;
    var q := Cached(s.peers[pk.conn.dst].(panicked := true), pk, None);
    var z := Raise(s.(peers := s.peers[pk.conn.dst := q]), pk).(clock := s.clock + 1);
    PanicKeeps(st, s, h, pk, q, z);
    Delivered(st, s, h, step, q, None, z, h);
  }

  lemma PanicHandles(s: System, pk: Packet, q: Peer, m: System)
    requires pk.conn.dst in s.peers && m == s.(peers := s.peers[pk.conn.dst := q])
    ensures Handles(s, pk, q, None, Raise(m, pk).(clock := s.clock + 1))
  {
    assert s.answers + ReplyTo(pk, None) == s.answers;
  }

  lemma PanicIsSilent(cfg: Config, s: System, h: History, x: PeerId, p: Peer, pk: Packet)
    requires PeerOk(cfg, h, x, p) && CacheOk(s, x, p)
    ensures var q := Cached(p.(panicked := true), pk, None); Quiet(h, x, p, q) && Unseen(p, q) && CacheOk(s, x, q)
  {
  }

  // ---------- The follower looks at its log ----------

  lemma FollowingChanges(st: Setup, s: System, h: History, x: PeerId, pk: Packet)
    requires x in s.peers && pk.conn.dst == x && pk.conn.src != x && pk.req.AppendRequest?
    requires AppendPacketOk(st.cfg, h, pk) && pk.req.term >= s.peers[x].currentTerm
    requires VotingOk(st.cfg, h, x, s.peers[x]) && LeadingOk(st.cfg, h, x, s.peers[x]) && CommitOk(st.cfg, h, s.peers[x])
    requires s.peers[x].votedFor.Some? ==> s.peers[x].votedFor.value in st.cfg.Members()
    requires RpcsOk(st.cfg, s, x, s.peers[x])
    ensures TermChange(st.cfg, s.peers, h, x, s.peers[x], Following(s.peers[x], pk.req, s.clock))
  {
  }

  lemma FollowingSockets(st: Setup, s: System, x: PeerId, pk: Packet)
    requires x in s.peers && pk.req.AppendRequest? && RpcsOk(st.cfg, s, x, s.peers[x])
    ensures FreshSockets(s.peers[x], Following(s.peers[x], pk.req, s.clock), s.clock)
  {
  }

  lemma AppendHandled(st: Setup, s: System, h: History, step: Step)
    requires Inv(st, s, h) && Enabled(st, s, step) && step.DeliverRequest? && step.packet.req.AppendRequest?
    requires var p, pk := s.peers[Actor(step)], step.packet;
             && pk.req.term >= p.currentTerm && !Panics(p, pk.req) && !Bounced(p, pk)
             && (AcceptsNow(s, step) <==> Accepts(p, pk.req))
    ensures Kept(st, s, h, step)
  {
    var x, pk := Actor(step), step.packet;
    var p := s.peers[x];
    var q := Following(p, pk.req, s.clock);
    var m := Raise(s, pk).(peers := s.peers[x := q], clock := s.clock + 1);
    Facts(st, s, h, x);
    Ends(st, s, h, pk);
    VotedForMember(st.cfg, h, x, p);
    FollowingChanges(st, s, h, x, pk);
    FollowingSockets(st, s, x, pk);
    Enters(st, s, h, pk, q, m);
    if Accepts(p, pk.req) {
      AppendAccepted(st, s, h, step, q, m, WithVote(h, x, p, q));
    } else {
      AppendRefused(st, s, h, step, q, m, WithVote(h, x, p, q));
    }
  }

  // The state m in which the receiver follows the request's term.
  ghost predicate Follows(st: Setup, s: System, h: History, step: Step, q: Peer, m: System, g: History) {
    && Enabled(st, s, step) && step.DeliverRequest? && step.packet.req.AppendRequest?
    && var x, pk := Actor(step), step.packet;
    && var p := s.peers[x];
    && pk.req.term >= p.currentTerm && !Panics(p, pk.req) && !Bounced(p, pk)
    && q == Following(p, pk.req, s.clock) && g == WithVote(h, x, p, q)
    && m == Raise(s, pk).(peers := s.peers[x := q], clock := s.clock + 1)
    && Inv(st, m, g) && HistoryGrows(h, g)
  }

  // A follower that has accepted in this term cannot find the previous entry
  // missing or of another term.
  lemma RefusedUnsynced(cfg: Config, h: History, x: PeerId, q: Peer, s: System, pk: Packet)
    requires pk.req.AppendRequest? && pk.conn.dst == x && x in s.peers && s.peers[x] == q
    requires AppendPacketOk(cfg, h, pk) && ProbeOk(s, h, pk) && Deliverable(s, pk)
    requires LogOk(h, x, q) && q.currentTerm == pk.req.term
    requires TermAt(q.log, pk.req.prevIndex) != Some(pk.req.prevTerm)
    ensures !Synced(h, x, q) && pk.req.prevIndex >= 1
    ensures !Agree(q.log, h.terms[pk.req.term].log, pk.req.prevIndex)
  {
    var log := h.terms[pk.req.term].log;
    if Agree(q.log, log, pk.req.prevIndex) { AgreeTerm(q.log, log, pk.req.prevIndex); }
  }

  lemma RefusalHolds(cfg: Config, s: System, h: History, x: PeerId, pk: Packet)
    requires x in s.peers && pk.req.AppendRequest? && pk.conn.dst == x && PacketOk(cfg, s, h, pk)
    requires s.peers[x].currentTerm == pk.req.term && !Synced(h, x, s.peers[x]) && pk.req.prevIndex >= 1
    requires !Agree(s.peers[x].log, h.terms[pk.req.term].log, pk.req.prevIndex)
    ensures var a := Answer(pk.conn, pk.id, Refusal(s.peers[x], pk.req));
            AnswerTo(h, a, pk) && (Awaited(s.peers[pk.conn.src], a) ==> RefusalOk(s, h, a))
  {
  }

  lemma AppendRefused(st: Setup, s: System, h: History, step: Step, q: Peer, m: System, g: History)
    requires Follows(st, s, h, step, q, m, g) && !AcceptsNow(s, step)
    requires RpcsOk(st.cfg, s, Actor(step), s.peers[Actor(step)])
    requires FreshSockets(s.peers[Actor(step)], q, s.clock)
    ensures Kept(st, s, h, step)
  {
    var x, pk := Actor(step), step.packet;
    AppendRequestView(st, s, step);
    Facts(st, m, g, x);
    Ends(st, m, g, pk);
    RefusedUnsynced(st.cfg, g, x, q, m, pk);
    RefusalHolds(st.cfg, m, g, x, pk);
    CastView(st, s, h, step, q);
    Finishes(st, s, h, step, q, Refusal(q, pk.req), m, g);
  }

  lemma Accepted(st: Setup, m: System, g: History, x: PeerId, pk: Packet, q: Peer)
    requires Inv(st, m, g) && x in m.peers && pk in m.sent && pk.conn.dst == x && HighOf(m, pk.conn) == pk.id
    requires pk.req.AppendRequest? && m.peers[x].role == Follower && m.peers[x].currentTerm == pk.req.term
    requires m.peers[x].commitIndex <= pk.req.prevIndex
    requires TermAt(m.peers[x].log, pk.req.prevIndex) == Some(pk.req.prevTerm) && pk.req.prevIndex <= |m.peers[x].log|
    requires q == Accepting(m.peers[x], pk.req)
    ensures var e := WithAcc(g, x, q.currentTerm, |q.log|);
            Inv(st, m.(peers := m.peers[x := q]), e) && HistoryGrows(g, e)
    ensures |q.log| == pk.req.LastIndex()
  {
    Facts(st, m, g, x);
    Ends(st, m, g, pk);
    AcceptsWell(st.cfg, m, g, x, pk, q);
    AcceptCore(st.cfg, m.peers, g, x, pk.req, q);
    AcceptedLog(st.cfg, g, x, m.peers[x], pk.req, q);
    var e := WithAcc(g, x, q.currentTerm, |q.log|);
    AcceptNet(st.cfg, m, g, x, pk, q, m.(peers := m.peers[x := q]), e);
  }

  lemma AcceptsWell(cfg: Config, m: System, g: History, x: PeerId, pk: Packet, q: Peer)
    requires x in m.peers && pk.conn.dst == x && pk.req.AppendRequest? && PacketOk(cfg, m, g, pk) && Deliverable(m, pk)
    requires m.peers[x].role == Follower && m.peers[x].currentTerm == pk.req.term
    requires m.peers[x].commitIndex <= pk.req.prevIndex
    requires TermAt(m.peers[x].log, pk.req.prevIndex) == Some(pk.req.prevTerm) && pk.req.prevIndex <= |m.peers[x].log|
    requires q == Accepting(m.peers[x], pk.req)
    ensures AcceptsFrom(cfg, g, x, m.peers[x], pk.req, q)
  {
  }

  lemma AppendAccepted(st: Setup, s: System, h: History, step: Step, q: Peer, m: System, g: History)
    requires Follows(st, s, h, step, q, m, g) && AcceptsNow(s, step) && HighOf(m, step.packet.conn) == step.packet.id
    requires RpcsOk(st.cfg, s, Actor(step), s.peers[Actor(step)])
    requires FreshSockets(s.peers[Actor(step)], q, s.clock)
    ensures Kept(st, s, h, step)
  {
    var x, pk := Actor(step), step.packet;
    AppendRequestView(st, s, step);
    var r := Accepting(q, pk.req);
    Accepted(st, m, g, x, pk, r);
    AcceptedFinishes(st, s, h, step, q, r, m, g);
  }

  lemma AcceptedFinishes(st: Setup, s: System, h: History, step: Step, q: Peer, r: Peer, m: System, g: History)
    requires Enabled(st, s, step) && step.DeliverRequest? && step.packet.req.AppendRequest? && AcceptsNow(s, step)
    requires var x, pk := Actor(step), step.packet;
             && q == Following(s.peers[x], pk.req, s.clock) && g == WithVote(h, x, s.peers[x], q)
             && m == Raise(s, pk).(peers := s.peers[x := q], clock := s.clock + 1)
             && pk.req.prevIndex <= |q.log| && r == Accepting(q, pk.req) && |r.log| == pk.req.LastIndex()
    requires var e := WithAcc(g, Actor(step), r.currentTerm, |r.log|);
             HistoryGrows(h, g) && HistoryGrows(g, e) && Inv(st, m.(peers := m.peers[Actor(step) := r]), e)
    requires var resp := Some(AppendResponse(step.packet.req.term, true, None));
             Act(st, s, step) == Outcome(Cached(r, step.packet, resp), resp)
    requires RpcsOk(st.cfg, s, Actor(step), s.peers[Actor(step)])
    requires FreshSockets(s.peers[Actor(step)], q, s.clock)
    ensures Kept(st, s, h, step)
  {
    var x, pk := Actor(step), step.packet;
    var e := WithAcc(g, x, r.currentTerm, |r.log|);
    var resp := AppendResponse(pk.req.term, true, None);
    var n := m.(peers := m.peers[x := r]);
    assert m.peers[x := r] == s.peers[x := r];
    HistoryGrowsOn(h, g, e);
    Ends(st, n, e, pk);
    if Awaited(n.peers[pk.conn.src], Answer(pk.conn, pk.id, resp)) { NoRefusal(st.cfg, n, e, pk, resp); }
    AcceptedView(st, s, h, step, q, r, g);
    Finishes(st, s, h, step, r, resp, n, e);
  }

  lemma AcceptedView(st: Setup, s: System, h: History, step: Step, q: Peer, r: Peer, g: History)
    requires Enabled(st, s, step) && step.DeliverRequest? && AcceptsNow(s, step)
    requires var x := Actor(step);
             && g == WithVote(h, x, s.peers[x], q) && q.role == Follower && r.role == Follower
             && r.currentTerm == q.currentTerm && r.votedFor == q.votedFor
    ensures var x := Actor(step);
            Records(h, x, s.peers[x], r, AcceptsNow(s, step), WithAcc(g, x, r.currentTerm, |r.log|))
  {
  }
}
