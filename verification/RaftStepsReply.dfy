// Every step of the cluster keeps the invariant: a reply that arrives.
module RaftStepsReply {
  import opened Wrappers
  import opened Quorum
  import opened RaftPeer
  import opened RaftSystem
  import opened RaftInvariant
  import opened RaftLogs
  import opened RaftCore
  import opened RaftCoreLeader
  import opened RaftCoreFollower
  import opened RaftNet
  import opened RaftNetTerm
  import opened RaftNetFollower
  import opened RaftSteps

  // The socket after the reply.
  function Resolved(p: Peer, f: PeerId): Peer
    requires f in p.rpcs
  {
    p.(rpcs := p.rpcs[f := p.rpcs[f].(pending := None)])
  }

  // The request a reply answers is the pending one.
  lemma AnswersPending(st: Setup, s: System, h: History, a: Answer)
    requires Inv(st, s, h) && a in s.answers && a.conn.src in s.peers && Awaited(s.peers[a.conn.src], a)
    ensures AnswerTo(h, a, PendingPacket(s.peers[a.conn.src], a))
  {
    var p := s.peers[a.conn.src];
    var pk := PendingPacket(p, a);
    assert ReplyOk(s, h, a) && SocketsOk(st.cfg, s, h, a.conn.src, p);
    var c :| c in s.sent && AnswerTo(h, a, c);
    assert PairOk(s, h, c, pk);
  }

  // A leader or candidate learns of a later term and steps down.
  lemma StepsDown(st: Setup, s: System, h: History, step: Step, q: Peer)
    requires Inv(st, s, h) && Enabled(st, s, step) && step.DeliverAnswer? && Act(st, s, step).peer == q
    requires var p := s.peers[Actor(step)];
             && q.role == Follower && q.currentTerm > p.currentTerm && q.votedFor.None? && q.log == p.log
             && q.commitIndex == p.commitIndex && q.lastApplied == p.lastApplied && q.cache == p.cache
             && q.rpcs == ResetAll(Resolved(p, step.answer.conn.dst).rpcs, s.clock)
    ensures Kept(st, s, h, step)
  {
    var x := Actor(step);
    Facts(st, s, h, x);
    DownView(st.cfg, s, h, x, step.answer.conn.dst, q);
    Changes(st, s, h, step, q);
  }

  lemma DownView(cfg: Config, s: System, h: History, x: PeerId, f: PeerId, q: Peer)
    requires x in s.peers && RpcsOk(cfg, s, x, s.peers[x]) && CommitOk(cfg, h, s.peers[x]) && f in s.peers[x].rpcs
    requires var p := s.peers[x];
             && q.role == Follower && q.currentTerm > p.currentTerm && q.votedFor.None? && q.log == p.log
             && q.commitIndex == p.commitIndex && q.lastApplied == p.lastApplied && q.cache == p.cache
             && q.rpcs == ResetAll(Resolved(p, f).rpcs, s.clock)
    ensures TermChange(cfg, s.peers, h, x, s.peers[x], q) && FreshSockets(s.peers[x], q, s.clock)
  {
  }

  // ---------- Votes ----------

  // The candidate after counting the reply.
  function Counted(p: Peer, a: Answer): Peer
    requires a.conn.dst in p.rpcs && a.resp.VoteResponse?
  {
    Vote(Resolved(p, a.conn.dst), a.conn.dst, a.resp.granted && a.resp.term <= p.currentTerm)
  }

  lemma VoteView(st: Setup, s: System, h: History, step: Step)
    requires Enabled(st, s, step) && step.DeliverAnswer? && step.answer.resp.VoteResponse?
    requires RpcsOk(st.cfg, s, Actor(step), s.peers[Actor(step)])
    ensures var p, a := s.peers[Actor(step)], step.answer;
            var v := Counted(p, a);
            && p.role == Candidate
            && Act(st, s, step).peer ==
                 if a.resp.term > p.currentTerm
                 then if Spiralling(st, v) then v else BecomeFollower(v, a.resp.term, s.clock)
                 else if IsQuorum(st.cfg, v.granted) then BecomeLeader(st, Actor(step), v, s.clock)
                 else v
  {
  }

  lemma CountedQuiet(cfg: Config, h: History, x: PeerId, p: Peer, a: Answer)
    requires VotingOk(cfg, h, x, p) && p.lastApplied <= p.commitIndex && p.role == Candidate
    requires a.conn.src == x && Awaited(p, a) && a.resp.VoteResponse?
    requires p.rpcs[a.conn.dst].pending.value.term == p.currentTerm && AnswerTo(h, a, PendingPacket(p, a))
    ensures Quiet(h, x, p, Counted(p, a))
    ensures p.votedFor == Some(x) && x in Counted(p, a).granted && p.currentTerm > 0
  {
    assert GrantedTo(h, x, p.currentTerm, x);
  }

  lemma CountedUnseen(s: System, x: PeerId, p: Peer, a: Answer)
    requires Awaited(p, a) && a.resp.VoteResponse? && p.role == Candidate && CacheOk(s, x, p)
    ensures Unseen(p, Counted(p, a)) && CacheOk(s, x, Counted(p, a))
  {
  }

  // A vote that is counted was given.
  lemma VoteCounted(st: Setup, s: System, h: History, x: PeerId, a: Answer, v: Peer)
    requires Inv(st, s, h) && x in s.peers && a in s.answers && a.conn.src == x && Awaited(s.peers[x], a)
    requires a.resp.VoteResponse? && s.peers[x].role == Candidate && v == Counted(s.peers[x], a)
    ensures Inv(st, s.(peers := s.peers[x := v]), h)
    ensures s.peers[x].votedFor == Some(x) && x in v.granted && s.peers[x].currentTerm > 0
  {
    Facts(st, s, h, x);
    AnswersPending(st, s, h, a);
    CountedQuiet(st.cfg, h, x, s.peers[x], a);
    CountedUnseen(s, x, s.peers[x], a);
    Silent(st, s, h, x, v);
  }

  lemma StepVoteAnswer(st: Setup, s: System, h: History, step: Step)
    requires Inv(st, s, h) && Enabled(st, s, step) && step.DeliverAnswer? && step.answer.resp.VoteResponse?
    ensures Kept(st, s, h, step)
  {
    var x, a := Actor(step), step.answer;
    var v := Counted(s.peers[x], a);
    Facts(st, s, h, x);
    VoteView(st, s, h, step);
    if a.resp.term > s.peers[x].currentTerm && !Spiralling(st, v) {
      StepsDown(st, s, h, step, BecomeFollower(v, a.resp.term, s.clock));
    } else {
      VoteCounted(st, s, h, x, a, v);
      if a.resp.term <= s.peers[x].currentTerm && IsQuorum(st.cfg, v.granted) {
        VoteWins(st, s, h, step, v);
      } else {
        VoteStays(st, s, h, step, v);
      }
    }
  }

  lemma VoteStays(st: Setup, s: System, h: History, step: Step, v: Peer)
    requires Enabled(st, s, step) && step.DeliverAnswer? && Act(st, s, step).peer == v
    requires var x, a := Actor(step), step.answer;
             && a.resp.VoteResponse? && v == Counted(s.peers[x], a)
             && Inv(st, s.(peers := s.peers[x := v]), h)
             && PeerOk(st.cfg, h, x, s.peers[x]) && RpcsOk(st.cfg, s, x, s.peers[x])
    ensures Kept(st, s, h, step)
  {
    var x := Actor(step);
    VoteUnnoted(st, s, h, x, step.answer.conn.dst, v);
    Arrived(st, s, h, step, v, h);
  }

  lemma VoteUnnoted(st: Setup, s: System, h: History, x: PeerId, f: PeerId, v: Peer)
    requires x in s.peers && PeerOk(st.cfg, h, x, s.peers[x]) && RpcsOk(st.cfg, s, x, s.peers[x])
    requires var p := s.peers[x];
             && f in p.rpcs && v.role == p.role && v.currentTerm == p.currentTerm && v.votedFor == p.votedFor
             && v.log == p.log && v.rpcs == Resolved(p, f).rpcs
    ensures Noted(h, x, s.peers[x], v, h)
    ensures Moves(s, x, v, s.(peers := s.peers[x := v]).(clock := s.clock + 1))
  {
    NothingNew(st.cfg, h, x, s.peers[x], v);
    AlreadySent(st.cfg, s, x, s.peers[x], v);
  }

  // The vote that completes the quorum.
  lemma VoteWins(st: Setup, s: System, h: History, step: Step, v: Peer)
    requires Enabled(st, s, step) && step.DeliverAnswer?
    requires var x := Actor(step);
             && Act(st, s, step).peer == BecomeLeader(st, x, v, s.clock)
             && Inv(st, s.(peers := s.peers[x := v]), h) && PeerOk(st.cfg, h, x, s.peers[x])
             && Heir(st.cfg, x, v, v) && IsQuorum(st.cfg, v.granted) && v.votedFor == Some(x) && x in v.granted
             && v.log == s.peers[x].log && v.role == s.peers[x].role && v.currentTerm == s.peers[x].currentTerm
             && v.votedFor == s.peers[x].votedFor
    ensures Kept(st, s, h, step)
  {
    var x := Actor(step);
    var q, m := BecomeLeader(st, x, v, s.clock), s.(peers := s.peers[x := v]);
    var z := System(m.peers[x := q], s.sent + PendingPackets(x, q), s.answers, s.high, s.clock + 1);
    Crowned(st, m, h, x, v, s.clock, z);
    WinsView(st, s, h, x, v, q, z);
    Moved(st, s, h, step, q, z, WithLog(WithTerm(h, x, v), x, v.currentTerm, q.log));
  }

  lemma WinsView(st: Setup, s: System, h: History, x: PeerId, v: Peer, q: Peer, z: System)
    requires x in s.peers && q == BecomeLeader(st, x, v, s.clock) && PeerOk(st.cfg, h, x, s.peers[x])
    requires v.role == Candidate && v.votedFor == Some(x) && x in v.granted && v.currentTerm !in h.terms
    requires v.log == s.peers[x].log && v.role == s.peers[x].role && v.currentTerm == s.peers[x].currentTerm
    requires v.votedFor == s.peers[x].votedFor
    requires z == System(s.peers[x := v][x := q], s.sent + PendingPackets(x, q), s.answers, s.high, s.clock + 1)
    ensures Moves(s, x, q, z)
    ensures Noted(h, x, s.peers[x], q, WithLog(WithTerm(h, x, v), x, v.currentTerm, q.log))
  {
    BecomesLeader(st, x, v, s.clock);
    WinsNoted(st.cfg, h, x, s.peers[x], v, q);
    assert s.peers[x := v][x := q] == s.peers[x := q];
  }

  lemma WinsNoted(cfg: Config, h: History, x: PeerId, p: Peer, v: Peer, q: Peer)
    requires PeerOk(cfg, h, x, p) && v.role == Candidate && v.votedFor == Some(x) && x in v.granted
    requires v.log == p.log && v.role == p.role && v.currentTerm == p.currentTerm && v.votedFor == p.votedFor
    requires v.currentTerm !in h.terms && q.role == Leader && q.currentTerm == v.currentTerm && q.granted == v.granted
    ensures Noted(h, x, p, q, WithLog(WithTerm(h, x, v), x, v.currentTerm, q.log))
  {
    NothingNew(cfg, h, x, p, v);
    assert WithVote(h, x, p, v) == h;
    CrownedHistory(h, x, p, v, q);
  }

  // ---------- Acceptances and refusals ----------

  // What the leader knows after the reply, before it looks for a new commit index.
  ghost predicate Learns(s: System, step: Step, m: Peer) {
    && step.DeliverAnswer? && Actor(step) in s.peers
    && LearnsFrom(s.peers[Actor(step)], step.answer, m)
  }

  predicate CommitsNow(cfg: Config, x: PeerId, m: Peer, a: Answer, r: Request)
    requires r.AppendRequest? && a.resp.AppendResponse?
  {
    && a.resp.success && r.SentLastTerm() == r.term && r.LastIndex() > m.commitIndex
    && IsQuorum(cfg, HoldersOf(x, r.LastIndex(), m.matchIndex))
  }

  lemma AppendView(st: Setup, s: System, h: History, step: Step, m: Peer)
    requires Enabled(st, s, step) && Learns(s, step, m)
    requires RpcsOk(st.cfg, s, Actor(step), s.peers[Actor(step)])
    ensures var p, a := s.peers[Actor(step)], step.answer;
            var r := p.rpcs[a.conn.dst].pending.value;
            && p.role == Leader && r.term == p.currentTerm
            && Act(st, s, step).peer ==
                 if a.resp.term > p.currentTerm then BecomeFollower(Resolved(p, a.conn.dst), a.resp.term, s.clock)
                 else if CommitsNow(st.cfg, Actor(step), m, a, r) then m.(commitIndex := r.LastIndex())
                 else m
  {
    var x := Actor(step);
    ReceivesAppend(st, x, s.peers[x], step.answer, s.clock, m);
  }

  // What a leader makes of a reply to its request.
  ghost predicate LearnsFrom(p: Peer, a: Answer, m: Peer) {
    && Awaited(p, a) && a.resp.AppendResponse? && p.rpcs[a.conn.dst].pending.value.AppendRequest?
    && var f, r := a.conn.dst, p.rpcs[a.conn.dst].pending.value;
    && m == if a.resp.success
            then Resolved(p, f).(matchIndex := p.matchIndex[f := r.LastIndex()],
                                 matchTerm := p.matchTerm[f := r.SentLastTerm()],
                                 nextIndex := p.nextIndex[f := r.LastIndex() + 1])
            else Resolved(p, f).(nextIndex := p.nextIndex[f := NextIndexAfterRefusal(r.prevIndex, a.resp.conflict)])
  }

  lemma ReceivesAppend(st: Setup, x: PeerId, p: Peer, a: Answer, ident: nat, m: Peer)
    requires LearnsFrom(p, a, m) && p.role == Leader && p.rpcs[a.conn.dst].pending.value.term == p.currentTerm
    ensures Receive(st, x, p, a, ident)
            == if a.resp.term > p.currentTerm then BecomeFollower(Resolved(p, a.conn.dst), a.resp.term, ident)
               else if CommitsNow(st.cfg, x, m, a, p.rpcs[a.conn.dst].pending.value)
                    then m.(commitIndex := p.rpcs[a.conn.dst].pending.value.LastIndex())
               else m
  {
    AnswersAppend(st, x, Resolved(p, a.conn.dst), a, p.rpcs[a.conn.dst].pending.value, ident);
  }

  // The same of the leader once the request is no longer pending.
  lemma AnswersAppend(st: Setup, x: PeerId, q: Peer, a: Answer, r: Request, ident: nat)
    requires a.resp.AppendResponse? && r.AppendRequest? && q.role == Leader && r.term == q.currentTerm
    ensures var f := a.conn.dst;
            var m := if a.resp.success
                     then q.(matchIndex := q.matchIndex[f := r.LastIndex()],
                             matchTerm := q.matchTerm[f := r.SentLastTerm()],
                             nextIndex := q.nextIndex[f := r.LastIndex() + 1])
                     else q.(nextIndex := q.nextIndex[f := NextIndexAfterRefusal(r.prevIndex, a.resp.conflict)]);
            OnAppendResponse(st, x, q, f, r, a.resp.term, a.resp.success, a.resp.conflict, ident)
            == if a.resp.term > q.currentTerm then BecomeFollower(q, a.resp.term, ident)
               else if CommitsNow(st.cfg, x, m, a, r) then m.(commitIndex := r.LastIndex())
               else m
  {
  }

  lemma LearnView(st: Setup, s: System, h: History, step: Step, m: Peer)
    requires Enabled(st, s, step) && Learns(s, step, m) && step.answer.resp.term <= s.peers[Actor(step)].currentTerm
    requires SocketsOk(st.cfg, s, h, Actor(step), s.peers[Actor(step)])
    ensures LearnStep(st.cfg, s, h, Actor(step), step.answer, m, s.(peers := s.peers[Actor(step) := m]))
  {
  }

  lemma Learned(st: Setup, s: System, h: History, step: Step, m: Peer)
    requires Inv(st, s, h) && Enabled(st, s, step) && Learns(s, step, m)
    requires step.answer.resp.term <= s.peers[Actor(step)].currentTerm
    ensures Inv(st, s.(peers := s.peers[Actor(step) := m]), h)
    ensures step.answer.conn.dst in s.peers[Actor(step)].nextIndex
    ensures !step.answer.resp.success ==>
              1 <= m.nextIndex[step.answer.conn.dst] < s.peers[Actor(step)].nextIndex[step.answer.conn.dst]
  {
    var x := Actor(step);
    Facts(st, s, h, x);
    LearnView(st, s, h, step, m);
    LearnNet(st.cfg, s, h, x, step.answer, m, s.(peers := s.peers[x := m]));
    QuietCore(st.cfg, s.peers, h, x, m);
  }

  lemma StepAppendAnswer(st: Setup, s: System, h: History, step: Step)
    requires Inv(st, s, h) && Enabled(st, s, step) && step.DeliverAnswer? && step.answer.resp.AppendResponse?
    ensures Kept(st, s, h, step)
  {
    var x, a := Actor(step), step.answer;
    var p, f := s.peers[x], a.conn.dst;
    var r := p.rpcs[f].pending.value;
    var m := if a.resp.success
             then Resolved(p, f).(matchIndex := p.matchIndex[f := r.LastIndex()],
                                  matchTerm := p.matchTerm[f := r.SentLastTerm()],
                                  nextIndex := p.nextIndex[f := r.LastIndex() + 1])
             else Resolved(p, f).(nextIndex := p.nextIndex[f := NextIndexAfterRefusal(r.prevIndex, a.resp.conflict)]);
    Facts(st, s, h, x);
    AppendView(st, s, h, step, m);
    if a.resp.term > p.currentTerm {
      StepsDown(st, s, h, step, BecomeFollower(Resolved(p, f), a.resp.term, s.clock));
    } else {
      Learned(st, s, h, step, m);
      if CommitsNow(st.cfg, x, m, a, r) {
        LearnedCommits(st, s, h, step, m, r);
      } else {
        LearnedOnly(st, s, h, step, m);
      }
    }
  }

  lemma LearnedOnly(st: Setup, s: System, h: History, step: Step, m: Peer)
    requires Enabled(st, s, step) && Learns(s, step, m) && Act(st, s, step).peer == m
    requires PeerOk(st.cfg, h, Actor(step), s.peers[Actor(step)])
    requires RpcsOk(st.cfg, s, Actor(step), s.peers[Actor(step)])
    requires Inv(st, s.(peers := s.peers[Actor(step) := m]), h)
    ensures Kept(st, s, h, step)
  {
    var x := Actor(step);
    LearnedMoves(st, s, h, x, step.answer.conn.dst, m, m);
    Arrived(st, s, h, step, m, h);
  }

  lemma LearnedCommits(st: Setup, s: System, h: History, step: Step, m: Peer, r: Request)
    requires Enabled(st, s, step) && Learns(s, step, m) && r.AppendRequest?
    requires Act(st, s, step).peer == m.(commitIndex := r.LastIndex())
    requires r == s.peers[Actor(step)].rpcs[step.answer.conn.dst].pending.value
    requires CommitsNow(st.cfg, Actor(step), m, step.answer, r) && r.term == m.currentTerm && m.role == Leader
    requires PeerOk(st.cfg, h, Actor(step), s.peers[Actor(step)])
    requires RpcsOk(st.cfg, s, Actor(step), s.peers[Actor(step)])
    requires Inv(st, s.(peers := s.peers[Actor(step) := m]), h)
    ensures Kept(st, s, h, step)
  {
    var x, q := Actor(step), m.(commitIndex := r.LastIndex());
    var n := s.(peers := s.peers[x := m]);
    CommitLearned(st, n, h, x, step.answer, r);
    LearnedMoves(st, s, h, x, step.answer.conn.dst, m, q);
    Arrived(st, s, h, step, q, h);
  }

  lemma LearnedMoves(st: Setup, s: System, h: History, x: PeerId, f: PeerId, m: Peer, q: Peer)
    requires x in s.peers && PeerOk(st.cfg, h, x, s.peers[x]) && RpcsOk(st.cfg, s, x, s.peers[x])
    requires var p := s.peers[x];
             && f in p.rpcs && q.role == p.role && q.currentTerm == p.currentTerm && q.votedFor == p.votedFor
             && q.log == p.log && q.rpcs == Resolved(p, f).rpcs
    ensures Noted(h, x, s.peers[x], q, h)
    ensures s.peers[x := m][x := q] == s.peers[x := q]
    ensures Moves(s, x, q, s.(peers := s.peers[x := q]).(clock := s.clock + 1))
  {
    VoteUnnoted(st, s, h, x, f, q);
  }

  // The index just acknowledged, if it is of the leader's term and a majority has it.
  lemma CommitLearned(st: Setup, n: System, h: History, x: PeerId, a: Answer, r: Request)
    requires Inv(st, n, h) && x in n.peers && n.peers[x].role == Leader && a.conn.dst in Others(st.cfg, x)
    requires r.AppendRequest? && a.resp.AppendResponse? && r.term == n.peers[x].currentTerm
    requires var m := n.peers[x];
             && a.conn.dst in m.matchIndex && m.matchIndex[a.conn.dst] == r.LastIndex()
             && a.conn.dst in m.matchTerm && m.matchTerm[a.conn.dst] == r.SentLastTerm()
             && CommitsNow(st.cfg, x, m, a, r)
    ensures Inv(st, n.(peers := n.peers[x := n.peers[x].(commitIndex := r.LastIndex())]), h)
  {
    Facts(st, n, h, x);
    assert KnowsOk(n, h, x, n.peers[x], a.conn.dst);
    LeaderCommit(st, n, h, x, r.LastIndex());
  }
}
