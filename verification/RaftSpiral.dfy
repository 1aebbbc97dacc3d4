// What preventSpiralElections is for: a candidate that a majority has not answered stays in
// its term, however often its timer goes off and whatever terms it hears of, and goes on as
// soon as a majority has answered.
module RaftSpiral {
  import opened Wrappers
  import opened Quorum
  import opened RaftPeer
  import opened RaftSystem
  import opened RaftInvariant
  import opened RaftSteps
  import opened RaftSafety
  import opened RaftElections
  import opened RaftOwn

  // A timeout raises the term of a peer that does not lead, unless it is a candidate with
  // preventSpiralElections whose term a majority has not answered; then nothing changes.
  lemma TimeoutRaisesTermIff(st: Setup, s: System, x: PeerId)
    requires Enabled(st, s, Timeout(x))
    ensures var p, q := s.peers[x], Act(st, s, Timeout(x)).peer;
            if st.preventSpiral && p.role == Candidate && !IsQuorum(st.cfg, p.voted) then q == p
            else q.currentTerm == p.currentTerm + 1 && q.role == (if Others(st.cfg, x) == {} then Leader else Candidate)
  {
    var p := s.peers[x];
    var q := AsCandidate(x, p, s.clock);
    if IsSoleMaster(st.cfg, x) { LeadsWithLog(st, x, q, s.clock); }
    assert OnElectionTimeout(st, x, p, s.clock)
        == if Spiralling(st, p) then p
           else if IsSoleMaster(st.cfg, x) then BecomeLeader(st, x, q, s.clock)
           else q.(rpcs := OnElectionTimeout(st, x, p, s.clock).rpcs);
  }

  // Those whose replies x hears in the run.
  function Answerers(steps: seq<Step>, x: PeerId): set<PeerId> {
    set i | 0 <= i < |steps| && steps[i].DeliverAnswer? && steps[i].answer.conn.src == x :: steps[i].answer.conn.dst
  }

  // No leader makes itself known to x, and x does not start again.
  predicate Secluded(step: Step, x: PeerId) {
    && (step.Crash? ==> step.me != x)
    && (step.DeliverRequest? && step.packet.conn.dst == x ==> step.packet.req.VoteRequest?)
  }

  // A candidate that is as it was, but for the answers.
  predicate Unmoved(p: Peer, q: Peer, heard: set<PeerId>) {
    && q.role == Candidate && q.currentTerm == p.currentTerm && q.votedFor == p.votedFor && q.log == p.log
    && q.granted <= q.voted <= p.voted + heard
  }

  predicate AsksVotesOnly(p: Peer) {
    forall f {:trigger p.rpcs[f]} :: f in p.rpcs && p.rpcs[f].pending.Some? ==> p.rpcs[f].pending.value.VoteRequest?
  }

  lemma CannotMove(st: Setup, x: PeerId, p: Peer, a: Answer, ident: nat)
    requires st.preventSpiral && p.role == Candidate && p.granted <= p.voted && Awaited(p, a) && a.resp.VoteResponse?
    requires p.rpcs[a.conn.dst].pending.value.VoteRequest? && !IsQuorum(st.cfg, p.voted + {a.conn.dst})
    ensures var q := Receive(st, x, p, a, ident);
            Unmoved(p, q, {a.conn.dst}) && q.rpcs == p.rpcs[a.conn.dst := p.rpcs[a.conn.dst].(pending := None)]
  {
    var f := a.conn.dst;
    var r := p.rpcs[f].pending.value;
    var q := p.(rpcs := p.rpcs[f := p.rpcs[f].(pending := None)]);
    var v, w := Vote(q, f, a.resp.granted), Vote(q, f, false);
    if f in p.voted { assert p.voted + {f} == p.voted; }
    if IsQuorum(st.cfg, v.granted) { QuorumGrows(st.cfg, v.granted, p.voted + {f}); }
    assert Receive(st, x, p, a, ident) == OnVoteResponse(st, x, q, f, r.term, a.resp.term, a.resp.granted, ident);
    assert OnVoteResponse(st, x, q, f, r.term, a.resp.term, a.resp.granted, ident)
        == if a.resp.term > p.currentTerm then w else if p.currentTerm == r.term then v else q;
  }

  lemma StaysPut(st: Setup, s: System, step: Step, x: PeerId)
    requires Enabled(st, s, step) && Secluded(step, x) && x in s.peers
    requires var p := s.peers[x];
             && st.preventSpiral && p.role == Candidate && p.granted <= p.voted && AsksVotesOnly(p)
             && !IsQuorum(st.cfg, p.voted + Answerers([step], x))
    ensures var q := Next(st, s, step).peers[x];
            Unmoved(s.peers[x], q, Answerers([step], x)) && AsksVotesOnly(q)
  {
    var p := s.peers[x];
    if Actor(step) == x {
      if step.DeliverAnswer? {
        assert Answerers([step], x) == {step.answer.conn.dst} by { assert [step][0] == step; }
        CannotMove(st, x, p, step.answer, s.clock);
      } else {
        assert Answerers([step], x) == {};
        assert p.voted + {} == p.voted;
        HeldStays(st, s, step, x);
      }
    }
  }

  lemma HeldStays(st: Setup, s: System, step: Step, x: PeerId)
    requires Enabled(st, s, step) && Secluded(step, x) && Actor(step) == x && !step.DeliverAnswer? && HeldBack(st, s.peers[x])
    ensures var p, q := s.peers[x], Act(st, s, step).peer; q == p.(lastApplied := q.lastApplied)
  {
    match step
    case Timeout(_) => TimeoutRaisesTermIff(st, s, x);
    case DeliverRequest(pk) =>
      assert OnVoteRequest(st, s.peers[x], pk.conn.src, pk.req, s.clock).0 == s.peers[x];
    case ApplyLog(_, upTo) =>
  }

  lemma AnswerersSplit(steps: seq<Step>, x: PeerId)
    requires steps != []
    ensures Answerers(steps, x) == Answerers([steps[0]], x) + Answerers(steps[1..], x)
  {
    forall f | f in Answerers(steps, x) ensures f in Answerers([steps[0]], x) + Answerers(steps[1..], x) {
      var i :| 0 <= i < |steps| && steps[i].DeliverAnswer? && steps[i].answer.conn.src == x && steps[i].answer.conn.dst == f;
      if i == 0 { assert [steps[0]][0] == steps[i]; } else { assert steps[1..][i - 1] == steps[i]; }
    }
  }

  lemma {:induction false} StaysInTerm(st: Setup, s: System, steps: seq<Step>, x: PeerId)
    requires IsRun(st, s, steps) && x in s.peers && (forall i :: 0 <= i < |steps| ==> Secluded(steps[i], x))
    requires var p := s.peers[x];
             && st.preventSpiral && p.role == Candidate && p.granted <= p.voted && AsksVotesOnly(p)
             && !IsQuorum(st.cfg, p.voted + Answerers(steps, x))
    ensures x in After(st, s, steps).peers && Unmoved(s.peers[x], After(st, s, steps).peers[x], Answerers(steps, x))
    decreases |steps|
  {
    if steps != [] {
      var p, one, rest := s.peers[x], Answerers([steps[0]], x), Answerers(steps[1..], x);
      AnswerersSplit(steps, x);
      NotMore(st.cfg, p.voted + one, p.voted + (one + rest));
      StaysPut(st, s, steps[0], x);
      var z := Next(st, s, steps[0]);
      NotMore(st.cfg, z.peers[x].voted + rest, p.voted + (one + rest));
      StaysInTerm(st, z, steps[1..], x);
    }
  }

  lemma NotMore(cfg: Config, a: set<PeerId>, b: set<PeerId>)
    requires a <= b && !IsQuorum(cfg, b)
    ensures !IsQuorum(cfg, a)
  {
    if IsQuorum(cfg, a) { QuorumGrows(cfg, a, b); }
  }

  // From every reached state: a candidate with preventSpiralElections goes on standing in
  // the same term, for itself and with the same log, through every run in which no leader
  // makes itself known to it, it does not start again, and those who have answered are no
  // quorum: timeouts and votes asked in later terms do not drive its term up.
  lemma NoSpiral(st: Setup, s: System, steps: seq<Step>, x: PeerId)
    requires ValidSetup(st) && Reached(st, s) && x in s.peers && st.preventSpiral && s.peers[x].role == Candidate
    requires IsRun(st, s, steps) && forall i :: 0 <= i < |steps| ==> Secluded(steps[i], x)
    requires !IsQuorum(st.cfg, s.peers[x].voted + Answerers(steps, x))
    ensures var z := After(st, s, steps); x in z.peers && Unmoved(s.peers[x], z.peers[x], Answerers(steps, x))
  {
    CandidateAsks(st, s, x);
    StaysInTerm(st, s, steps, x);
  }

  lemma CandidateAsks(st: Setup, s: System, x: PeerId)
    requires ValidSetup(st) && Reached(st, s) && x in s.peers && s.peers[x].role == Candidate
    ensures AsksVotesOnly(s.peers[x]) && s.peers[x].granted <= s.peers[x].voted
  {
    IsTidy(st, s, x);
    var h := WitnessOf(st, s);
    Facts(st, s, h, x);
  }
}
