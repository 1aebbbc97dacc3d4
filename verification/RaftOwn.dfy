// What every peer keeps for itself, whatever it hears: it remembers a reply with every
// request, no vote is counted that did not come, and a leader always has an entry of its
// own term behind what it has still to commit.
module RaftOwn {
  import opened Wrappers
  import opened Quorum
  import opened RaftPeer
  import opened RaftSystem
  import opened RaftSafety

  // A peer that is up remembers a reply with every request in its cache.
  predicate Replied(p: Peer) {
    p.panicked || forall l {:trigger p.cache[l]} :: l in p.cache ==> p.cache[l].lastReplied.Some?
  }

  // What is open can be committed: the last entry is of the leader's term. Alone in its
  // cluster, the leader leaves nothing open.
  predicate CanSettle(cfg: Config, x: PeerId, p: Peer) {
    p.role == Leader && p.commitIndex < |p.log| ==> LastTerm(p.log) == p.currentTerm && !IsSoleMaster(cfg, x)
  }

  predicate Tidy(cfg: Config, x: PeerId, p: Peer) { Replied(p) && p.granted <= p.voted && CanSettle(cfg, x, p) }

  // What stays when the role, the term, the vote or the sockets change.
  predicate SameCounts(p: Peer, q: Peer) {
    q.cache == p.cache && q.panicked == p.panicked && q.voted == p.voted && q.granted == p.granted
  }

  lemma CrownKeeps(st: Setup, x: PeerId, p: Peer, ident: nat)
    ensures var q := Crown(st, x, p, ident);
            && q.role == Leader && q.currentTerm == p.currentTerm && q.log == p.log && q.commitIndex == p.commitIndex
            && SameCounts(p, q) && q.rpcs.Keys == p.rpcs.Keys
            && forall g :: g in q.matchIndex ==> q.matchIndex[g] == 0
  {
  }

  // What the second half of becomeLeader makes of the log: at most a checkpoint is added,
  // and only to entries of earlier terms that are open.
  lemma SettleKeeps(st: Setup, x: PeerId, p: Peer)
    ensures var q := Settle(st, x, p);
            && q.role == p.role && q.currentTerm == p.currentTerm && SameCounts(p, q) && q.rpcs == p.rpcs
            && q.matchIndex == p.matchIndex && p.log <= q.log && (p.log == [] ==> q.log == [])
            && CanSettle(st.cfg, x, q)
            && (q.log != p.log ==>
                  && q.log == p.log + [Entry(p.currentTerm, Checkpoint)]
                  && p.commitIndex < |p.log| && LastTerm(p.log) != p.currentTerm)
  {
    var q := if LastTerm(p.log) != p.currentTerm && p.commitIndex < |p.log|
             then p.(log := p.log + [Entry(p.currentTerm, Checkpoint)])
             else p;
    assert CommitAlone(q) == q.(commitIndex := CommitAlone(q).commitIndex);
    assert Settle(st, x, p) == if IsSoleMaster(st.cfg, x) then CommitAlone(q) else q;
  }

  lemma LeadsWithLog(st: Setup, x: PeerId, p: Peer, ident: nat)
    ensures var q := BecomeLeader(st, x, p, ident);
            && q.role == Leader && q.currentTerm == p.currentTerm && p.log <= q.log
            && SameCounts(p, q) && q.rpcs.Keys == p.rpcs.Keys && CanSettle(st.cfg, x, q)
            && (p.log == [] ==> q.log == []) && forall g :: g in q.matchIndex ==> q.matchIndex[g] == 0
  {
    CrownKeeps(st, x, p, ident);
    SettleKeeps(st, x, Crown(st, x, p, ident));
  }

  // ---------- Every step ----------

  // A candidate or a follower has nothing to settle.
  lemma StaysTidy(cfg: Config, x: PeerId, p: Peer, q: Peer)
    requires Tidy(cfg, x, p) && q.cache == p.cache && q.panicked == p.panicked && q.granted <= q.voted && q.role != Leader
    ensures Tidy(cfg, x, q)
  {
  }

  lemma LeaderTidy(st: Setup, x: PeerId, p: Peer, ident: nat)
    requires Replied(p) && p.granted <= p.voted
    ensures Tidy(st.cfg, x, BecomeLeader(st, x, p, ident))
  {
    LeadsWithLog(st, x, p, ident);
  }

  // A candidate as it is when it starts to ask or to lead.
  ghost function AsCandidate(x: PeerId, p: Peer, ident: nat): (q: Peer)
    ensures q.cache == p.cache && q.panicked == p.panicked && q.role == Candidate && q.granted == q.voted == {x}
  {
    UpdateState(p, Candidate, p.currentTerm + 1, Some(x), ident).(voted := {x}, granted := {x})
  }

  lemma TimeoutTidy(st: Setup, x: PeerId, p: Peer, ident: nat)
    requires Tidy(st.cfg, x, p) && p.role != Leader
    ensures Tidy(st.cfg, x, OnElectionTimeout(st, x, p, ident))
  {
    var q := AsCandidate(x, p, ident);
    StaysTidy(st.cfg, x, p, q);
    if Spiralling(st, p) {
    } else if IsSoleMaster(st.cfg, x) {
      LeaderTidy(st, x, q, ident);
      assert OnElectionTimeout(st, x, p, ident) == BecomeLeader(st, x, q, ident);
    } else {
      assert OnElectionTimeout(st, x, p, ident) == q.(rpcs := OnElectionTimeout(st, x, p, ident).rpcs);
    }
  }

  lemma VoteRequestTidy(st: Setup, x: PeerId, p: Peer, f: PeerId, req: Request, ident: nat)
    requires Tidy(st.cfg, x, p) && req.VoteRequest?
    ensures Tidy(st.cfg, x, OnVoteRequest(st, p, f, req, ident).0)
  {
  }

  lemma AppendRequestTidy(st: Setup, x: PeerId, p: Peer, pk: Packet, ident: nat)
    requires Tidy(st.cfg, x, p) && !p.panicked && pk.req.AppendRequest?
    ensures Tidy(st.cfg, x, Deliver(st, p, pk, ident).peer)
  {
  }

  lemma VoteTidy(cfg: Config, x: PeerId, p: Peer, f: PeerId, granted: bool)
    requires Tidy(cfg, x, p)
    ensures Tidy(cfg, x, Vote(p, f, granted))
  {
  }

  lemma LaterTermTidy(st: Setup, x: PeerId, p: Peer, f: PeerId, sent: nat, term: nat, granted: bool, ident: nat)
    requires Tidy(st.cfg, x, p) && term > p.currentTerm
    ensures Tidy(st.cfg, x, OnVoteResponse(st, x, p, f, sent, term, granted, ident))
  {
    var v := Vote(p, f, false);
    VoteTidy(st.cfg, x, p, f, false);
    StaysTidy(st.cfg, x, v, BecomeFollower(v, term, ident));
    assert OnVoteResponse(st, x, p, f, sent, term, granted, ident)
        == if Spiralling(st, v) then v else BecomeFollower(v, term, ident);
  }

  lemma VoteResponseTidy(st: Setup, x: PeerId, p: Peer, f: PeerId, sent: nat, term: nat, granted: bool, ident: nat)
    requires Tidy(st.cfg, x, p)
    ensures Tidy(st.cfg, x, OnVoteResponse(st, x, p, f, sent, term, granted, ident))
  {
    var q := Vote(p, f, granted);
    VoteTidy(st.cfg, x, p, f, granted);
    if term > p.currentTerm {
      LaterTermTidy(st, x, p, f, sent, term, granted, ident);
    } else if p.currentTerm == sent && p.role == Candidate && IsQuorum(st.cfg, q.granted) {
      LeaderTidy(st, x, q, ident);
      assert OnVoteResponse(st, x, p, f, sent, term, granted, ident) == BecomeLeader(st, x, q, ident);
    } else {
      assert OnVoteResponse(st, x, p, f, sent, term, granted, ident) in {p, q};
    }
  }

  lemma AppendResponseTidy(st: Setup, x: PeerId, p: Peer, f: PeerId, r: Request, resp: Response, ident: nat)
    requires Tidy(st.cfg, x, p) && r.AppendRequest? && resp.AppendResponse?
    ensures Tidy(st.cfg, x, OnAppendResponse(st, x, p, f, r, resp.term, resp.success, resp.conflict, ident))
  {
  }

  lemma RestartTidy(st: Setup, x: PeerId, p: Peer, applied: nat, ident: nat)
    ensures Tidy(st.cfg, x, Restart(st, x, p, applied, ident))
  {
    var booted := Peer(Follower, p.currentTerm, p.votedFor, p.log, applied, applied, {}, {}, map[], map[], map[],
                       Table(Others(st.cfg, x), Rpc(ident, 0, None)), map[], false);
    if IsSoleMaster(st.cfg, x) {
      LeadsWithLog(st, x, booted.(role := Leader, currentTerm := p.currentTerm + 1), ident);
      assert Restart(st, x, p, applied, ident)
          == BecomeLeader(st, x, booted.(role := Leader, currentTerm := p.currentTerm + 1), ident);
    } else {
      assert Restart(st, x, p, applied, ident) == booted;
    }
  }

  lemma ClientTidy(st: Setup, x: PeerId, p: Peer, data: int)
    requires Tidy(st.cfg, x, p)
    ensures Tidy(st.cfg, x, ClientAppend(st, x, p, data))
  {
  }

  lemma ReceiveTidy(st: Setup, x: PeerId, p: Peer, a: Answer, ident: nat)
    requires Tidy(st.cfg, x, p) && Awaited(p, a)
    requires a.resp.VoteResponse? == p.rpcs[a.conn.dst].pending.value.VoteRequest?
    ensures Tidy(st.cfg, x, Receive(st, x, p, a, ident))
  {
    var r := p.rpcs[a.conn.dst].pending.value;
    var q := p.(rpcs := p.rpcs[a.conn.dst := p.rpcs[a.conn.dst].(pending := None)]);
    match a.resp
    case VoteResponse(term, granted) => VoteResponseTidy(st, x, q, a.conn.dst, r.term, term, granted, ident);
    case AppendResponse(_, _, _) => AppendResponseTidy(st, x, q, a.conn.dst, r, a.resp, ident);
  }

  lemma ActTidy(st: Setup, s: System, step: Step)
    requires Enabled(st, s, step) && Tidy(st.cfg, Actor(step), s.peers[Actor(step)])
    ensures Tidy(st.cfg, Actor(step), Act(st, s, step).peer)
  {
    var p, x := s.peers[Actor(step)], Actor(step);
    match step
    case Timeout(_) => TimeoutTidy(st, x, p, s.clock);
    case DeliverRequest(pk) =>
      if pk.req.VoteRequest? {
        VoteRequestTidy(st, x, p, pk.conn.src, pk.req, s.clock);
      } else {
        AppendRequestTidy(st, x, p, pk, s.clock);
      }
    case DeliverAnswer(a) => ReceiveTidy(st, x, p, a, s.clock);
    case Replicate(_, f, count) =>
    case ClientUpdate(_, data) => ClientTidy(st, x, p, data);
    case ApplyLog(_, upTo) =>
    case Crash(_, applied) => RestartTidy(st, x, p, applied, s.clock);
  }

  // ---------- Every run ----------

  lemma {:induction false} AllTidy(st: Setup, s: System, steps: seq<Step>, x: PeerId)
    requires IsRun(st, s, steps) && forall y :: y in s.peers ==> Tidy(st.cfg, y, s.peers[y])
    ensures x in After(st, s, steps).peers ==> Tidy(st.cfg, x, After(st, s, steps).peers[x])
    decreases |steps|
  {
    if steps != [] {
      ActTidy(st, s, steps[0]);
      var z := Next(st, s, steps[0]);
      assert z.peers == s.peers[Actor(steps[0]) := Act(st, s, steps[0]).peer];
      AllTidy(st, z, steps[1..], x);
    }
  }

  lemma IsTidy(st: Setup, s: System, x: PeerId)
    requires Reached(st, s) && x in s.peers
    ensures Tidy(st.cfg, x, s.peers[x])
  {
    var steps :| IsRun(st, Init(st), steps) && After(st, Init(st), steps) == s;
    AllTidy(st, Init(st), steps, x);
  }

  // In every reached state, a leader that has something to commit has an entry of its own
  // term at the end of its log, so that an acknowledgement of all of it can commit all of
  // it; and a leader without followers has committed everything.
  lemma LeaderCanSettle(st: Setup, s: System, x: PeerId)
    requires Reached(st, s) && x in s.peers && s.peers[x].role == Leader
    ensures s.peers[x].commitIndex < |s.peers[x].log| ==>
              LastTerm(s.peers[x].log) == s.peers[x].currentTerm && Others(st.cfg, x) != {}
  {
    IsTidy(st, s, x);
  }
}
