// What a follower answers, and what the leader learns from it: a request is accepted
// exactly when both logs agree up to where it starts, a refusal tells how far to go back,
// and a commit index is passed on with the entries.
module RaftReplies {
  import opened Wrappers
  import opened Quorum
  import opened RaftPeer
  import opened RaftSystem
  import opened RaftInvariant
  import opened RaftLogs
  import opened RaftCore
  import opened RaftSteps
  import opened RaftStepsRequest
  import opened RaftSafety
  import opened RaftCommit
  import opened RaftElections

  // ---------- Acceptance ----------

  // In every reached state, a request that is not taken for a duplicate is accepted if and
  // only if it is not of an earlier term, starts at or behind the commit index, and the
  // follower's log agrees up to there with the log of the term's leader. That log is the
  // one of any earlier moment m at which the sender led the term and had all before the
  // request.
  lemma AcceptsIffAgrees(st: Setup, s: System, m: System, pk: Packet)
    requires ValidSetup(st) && Reached(st, s) && Enabled(st, s, DeliverRequest(pk)) && pk.req.AppendRequest?
    requires !Bounced(s.peers[pk.conn.dst], pk)
    requires Reached(st, m) && Leads(st, m, s) && LeadsIt(m, pk) && pk.req.prevIndex <= |m.peers[pk.conn.src].log|
    ensures var p, r := s.peers[pk.conn.dst], pk.req;
            Act(st, s, DeliverRequest(pk)).reply == Some(AppendResponse(r.term, true, None)) <==>
              && r.term >= p.currentTerm && r.prevIndex >= p.commitIndex
              && Agree(p.log, m.peers[pk.conn.src].log, r.prevIndex)
  {
    TermsTell(st, s, m, pk);
    AnswersYes(st, s.peers[pk.conn.dst], pk, s.clock);
  }

  lemma AnswersYes(st: Setup, p: Peer, pk: Packet, ident: nat)
    requires pk.req.AppendRequest? && !Bounced(p, pk)
    ensures Deliver(st, p, pk, ident).reply == Some(AppendResponse(pk.req.term, true, None)) <==> Accepts(p, pk.req)
  {
  }

  lemma TermsTell(st: Setup, s: System, m: System, pk: Packet)
    requires ValidSetup(st) && Reached(st, s) && pk in s.sent && pk.req.AppendRequest? && pk.conn.dst in s.peers
    requires Reached(st, m) && Leads(st, m, s) && LeadsIt(m, pk) && pk.req.prevIndex <= |m.peers[pk.conn.src].log|
    ensures TermAt(s.peers[pk.conn.dst].log, pk.req.prevIndex) == Some(pk.req.prevTerm)
            <==> Agree(s.peers[pk.conn.dst].log, m.peers[pk.conn.src].log, pk.req.prevIndex)
  {
    var g, h := Witness(st, m, s);
    Ends(st, s, h, pk);
    Facts(st, s, h, pk.conn.dst);
    Facts(st, m, g, pk.conn.src);
    assert TermGrows(pk.req.term, g.terms[pk.req.term], h.terms[pk.req.term]);
    assert TermOk(st.cfg, h, pk.req.term, h.terms[pk.req.term]);
    SameTermAgrees(h, s.peers[pk.conn.dst].log, h.terms[pk.req.term].log, m.peers[pk.conn.src].log, pk.req.prevIndex, pk.req.prevTerm);
  }

  lemma SameTermAgrees(h: History, a: Log, b: Log, l: Log, n: nat, term: nat)
    requires Rooted(h, a) && Rooted(h, b) && l <= b && n <= |l| && TermAt(b, n) == Some(term)
    ensures TermAt(a, n) == Some(term) <==> Agree(a, l, n)
  {
    assert b[..n] == l[..n];
    if TermAt(a, n) == Some(term) { LogsMatch(h, a, b, n); }
    if Agree(a, l, n) { AgreeTerm(a, l, n); }
  }

  // ---------- Refusal ----------

  // After a refusal the leader goes one entry back, or, if the follower's log is shorter
  // than that, right to its end.
  lemma RefusalGoesBack(st: Setup, p: Peer, f: PeerId, g: Peer, ident: nat)
    requires f in p.rpcs && p.rpcs[f].pending.Some? && p.rpcs[f].pending.value.AppendRequest?
    requires g.currentTerm <= p.rpcs[f].pending.value.term && g.commitIndex <= p.rpcs[f].pending.value.prevIndex
    ensures var r := p.rpcs[f].pending.value;
            var reply := OnAppendRequest(g, r, ident).1;
            reply.Some? && reply.value.AppendResponse? && (!reply.value.success ==>
              var q := Refused(p, f, reply.value.conflict);
              q.nextIndex == p.nextIndex[f := if |g.log| < r.prevIndex then |g.log| + 1 else r.prevIndex])
  {
  }

  // ---------- Commit ----------

  // A follower that accepts what the leader has for it commits as much of it as the leader
  // has committed, and no less than before.
  lemma CommitIsPassedOn(p: Peer, f: PeerId, count: nat, g: Peer, ident: nat)
    requires CanSendAppend(p, f, count) && Accepts(g, AppendRequestFor(p, f, count))
    ensures var last := p.nextIndex[f] - 1 + count;
            var q := OnAppendRequest(g, AppendRequestFor(p, f, count), ident).0;
            && |q.log| == last
            && q.commitIndex == if p.commitIndex <= g.commitIndex then g.commitIndex
                                else if p.commitIndex < last then p.commitIndex else last
  {
  }

  // ---------- Terms ----------

  // The term that a message is of.
  function TermOf(step: Step): nat
    requires step.DeliverRequest? || step.DeliverAnswer?
  {
    if step.DeliverRequest? then step.packet.req.term else step.answer.resp.term
  }

  // The peer is held back, also when what it hears is counted.
  predicate KeepsWaiting(st: Setup, p: Peer, step: Step) {
    && st.preventSpiral && p.role == Candidate
    && match step
       case DeliverRequest(pk) => pk.req.VoteRequest? && !IsQuorum(st.cfg, p.voted)
       case DeliverAnswer(a) => a.resp.VoteResponse? && !IsQuorum(st.cfg, p.voted + {a.conn.dst})
       case _ => false
  }

  // A peer that hears of a later term enters it, as a follower, unless it is a candidate
  // that is held back. A duplicate and a request that makes it panic are not heard.
  lemma LaterTermIsEntered(st: Setup, s: System, step: Step)
    requires Enabled(st, s, step) && (step.DeliverRequest? || step.DeliverAnswer?)
    requires TermOf(step) > s.peers[Actor(step)].currentTerm && !KeepsWaiting(st, s.peers[Actor(step)], step)
    requires step.DeliverRequest? && step.packet.req.AppendRequest? ==>
               !Bounced(s.peers[Actor(step)], step.packet) && !Panics(s.peers[Actor(step)], step.packet.req)
    ensures var q := Act(st, s, step).peer; q.currentTerm == TermOf(step) && q.role == Follower
  {
    var p := s.peers[Actor(step)];
    match step
    case DeliverRequest(pk) =>
      if pk.req.VoteRequest? { VoteRequestEnters(st, p, pk.conn.src, pk.req, s.clock); } else { AppendRequestEnters(st, p, pk, s.clock); }
    case DeliverAnswer(a) =>
      var f, r := a.conn.dst, p.rpcs[a.conn.dst].pending.value;
      var q := p.(rpcs := p.rpcs[f := p.rpcs[f].(pending := None)]);
      if a.resp.VoteResponse? {
        VoteResponseEnters(st, Actor(step), q, f, r.term, a.resp.term, a.resp.granted, s.clock);
      } else {
        AppendResponseEnters(st, Actor(step), q, f, r, a.resp, s.clock);
      }
  }

  lemma VoteRequestEnters(st: Setup, p: Peer, f: PeerId, req: Request, ident: nat)
    requires req.VoteRequest? && req.term > p.currentTerm && !HeldBack(st, p)
    ensures var q := OnVoteRequest(st, p, f, req, ident).0; q.currentTerm == req.term && q.role == Follower
  {
  }

  lemma AppendRequestEnters(st: Setup, p: Peer, pk: Packet, ident: nat)
    requires pk.req.AppendRequest? && pk.req.term > p.currentTerm && !Bounced(p, pk) && !Panics(p, pk.req)
    ensures var q := Deliver(st, p, pk, ident).peer; q.currentTerm == pk.req.term && q.role == Follower
  {
  }

  lemma VoteResponseEnters(st: Setup, x: PeerId, p: Peer, f: PeerId, sent: nat, term: nat, granted: bool, ident: nat)
    requires term > p.currentTerm && !(st.preventSpiral && p.role == Candidate && !IsQuorum(st.cfg, p.voted + {f}))
    ensures var q := OnVoteResponse(st, x, p, f, sent, term, granted, ident); q.currentTerm == term && q.role == Follower
  {
    var v := Vote(p, f, false);
    if f in p.voted { assert p.voted + {f} == p.voted; }
    assert OnVoteResponse(st, x, p, f, sent, term, granted, ident)
        == if Spiralling(st, v) then v else BecomeFollower(v, term, ident);
  }

  lemma AppendResponseEnters(st: Setup, x: PeerId, p: Peer, f: PeerId, r: Request, resp: Response, ident: nat)
    requires r.AppendRequest? && resp.AppendResponse? && resp.term > p.currentTerm
    ensures var q := OnAppendResponse(st, x, p, f, r, resp.term, resp.success, resp.conflict, ident);
            q.currentTerm == resp.term && q.role == Follower
  {
  }
}
