// The core of the invariant, continued: quiet changes, winning an election,
// appending as leader, accepting from a leader, and committing.
module RaftCoreLeader {
  import opened Wrappers
  import opened Quorum
  import opened RaftPeer
  import opened RaftSystem
  import opened RaftInvariant
  import opened RaftLogs
  import opened RaftCore

  // ---------- Quiet changes ----------

  // Nothing the core speaks of changes, except that a candidate may count one
  // more vote and the state machine may catch up.
  predicate Quiet(h: History, x: PeerId, p: Peer, q: Peer) {
    && q.role == p.role && q.currentTerm == p.currentTerm && q.votedFor == p.votedFor && q.log == p.log
    && q.commitIndex == p.commitIndex && q.lastApplied <= q.commitIndex
    && (p.role == Candidate ==>
          p.granted <= q.granted && forall f :: f in q.granted - p.granted ==> GrantedTo(h, f, p.currentTerm, x))
  }

  lemma QuietCore(cfg: Config, peers: map<PeerId, Peer>, h: History, x: PeerId, q: Peer)
    requires CoreOk(cfg, peers, h) && x in peers && Quiet(h, x, peers[x], q)
    ensures CoreOk(cfg, peers[x := q], h)
  {
    var p := peers[x];
    assert PeerOk(cfg, h, x, p);
    forall f | q.role == Candidate && f in q.granted ensures GrantedTo(h, f, q.currentTerm, x) && f in cfg.Members() {
      assert GrantedTo(h, f, q.currentTerm, x);
      assert VoteOk(cfg, h, Key(f, q.currentTerm), h.votes[Key(f, q.currentTerm)]);
    }
    assert VotingOk(cfg, h, x, q);
  }

  // ---------- Winning an election ----------

  // No other peer can have won the term: two quorums would share a voter.
  lemma TermIsFree(cfg: Config, h: History, x: PeerId, p: Peer)
    requires HistoryOk(cfg, h) && VotingOk(cfg, h, x, p) && p.role == Candidate && IsQuorum(cfg, p.granted)
    ensures p.currentTerm !in h.terms
  {
    if p.currentTerm in h.terms {
      var r := h.terms[p.currentTerm];
      assert TermOk(cfg, h, p.currentTerm, r);
      forall f | f in r.voters ensures GrantedTo(h, f, p.currentTerm, r.leader) {
        assert VotedFor(h, f, p.currentTerm, r.leader, r.log[..r.base]);
      }
      forall f | f in p.granted ensures GrantedTo(h, f, p.currentTerm, x) {}
      var f := QuorumsIntersect(cfg, p.granted, r.voters);
    }
  }

  function WithTerm(h: History, x: PeerId, p: Peer): History {
    h.(terms := h.terms[p.currentTerm := TermRecord(x, p.granted, |p.log|, p.log)],
       acc := h.acc[Key(x, p.currentTerm) := |p.log|])
  }

  predicate Elects(p: Peer, q: Peer) {
    && p.role == Candidate && q.role == Leader
    && q.currentTerm == p.currentTerm && q.log == p.log
    && q.commitIndex == p.commitIndex && q.lastApplied == p.lastApplied
  }

  lemma ElectsGrows(h: History, x: PeerId, p: Peer)
    requires p.currentTerm !in h.terms && Key(x, p.currentTerm) !in h.acc
    ensures HistoryGrows(h, WithTerm(h, x, p))
  {
  }

  lemma NewTerm(cfg: Config, h: History, x: PeerId, p: Peer)
    requires HistoryOk(cfg, h) && x in cfg.Members()
    requires Rooted(h, p.log) && TermsBelow(p.log, p.currentTerm) && p.currentTerm > 0
    requires VotingOk(cfg, h, x, p) && p.role == Candidate && IsQuorum(cfg, p.granted)
    requires p.currentTerm !in h.terms && HistoryGrows(h, WithTerm(h, x, p))
    ensures var g := WithTerm(h, x, p); TermOk(cfg, g, p.currentTerm, g.terms[p.currentTerm])
  {
    var g := WithTerm(h, x, p);
    RootedGrows(h, g, p.log);
    assert p.log[..|p.log|] == p.log;
    forall f | f in p.granted ensures VotedFor(g, f, p.currentTerm, x, p.log) {
      assert GrantedTo(h, f, p.currentTerm, x);
      assert VotedFor(h, f, p.currentTerm, x, p.log);
    }
  }

  lemma ElectsHistory(cfg: Config, h: History, x: PeerId, p: Peer)
    requires HistoryOk(cfg, h) && x in cfg.Members() && NoFuture(h, x, p.currentTerm) && LogOk(h, x, p)
    requires VotingOk(cfg, h, x, p) && p.role == Candidate && IsQuorum(cfg, p.granted) && p.currentTerm > 0
    requires p.currentTerm !in h.terms
    ensures var g := WithTerm(h, x, p); HistoryGrows(h, g) && HistoryOk(cfg, g)
  {
    var g := WithTerm(h, x, p);
    ElectsGrows(h, x, p);
    NewTerm(cfg, h, x, p);
    forall t | t in g.terms ensures TermOk(cfg, g, t, g.terms[t]) {
      if t != p.currentTerm { OldTerm(cfg, h, g, t); }
    }
    forall key | key in g.votes ensures VoteOk(cfg, g, key, g.votes[key]) {
      assert key.peer == x && key in h.votes ==> key.term <= p.currentTerm by {
        assert NoFuture(h, x, p.currentTerm);
        if key.peer == x { assert Key(x, key.term) == key; }
      }
      OldVote(cfg, h, g, key);
    }
    forall key | key in g.acc ensures AccOk(cfg, g, key, g.acc[key]) {
      if key != Key(x, p.currentTerm) { assert AccOk(cfg, h, key, h.acc[key]); }
    }
  }

  lemma ElectsPeer(cfg: Config, h: History, x: PeerId, p: Peer, q: Peer)
    requires HistoryOk(cfg, h) && PeerOk(cfg, h, x, p) && Elects(p, q) && IsQuorum(cfg, p.granted)
    requires p.currentTerm !in h.terms
    requires q.votedFor == p.votedFor || (Others(cfg, x) == {} && (q.votedFor.Some? ==> q.votedFor.value == x))
    requires p.votedFor.Some?
    ensures PeerOk(cfg, WithTerm(h, x, p), x, q)
  {
    var g := WithTerm(h, x, p);
    ElectsGrows(h, x, p);
    ElectsLog(cfg, h, x, p, q);
    ShorterCommit(cfg, h, g, p, q);
    assert GrantedTo(h, x, p.currentTerm, x);
    forall f, t: nat | GrantedTo(g, f, t, x) ensures t <= q.currentTerm { assert GrantedTo(h, f, t, x); }
    assert NoFuture(g, x, q.currentTerm);
  }

  lemma ElectsLog(cfg: Config, h: History, x: PeerId, p: Peer, q: Peer)
    requires HistoryOk(cfg, h) && LogOk(h, x, p) && NoFuture(h, x, p.currentTerm) && Elects(p, q)
    requires p.currentTerm !in h.terms && !Synced(h, x, p)
    ensures LogOk(WithTerm(h, x, p), x, q)
  {
    var g := WithTerm(h, x, p);
    ElectsGrows(h, x, p);
    RootedGrows(h, g, p.log);
    KeepsGrows(cfg, h, g, x, p.log, p.currentTerm + 1, p.currentTerm);
  }

  lemma ElectsCore(cfg: Config, peers: map<PeerId, Peer>, h: History, x: PeerId, q: Peer)
    requires CoreOk(cfg, peers, h) && x in peers && Elects(peers[x], q)
    requires IsQuorum(cfg, peers[x].granted) && peers[x].currentTerm > 0 && peers[x].votedFor.Some?
    requires q.votedFor == peers[x].votedFor
             || (Others(cfg, x) == {} && (q.votedFor.Some? ==> q.votedFor.value == x))
    ensures peers[x].currentTerm !in h.terms
    ensures var g := WithTerm(h, x, peers[x]); HistoryGrows(h, g) && CoreOk(cfg, peers[x := q], g)
  {
    var p := peers[x];
    assert PeerOk(cfg, h, x, p);
    TermIsFree(cfg, h, x, p);
    ElectsHistory(cfg, h, x, p);
    ElectsPeer(cfg, h, x, p, q);
    OthersKeep(cfg, peers, h, WithTerm(h, x, p), x, q);
  }

  // ---------- Appending as leader ----------

  function WithLog(h: History, x: PeerId, term: nat, log: Log): History
    requires term in h.terms
  {
    h.(terms := h.terms[term := h.terms[term].(log := log)],
       acc := h.acc[Key(x, term) := |log|])
  }

  predicate Appends(p: Peer, q: Peer) {
    && p.role == Leader && q.role == Leader && q.currentTerm == p.currentTerm && q.votedFor == p.votedFor
    && |q.log| == |p.log| + 1 && p.log == q.log[..|p.log|] && q.log[|p.log|].term == p.currentTerm
    && q.commitIndex == p.commitIndex && q.lastApplied == p.lastApplied
  }

  lemma AppendsGrows(h: History, x: PeerId, p: Peer, q: Peer)
    requires p.currentTerm in h.terms && h.terms[p.currentTerm].log == p.log && Appends(p, q)
    requires Key(x, p.currentTerm) in h.acc && h.acc[Key(x, p.currentTerm)] <= |p.log|
    ensures HistoryGrows(h, WithLog(h, x, p.currentTerm, q.log))
  {
  }

  lemma AppendsRooted(h: History, x: PeerId, p: Peer, q: Peer)
    requires p.currentTerm in h.terms && h.terms[p.currentTerm].log == p.log && Appends(p, q)
    requires Rooted(h, p.log) && HistoryGrows(h, WithLog(h, x, p.currentTerm, q.log))
    ensures Rooted(WithLog(h, x, p.currentTerm, q.log), q.log)
  {
    var g := WithLog(h, x, p.currentTerm, q.log);
    RootedGrows(h, g, p.log);
    forall k | 0 <= k < |q.log| ensures RootedAt(g, q.log, k) {
      if k < |p.log| {
        assert RootedAt(g, p.log, k);
        assert q.log[..k + 1] == p.log[..k + 1];
      }
    }
  }

  // The votes were given to the log that the leader started with.
  lemma AppendsVotes(h: History, g: History, r: TermRecord, t: nat, log: Log, f: PeerId)
    requires g.votes == h.votes && r.base <= |r.log| && r.log <= log && f in r.voters
    requires VotedFor(h, f, t, r.leader, r.log[..r.base])
    ensures VotedFor(g, f, t, r.leader, log[..r.base])
  {
    assert log[..r.base] == r.log[..r.base];
  }

  lemma LongerTerm(cfg: Config, h: History, g: History, t: nat, r: TermRecord, log: Log)
    requires TermOk(cfg, h, t, r) && g.votes == h.votes && r.log <= log && Rooted(g, log)
    requires forall k :: |r.log| <= k < |log| ==> log[k].term == t
    ensures TermOk(cfg, g, t, r.(log := log))
  {
    forall f | f in r.voters ensures VotedFor(g, f, t, r.leader, log[..r.base]) {
      AppendsVotes(h, g, r, t, log, f);
    }
  }

  lemma AppendsTerm(cfg: Config, h: History, x: PeerId, p: Peer, q: Peer)
    requires HistoryOk(cfg, h) && p.currentTerm in h.terms && h.terms[p.currentTerm].log == p.log && Appends(p, q)
    requires HistoryGrows(h, WithLog(h, x, p.currentTerm, q.log))
    requires Rooted(WithLog(h, x, p.currentTerm, q.log), q.log)
    ensures var g := WithLog(h, x, p.currentTerm, q.log); TermOk(cfg, g, p.currentTerm, g.terms[p.currentTerm])
  {
    assert TermOk(cfg, h, p.currentTerm, h.terms[p.currentTerm]);
    LongerTerm(cfg, h, WithLog(h, x, p.currentTerm, q.log), p.currentTerm, h.terms[p.currentTerm], q.log);
  }

  lemma AppendsHistory(cfg: Config, h: History, x: PeerId, p: Peer, q: Peer)
    requires HistoryOk(cfg, h) && x in cfg.Members() && LeadingOk(cfg, h, x, p) && Appends(p, q)
    requires NoFuture(h, x, p.currentTerm) && LogOk(h, x, p)
    ensures var g := WithLog(h, x, p.currentTerm, q.log); HistoryGrows(h, g) && HistoryOk(cfg, g)
    ensures Rooted(WithLog(h, x, p.currentTerm, q.log), q.log)
  {
    var g := WithLog(h, x, p.currentTerm, q.log);
    AppendsGrows(h, x, p, q);
    AppendsRooted(h, x, p, q);
    AppendsTerm(cfg, h, x, p, q);
    forall t | t in g.terms ensures TermOk(cfg, g, t, g.terms[t]) {
      if t != p.currentTerm { OldTerm(cfg, h, g, t); }
    }
    forall key | key in g.votes ensures VoteOk(cfg, g, key, g.votes[key]) {
      if key.peer == x { assert Key(x, key.term) == key; }
      OldVote(cfg, h, g, key);
    }
    forall key | key in g.acc ensures AccOk(cfg, g, key, g.acc[key]) {
      if key != Key(x, p.currentTerm) { assert AccOk(cfg, h, key, h.acc[key]); }
    }
  }

  lemma AppendsCore(cfg: Config, peers: map<PeerId, Peer>, h: History, x: PeerId, q: Peer)
    requires CoreOk(cfg, peers, h) && x in peers && Appends(peers[x], q)
    ensures peers[x].currentTerm in h.terms
    ensures var g := WithLog(h, x, peers[x].currentTerm, q.log); HistoryGrows(h, g) && CoreOk(cfg, peers[x := q], g)
  {
    var p := peers[x];
    assert PeerOk(cfg, h, x, p);
    AppendsHistory(cfg, h, x, p, q);
    AppendsPeer(cfg, h, x, p, q);
    forall y | y in peers && y != x
      ensures Bystander(h, WithLog(h, x, p.currentTerm, q.log), y, peers[y])
    {
      assert PeerOk(cfg, h, y, peers[y]);
      AppendsOthers(cfg, h, x, p, q, y, peers[y]);
    }
    OthersKeep(cfg, peers, h, WithLog(h, x, p.currentTerm, q.log), x, q);
  }

  lemma AppendsOthers(cfg: Config, h: History, x: PeerId, p: Peer, q: Peer, y: PeerId, r: Peer)
    requires y != x && Appends(p, q) && LeadingOk(cfg, h, x, p) && LeadingOk(cfg, h, y, r)
    ensures Bystander(h, WithLog(h, x, p.currentTerm, q.log), y, r)
  {
  }

  lemma AppendsPeer(cfg: Config, h: History, x: PeerId, p: Peer, q: Peer)
    requires HistoryOk(cfg, h) && PeerOk(cfg, h, x, p) && Appends(p, q)
    requires var g := WithLog(h, x, p.currentTerm, q.log); HistoryGrows(h, g) && Rooted(g, q.log)
    ensures PeerOk(cfg, WithLog(h, x, p.currentTerm, q.log), x, q)
  {
    var g := WithLog(h, x, p.currentTerm, q.log);
    ShorterCommit(cfg, h, g, p, q);
    KeepsGrows(cfg, h, g, x, p.log, p.currentTerm + 1, p.currentTerm);
    KeepsLonger(g, x, p.log, q.log, p.currentTerm + 1, p.currentTerm);
    forall f, t: nat | GrantedTo(g, f, t, x) ensures t <= q.currentTerm { assert GrantedTo(h, f, t, x); }
    assert NoFuture(g, x, q.currentTerm);
  }

  lemma KeepsLonger(h: History, f: PeerId, a: Log, b: Log, upTo: nat, before: nat)
    requires Keeps(h, f, a, upTo, before) && a <= b
    ensures Keeps(h, f, b, upTo, before)
  {
    forall t: nat, k: nat | KeepsPremise(h, f, upTo, before, t, k) ensures h.terms[t].log[..k] <= b {
      assert h.terms[t].log[..k] <= a;
    }
  }
}
