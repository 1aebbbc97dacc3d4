// The core of the invariant, concluded: accepting entries from a leader, and
// what a leader or a sole master may call committed.
module RaftCoreFollower {
  import opened Wrappers
  import opened Quorum
  import opened RaftPeer
  import opened RaftSystem
  import opened RaftInvariant
  import opened RaftLogs
  import opened RaftCore

  // ---------- Accepting ----------

  function WithAcc(h: History, x: PeerId, term: nat, len: nat): History {
    h.(acc := h.acc[Key(x, term) := len])
  }

  // The request cannot take away an entry that the leader holds as well.
  predicate NoLoss(h: History, x: PeerId, p: Peer, r: Request)
    requires r.AppendRequest? && p.currentTerm in h.terms
  {
    if Synced(h, x, p) then |p.log| <= r.LastIndex()
    else !Agree(p.log, h.terms[p.currentTerm].log, r.prevIndex + 1)
  }

  // The leader's log, as far as the request reaches.
  ghost predicate Stretch(cfg: Config, h: History, r: Request)
    requires r.AppendRequest?
  {
    && r.term in h.terms
    && var log := h.terms[r.term].log;
    && r.LastIndex() <= |log| && r.entries == log[r.prevIndex..r.LastIndex()]
    && TermAt(log, r.prevIndex) == Some(r.prevTerm)
    && r.commit <= |log| && Committed(cfg, h, log[..r.commit], r.term)
  }

  ghost predicate AcceptsFrom(cfg: Config, h: History, x: PeerId, p: Peer, r: Request, q: Peer) {
    && r.AppendRequest? && Stretch(cfg, h, r) && p.role == Follower && p.currentTerm == r.term
    && p.commitIndex <= r.prevIndex && TermAt(p.log, r.prevIndex) == Some(r.prevTerm)
    && NoLoss(h, x, p, r)
    && q.role == Follower && q.currentTerm == p.currentTerm && q.votedFor == p.votedFor
    && r.prevIndex <= |p.log| && q.log == AppendAt(p.log, r.prevIndex, r.entries)
    && q.lastApplied == p.lastApplied
    && q.commitIndex == if r.commit > p.commitIndex
                        then (if r.commit < |q.log| then r.commit else |q.log|)
                        else p.commitIndex
  }

  // After an acceptance the log is exactly the leader's up to the last entry sent.
  lemma AcceptedLog(cfg: Config, h: History, x: PeerId, p: Peer, r: Request, q: Peer)
    requires HistoryOk(cfg, h) && Rooted(h, p.log) && AcceptsFrom(cfg, h, x, p, r, q)
    ensures q.log == h.terms[r.term].log[..r.LastIndex()]
    ensures Agree(p.log, h.terms[r.term].log, r.prevIndex)
  {
    var log := h.terms[r.term].log;
    assert TermOk(cfg, h, r.term, h.terms[r.term]);
    LogsMatch(h, p.log, log, r.prevIndex);
    assert log[..r.LastIndex()] == log[..r.prevIndex] + log[r.prevIndex..r.LastIndex()];
  }

  lemma AcceptedKeeps(h: History, x: PeerId, p: Peer, r: Request, log: Log)
    requires r.AppendRequest? && r.term in h.terms && r.term == p.currentTerm
    requires r.LastIndex() <= |h.terms[r.term].log| && log == h.terms[r.term].log[..r.LastIndex()]
    requires LogOk(h, x, p) && NoLoss(h, x, p, r)
    ensures Keeps(h, x, log, p.currentTerm + 1, p.currentTerm)
  {
    var tlog := h.terms[r.term].log;
    forall t: nat, k: nat | KeepsPremise(h, x, p.currentTerm + 1, p.currentTerm, t, k)
      ensures h.terms[t].log[..k] <= log
    {
      var s := h.terms[t].log[..k];
      assert s <= p.log;
      assert s <= tlog;
      assert Agree(p.log, tlog, k);
      if !Synced(h, x, p) && k > r.prevIndex { AgreeDown(p.log, tlog, r.prevIndex + 1, k); }
      assert k <= r.LastIndex();
    }
  }

  lemma AcceptHistory(cfg: Config, h: History, x: PeerId, p: Peer, r: Request, q: Peer)
    requires HistoryOk(cfg, h) && x in cfg.Members() && LogOk(h, x, p) && NoFuture(h, x, p.currentTerm)
    requires AcceptsFrom(cfg, h, x, p, r, q) && q.log == h.terms[r.term].log[..r.LastIndex()]
    ensures var g := WithAcc(h, x, p.currentTerm, |q.log|); HistoryGrows(h, g) && HistoryOk(cfg, g)
  {
    var g := WithAcc(h, x, p.currentTerm, |q.log|);
    assert HistoryGrows(h, g);
    OldTerms(cfg, h, g);
    forall key | key in g.votes ensures VoteOk(cfg, g, key, g.votes[key]) {
      if key.peer == x { assert Key(x, key.term) == key; }
      OldVote(cfg, h, g, key);
    }
    forall key | key in g.acc ensures AccOk(cfg, g, key, g.acc[key]) {
      if key != Key(x, p.currentTerm) { assert AccOk(cfg, h, key, h.acc[key]); }
    }
  }

  lemma AcceptCommit(cfg: Config, h: History, g: History, x: PeerId, p: Peer, r: Request, q: Peer)
    requires HistoryGrows(h, g) && CommitOk(cfg, h, p) && AcceptsFrom(cfg, h, x, p, r, q)
    requires q.log == h.terms[r.term].log[..r.LastIndex()]
    ensures CommitOk(cfg, g, q)
  {
    var log := h.terms[r.term].log;
    if r.commit > p.commitIndex {
      assert q.log[..q.commitIndex] == log[..r.commit][..q.commitIndex];
      CommittedPrefix(cfg, h, q.log[..q.commitIndex], log[..r.commit], r.term);
    } else {
      assert q.log[..q.commitIndex] == p.log[..p.commitIndex];
    }
    CommittedGrows(cfg, h, g, q.log[..q.commitIndex], p.currentTerm, q.currentTerm);
  }

  lemma AcceptPeer(cfg: Config, h: History, x: PeerId, p: Peer, r: Request, q: Peer)
    requires HistoryOk(cfg, h) && PeerOk(cfg, h, x, p) && AcceptsFrom(cfg, h, x, p, r, q)
    requires q.log == h.terms[r.term].log[..r.LastIndex()]
    requires HistoryGrows(h, WithAcc(h, x, p.currentTerm, |q.log|))
    ensures PeerOk(cfg, WithAcc(h, x, p.currentTerm, |q.log|), x, q)
  {
    var g := WithAcc(h, x, p.currentTerm, |q.log|);
    AcceptCommit(cfg, h, g, x, p, r, q);
    AcceptedKeeps(h, x, p, r, q.log);
    KeepsGrows(cfg, h, g, x, q.log, p.currentTerm + 1, p.currentTerm);
    assert TermOk(cfg, h, r.term, h.terms[r.term]);
    RootedPrefix(h, h.terms[r.term].log, q.log);
    RootedGrows(h, g, q.log);
    forall f, t: nat | GrantedTo(g, f, t, x) ensures t <= q.currentTerm { assert GrantedTo(h, f, t, x); }
    assert NoFuture(g, x, q.currentTerm);
  }

  lemma AcceptBystander(h: History, x: PeerId, t: nat, n: nat, y: PeerId, p: Peer)
    requires y != x
    ensures Bystander(h, WithAcc(h, x, t, n), y, p)
  {
  }

  lemma AcceptCore(cfg: Config, peers: map<PeerId, Peer>, h: History, x: PeerId, r: Request, q: Peer)
    requires CoreOk(cfg, peers, h) && x in peers && AcceptsFrom(cfg, h, x, peers[x], r, q)
    ensures q.log == h.terms[r.term].log[..r.LastIndex()]
    ensures var g := WithAcc(h, x, q.currentTerm, |q.log|); HistoryGrows(h, g) && CoreOk(cfg, peers[x := q], g)
  {
    var p := peers[x];
    assert PeerOk(cfg, h, x, p);
    AcceptedLog(cfg, h, x, p, r, q);
    AcceptHistory(cfg, h, x, p, r, q);
    AcceptPeer(cfg, h, x, p, r, q);
    forall y | y in peers && y != x
      ensures Bystander(h, WithAcc(h, x, p.currentTerm, |q.log|), y, peers[y])
    {
      AcceptBystander(h, x, p.currentTerm, |q.log|, y, peers[y]);
    }
    OthersKeep(cfg, peers, h, WithAcc(h, x, p.currentTerm, |q.log|), x, q);
  }

  // ---------- Committing ----------

  predicate Commits(p: Peer, q: Peer) {
    && q.role == p.role && q.currentTerm == p.currentTerm && q.votedFor == p.votedFor && q.log == p.log
    && q.granted == p.granted && q.lastApplied == p.lastApplied <= q.commitIndex <= |q.log|
  }

  lemma CommitCore(cfg: Config, peers: map<PeerId, Peer>, h: History, x: PeerId, q: Peer)
    requires CoreOk(cfg, peers, h) && x in peers && Commits(peers[x], q)
    requires Committed(cfg, h, q.log[..q.commitIndex], q.currentTerm)
    ensures CoreOk(cfg, peers[x := q], h)
  {
    assert PeerOk(cfg, h, x, peers[x]);
    assert VotingOk(cfg, h, x, q);
    assert PeerOk(cfg, h, x, q);
    OthersKeep(cfg, peers, h, h, x, q);
  }

  // The majority rule: an index of the leader's own term that a quorum is known
  // to hold, the leader counted in.
  lemma LeaderChooses(cfg: Config, h: History, x: PeerId, p: Peer, n: nat)
    requires p.role == Leader && LeadingOk(cfg, h, x, p) && LogOk(h, x, p)
    requires 0 < n <= |p.log| && p.log[n - 1].term == p.currentTerm
    requires p.matchTerm.Keys == p.matchIndex.Keys
    requires forall f :: f in p.matchIndex ==> MatchOk(h, p, f)
    requires IsQuorum(cfg, HoldersOf(x, n, p.matchIndex))
    ensures Committed(cfg, h, p.log[..n], p.currentTerm)
  {
    var q := HoldersOf(x, n, p.matchIndex);
    forall f | f in q ensures Key(f, p.currentTerm) in h.acc && h.acc[Key(f, p.currentTerm)] >= n {
      if f != x { assert MatchOk(h, p, f); }
    }
    assert AcceptedBy(h, q, p.currentTerm, n);
    assert ChosenCovers(cfg, h, p.log[..n], p.currentTerm, n);
  }

  lemma SoleQuorum(cfg: Config, x: PeerId)
    requires cfg.Valid() && x in cfg.Members() && Others(cfg, x) == {}
    ensures IsQuorum(cfg, {x})
  {
    forall y | y in cfg.Members() ensures y == x {
      assert y !in Others(cfg, x);
    }
    assert cfg.oc == {x};
    assert {x} * cfg.oc == {x};
    if cfg.IsTransitional() {
      assert cfg.nc == {x};
      assert {x} * cfg.nc == {x};
    }
  }
}
