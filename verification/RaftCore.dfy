// The elementary changes a peer goes through, and that each keeps the core of the
// invariant: a new term or vote, winning an election, appending as leader,
// accepting from a leader, committing, and starting again.
module RaftCore {
  import opened Wrappers
  import opened Quorum
  import opened RaftPeer
  import opened RaftSystem
  import opened RaftInvariant
  import opened RaftLogs

  // ---------- How a history may grow ----------

  // A term's log grows with entries of that term only.
  predicate TermGrows(t: nat, r: TermRecord, s: TermRecord) {
    && s.leader == r.leader && s.voters == r.voters && s.base == r.base
    && r.log <= s.log
    && forall k :: |r.log| <= k < |s.log| ==> s.log[k].term == t
  }

  predicate HistoryGrows(h: History, g: History) {
    && h.terms.Keys <= g.terms.Keys
    && (forall t {:trigger TermGrows(t, h.terms[t], g.terms[t])} ::
          t in h.terms ==> TermGrows(t, h.terms[t], g.terms[t]))
    && (forall key :: key in h.votes ==> key in g.votes && g.votes[key] == h.votes[key])
    && (forall key :: key in h.acc ==> key in g.acc && g.acc[key] >= h.acc[key])
  }

  lemma RootedGrows(h: History, g: History, log: Log)
    requires HistoryGrows(h, g) && Rooted(h, log)
    ensures Rooted(g, log)
  {
    forall k | 0 <= k < |log| ensures RootedAt(g, log, k) {
      assert RootedAt(h, log, k);
      var t := log[k].term;
      assert TermGrows(t, h.terms[t], g.terms[t]);
      assert g.terms[t].log[..k + 1] == h.terms[t].log[..k + 1];
    }
  }

  lemma ChosenGrows(cfg: Config, h: History, g: History, x: Log, t: nat, k: nat)
    requires HistoryGrows(h, g) && ChosenCovers(cfg, h, x, t, k)
    ensures ChosenCovers(cfg, g, x, t, k)
  {
    assert TermGrows(t, h.terms[t], g.terms[t]);
    assert g.terms[t].log[k - 1] == h.terms[t].log[k - 1];
    var q :| IsQuorum(cfg, q) && AcceptedBy(h, q, t, k);
    assert AcceptedBy(g, q, t, k);
    assert g.terms[t].log[..|x|] == h.terms[t].log[..|x|];
  }

  lemma CommittedGrows(cfg: Config, h: History, g: History, x: Log, a: nat, b: nat)
    requires HistoryGrows(h, g) && Committed(cfg, h, x, a) && a <= b
    ensures Committed(cfg, g, x, b)
  {
    if x != [] {
      var t: nat, k: nat :| t <= a && ChosenCovers(cfg, h, x, t, k);
      ChosenGrows(cfg, h, g, x, t, k);
    }
  }

  // A leader's new entries cannot complete a stretch of an earlier term's log.
  lemma CarriedBack(h: History, g: History, x: Log, t: nat, upTo: nat)
    requires HistoryGrows(h, g) && Carried(g, x, t, upTo)
    requires forall i :: 0 <= i < |x| ==> x[i].term <= t
    ensures Carried(h, x, t, upTo)
  {
    forall u | u in h.terms && t < u < upTo ensures x <= h.terms[u].log {
      assert TermGrows(u, h.terms[u], g.terms[u]);
      NotCompleted(x, h.terms[u].log, g.terms[u].log, u);
    }
  }

  lemma NotCompleted(x: Log, a: Log, b: Log, u: nat)
    requires a <= b && x <= b && (forall k :: |a| <= k < |b| ==> b[k].term == u)
    requires forall i :: 0 <= i < |x| ==> x[i].term < u
    ensures x <= a
  {
    assert forall i :: 0 <= i < |x| ==> b[i].term < u;
    assert |a| < |b| ==> b[|a|].term == u;
    PrefixOfBoth(x, a, b);
  }

  lemma KeptStretch(cfg: Config, h: History, g: History, f: PeerId, t: nat, k: nat)
    requires HistoryOk(cfg, h) && HistoryGrows(h, g) && Key(f, t) in h.acc && k <= h.acc[Key(f, t)]
    ensures t in h.terms && k <= |h.terms[t].log| && t in g.terms && k <= |g.terms[t].log|
    ensures g.terms[t].log[..k] == h.terms[t].log[..k]
  {
    assert AccOk(cfg, h, Key(f, t), h.acc[Key(f, t)]);
    assert TermGrows(t, h.terms[t], g.terms[t]);
  }

  lemma KeepsGrows(cfg: Config, h: History, g: History, f: PeerId, log: Log, upTo: nat, before: nat)
    requires HistoryOk(cfg, h) && HistoryGrows(h, g) && Keeps(h, f, log, upTo, before)
    requires forall t: nat :: t < before && Key(f, t) in g.acc ==>
                                Key(f, t) in h.acc && g.acc[Key(f, t)] == h.acc[Key(f, t)]
    ensures Keeps(g, f, log, upTo, before)
  {
    forall t: nat, k: nat | KeepsPremise(g, f, upTo, before, t, k)
      ensures g.terms[t].log[..k] <= log
    {
      KeptStretch(cfg, h, g, f, t, k);
      TermBounds(cfg, h, t, h.terms[t].log[..k]);
      CarriedBack(h, g, h.terms[t].log[..k], t, upTo);
      assert KeepsPremise(h, f, upTo, before, t, k);
    }
  }

  // A longer stretch of terms to carry x through only makes the promise weaker.
  lemma KeepsWeaker(h: History, f: PeerId, log: Log, upTo: nat, before: nat, upTo': nat, before': nat)
    requires Keeps(h, f, log, upTo, before) && upTo <= upTo' && before' <= before
    ensures Keeps(h, f, log, upTo', before')
  {
    forall t: nat, k: nat | KeepsPremise(h, f, upTo', before', t, k) ensures h.terms[t].log[..k] <= log {
      assert KeepsPremise(h, f, upTo, before, t, k);
    }
  }

  // ---------- What a peer's log keeps ----------

  lemma KeepsNow(h: History, x: PeerId, p: Peer, upTo: nat, before: nat)
    requires LogOk(h, x, p) && NoFuture(h, x, p.currentTerm) && p.currentTerm < upTo
    ensures Keeps(h, x, p.log, upTo, before)
  {
    forall t: nat, k: nat | KeepsPremise(h, x, upTo, before, t, k) ensures h.terms[t].log[..k] <= p.log {
      if t < p.currentTerm {
        assert Carried(h, h.terms[t].log[..k], t, p.currentTerm + 1);
        assert KeepsPremise(h, x, p.currentTerm + 1, p.currentTerm, t, k);
      } else {
        assert t == p.currentTerm;
        assert h.terms[t].log[..k] == p.log[..k];
      }
    }
  }

  // At the moment of a vote: no leader of the voting term is known yet.
  lemma KeepsAtVote(h: History, x: PeerId, p: Peer, term: nat)
    requires LogOk(h, x, p) && NoFuture(h, x, p.currentTerm)
    requires p.currentTerm <= term && (term == p.currentTerm ==> term !in h.terms)
    ensures Keeps(h, x, p.log, term, term)
  {
    if p.currentTerm < term {
      KeepsNow(h, x, p, term, term);
    } else {
      forall t: nat, k: nat | KeepsPremise(h, x, term, term, t, k) ensures h.terms[t].log[..k] <= p.log {
        assert Carried(h, h.terms[t].log[..k], t, term + 1);
        assert KeepsPremise(h, x, term + 1, term, t, k);
      }
    }
  }

  lemma LogTermsBelow(cfg: Config, h: History, x: PeerId, p: Peer, term: nat)
    requires HistoryOk(cfg, h) && LogOk(h, x, p) && p.currentTerm < term
    ensures TermsBelow(p.log, term)
  {
    if Synced(h, x, p) { TermBounds(cfg, h, p.currentTerm, p.log); }
  }

  // ---------- A new term or vote ----------

  predicate VoteFits(peers: map<PeerId, Peer>, x: PeerId, p: Peer, term: nat, c: PeerId) {
    c == x
    || (&& c in peers && term <= peers[c].currentTerm
        && (peers[c].role == Candidate && peers[c].currentTerm == term ==>
              UpToDate(|peers[c].log|, LastTerm(peers[c].log), p.log)))
  }

  // From p to q: the log stays, the term may rise, a vote may be cast; q is no leader.
  predicate TermChange(cfg: Config, peers: map<PeerId, Peer>, h: History, x: PeerId, p: Peer, q: Peer) {
    && q.log == p.log && q.lastApplied <= q.commitIndex <= p.commitIndex
    && q.currentTerm >= p.currentTerm
    && (q.currentTerm == p.currentTerm ==>
          && (q.votedFor != p.votedFor ==> p.votedFor.None? && p.role != Leader)
          && (q.votedFor.None? ==> p.role != Leader))
    && (q.votedFor.Some? ==>
          && q.votedFor.value in cfg.Members()
          && (Key(x, q.currentTerm) !in h.votes ==>
                VoteFits(peers, x, p, q.currentTerm, q.votedFor.value)))
    && (q.role == Follower
        || (q.role == Candidate && q.currentTerm > p.currentTerm && q.votedFor == Some(x) && q.granted == {x}))
  }

  function WithVote(h: History, x: PeerId, p: Peer, q: Peer): History {
    h.(votes := ObserveVotes(h, x, p, q))
  }

  lemma TermChangeHistory(cfg: Config, h: History, x: PeerId, p: Peer, q: Peer)
    requires HistoryOk(cfg, h) && x in cfg.Members() && LogOk(h, x, p) && NoFuture(h, x, p.currentTerm)
    requires q.role != Leader && p.currentTerm <= q.currentTerm
    requires q.votedFor.Some? ==> q.votedFor.value in cfg.Members()
    ensures var g := WithVote(h, x, p, q); HistoryGrows(h, g) && HistoryOk(cfg, g)
  {
    var g := WithVote(h, x, p, q);
    VoteGrows(h, x, p, q);
    OldTerms(cfg, h, g);
    OldAcc(cfg, h, g);
    forall key | key in g.votes ensures VoteOk(cfg, g, key, g.votes[key]) {
      if key in h.votes {
        OldVote(cfg, h, g, key);
      } else {
        NewVote(cfg, h, g, x, p, q.currentTerm);
      }
    }
  }

  lemma VoteGrows(h: History, x: PeerId, p: Peer, q: Peer)
    ensures HistoryGrows(h, WithVote(h, x, p, q))
  {
  }

  lemma OldTerms(cfg: Config, h: History, g: History)
    requires HistoryOk(cfg, h) && HistoryGrows(h, g) && g.terms == h.terms
    ensures forall t :: t in g.terms ==> TermOk(cfg, g, t, g.terms[t])
  {
    forall t | t in g.terms ensures TermOk(cfg, g, t, g.terms[t]) { OldTerm(cfg, h, g, t); }
  }

  lemma OldTerm(cfg: Config, h: History, g: History, t: nat)
    requires HistoryOk(cfg, h) && HistoryGrows(h, g) && t in h.terms && g.terms[t] == h.terms[t]
    ensures TermOk(cfg, g, t, g.terms[t])
  {
    var r := h.terms[t];
    assert TermOk(cfg, h, t, r);
    RootedGrows(h, g, r.log);
    forall f | f in r.voters ensures VotedFor(g, f, t, r.leader, r.log[..r.base]) {
      assert VotedFor(h, f, t, r.leader, r.log[..r.base]);
    }
  }

  lemma OldAcc(cfg: Config, h: History, g: History)
    requires HistoryOk(cfg, h) && g.acc == h.acc && g.terms == h.terms
    ensures forall key :: key in g.acc ==> AccOk(cfg, g, key, g.acc[key])
  {
    forall key | key in g.acc ensures AccOk(cfg, g, key, g.acc[key]) {
      assert AccOk(cfg, h, key, h.acc[key]);
    }
  }

  lemma OldVote(cfg: Config, h: History, g: History, key: Key)
    requires HistoryOk(cfg, h) && HistoryGrows(h, g) && key in h.votes
    requires forall t: nat :: t < key.term && Key(key.peer, t) in g.acc ==>
               Key(key.peer, t) in h.acc && g.acc[Key(key.peer, t)] == h.acc[Key(key.peer, t)]
    ensures VoteOk(cfg, g, key, g.votes[key])
  {
    var v := h.votes[key];
    assert VoteOk(cfg, h, key, v);
    RootedGrows(h, g, v.log);
    if key.term in h.terms { assert TermGrows(key.term, h.terms[key.term], g.terms[key.term]); }
    if Keeps(h, key.peer, v.log, key.term, key.term) {
      KeepsGrows(cfg, h, g, key.peer, v.log, key.term, key.term);
    }
  }

  lemma NewVote(cfg: Config, h: History, g: History, x: PeerId, p: Peer, term: nat)
    requires HistoryOk(cfg, h) && HistoryGrows(h, g) && LogOk(h, x, p) && NoFuture(h, x, p.currentTerm)
    requires x in cfg.Members() && p.currentTerm <= term && Key(x, term) !in h.votes
    requires g.terms == h.terms && g.acc == h.acc
    requires Key(x, term) in g.votes && g.votes[Key(x, term)].log == p.log
    requires g.votes[Key(x, term)].candidate in cfg.Members()
    ensures VoteOk(cfg, g, Key(x, term), g.votes[Key(x, term)])
  {
    RootedGrows(h, g, p.log);
    if term in h.terms {
      NotAVoter(cfg, h, x, term);
    } else {
      KeepsAtVote(h, x, p, term);
      KeepsGrows(cfg, h, g, x, p.log, term, term);
    }
  }

  lemma NotAVoter(cfg: Config, h: History, x: PeerId, term: nat)
    requires HistoryOk(cfg, h) && term in h.terms && Key(x, term) !in h.votes
    ensures x !in h.terms[term].voters
  {
    var r := h.terms[term];
    assert TermOk(cfg, h, term, r);
    assert forall f :: f in r.voters ==> VotedFor(h, f, term, r.leader, r.log[..r.base]);
  }

  // ---------- The peers that do not act ----------

  // Nothing is written down about y, and no vote for it breaks its candidacy.
  ghost predicate Bystander(h: History, g: History, y: PeerId, p: Peer) {
    && (forall t: nat :: Key(y, t) in g.votes ==> Key(y, t) in h.votes)
    && (forall t: nat :: Key(y, t) in g.acc ==> Key(y, t) in h.acc && g.acc[Key(y, t)] == h.acc[Key(y, t)])
    && (forall t :: t in g.terms && t !in h.terms ==> g.terms[t].leader != y)
    && (forall f, t: nat :: GrantedTo(g, f, t, y) && !GrantedTo(h, f, t, y) ==> t <= p.currentTerm)
    && (p.role == Leader && p.currentTerm in h.terms && p.currentTerm in g.terms ==>
          g.terms[p.currentTerm].log == h.terms[p.currentTerm].log)
    && (p.role == Candidate ==>
          forall f :: GrantedTo(g, f, p.currentTerm, y) && !GrantedTo(h, f, p.currentTerm, y) ==>
                        VotedFor(g, f, p.currentTerm, y, p.log))
  }

  lemma BystanderKeeps(cfg: Config, h: History, g: History, y: PeerId, p: Peer)
    requires HistoryOk(cfg, h) && HistoryGrows(h, g) && PeerOk(cfg, h, y, p) && Bystander(h, g, y, p)
    ensures PeerOk(cfg, g, y, p)
  {
    BystanderLog(cfg, h, g, y, p);
    BystanderVoting(cfg, h, g, y, p);
    CommittedGrows(cfg, h, g, p.log[..p.commitIndex], p.currentTerm, p.currentTerm);
    assert NoFuture(g, y, p.currentTerm) by { BystanderFuture(h, g, y, p); }
    assert LeadingOk(cfg, g, y, p) by {
      if p.role == Leader { assert TermGrows(p.currentTerm, h.terms[p.currentTerm], g.terms[p.currentTerm]); }
    }
  }

  lemma BystanderFuture(h: History, g: History, y: PeerId, p: Peer)
    requires HistoryGrows(h, g) && NoFuture(h, y, p.currentTerm) && Bystander(h, g, y, p)
    ensures NoFuture(g, y, p.currentTerm)
  {
    forall t | t in g.terms && g.terms[t].leader == y ensures t <= p.currentTerm {
      assert TermGrows(t, h.terms[t], g.terms[t]);
    }
  }

  lemma BystanderLog(cfg: Config, h: History, g: History, y: PeerId, p: Peer)
    requires HistoryOk(cfg, h) && HistoryGrows(h, g) && LogOk(h, y, p) && Bystander(h, g, y, p)
    ensures LogOk(g, y, p)
  {
    RootedGrows(h, g, p.log);
    KeepsGrows(cfg, h, g, y, p.log, p.currentTerm + 1, p.currentTerm);
    if Synced(h, y, p) {
      assert TermGrows(p.currentTerm, h.terms[p.currentTerm], g.terms[p.currentTerm]);
    }
  }

  lemma BystanderVoting(cfg: Config, h: History, g: History, y: PeerId, p: Peer)
    requires HistoryGrows(h, g) && VotingOk(cfg, h, y, p) && Bystander(h, g, y, p)
    ensures VotingOk(cfg, g, y, p)
  {
    if p.role == Candidate {
      forall f | f in p.granted ensures GrantedTo(g, f, p.currentTerm, y) {
        assert GrantedTo(h, f, p.currentTerm, y);
      }
      forall f | GrantedTo(g, f, p.currentTerm, y) ensures VotedFor(g, f, p.currentTerm, y, p.log) {
        if GrantedTo(h, f, p.currentTerm, y) { assert VotedFor(h, f, p.currentTerm, y, p.log); }
      }
      if p.currentTerm in h.terms {
        assert TermGrows(p.currentTerm, h.terms[p.currentTerm], g.terms[p.currentTerm]);
      }
    }
  }

  // If the peer that acts is fine and all others are bystanders, the core is kept.
  lemma OthersKeep(cfg: Config, peers: map<PeerId, Peer>, h: History, g: History, x: PeerId, q: Peer)
    requires CoreOk(cfg, peers, h) && x in peers && HistoryGrows(h, g) && HistoryOk(cfg, g)
    requires PeerOk(cfg, g, x, q)
    requires forall y {:trigger Bystander(h, g, y, peers[y])} ::
               y in peers && y != x ==> Bystander(h, g, y, peers[y])
    ensures CoreOk(cfg, peers[x := q], g)
  {
    forall y | y in peers && y != x ensures PeerOk(cfg, g, y, peers[y]) {
      assert PeerOk(cfg, h, y, peers[y]) && Bystander(h, g, y, peers[y]);
      BystanderKeeps(cfg, h, g, y, peers[y]);
    }
  }

  // ---------- A new term or vote, continued ----------

  lemma TermChangePeer(cfg: Config, peers: map<PeerId, Peer>, h: History, x: PeerId, p: Peer, q: Peer)
    requires HistoryOk(cfg, h) && x in cfg.Members() && PeerOk(cfg, h, x, p)
    requires TermChange(cfg, peers, h, x, p, q)
    ensures PeerOk(cfg, WithVote(h, x, p, q), x, q)
  {
    VoteGrows(h, x, p, q);
    TermChangeFuture(cfg, peers, h, x, p, q);
    TermChangeLog(cfg, h, x, p, q);
    TermChangeVoting(cfg, peers, h, x, p, q);
    ShorterCommit(cfg, h, WithVote(h, x, p, q), p, q);
  }

  lemma TermChangeFuture(cfg: Config, peers: map<PeerId, Peer>, h: History, x: PeerId, p: Peer, q: Peer)
    requires NoFuture(h, x, p.currentTerm) && TermChange(cfg, peers, h, x, p, q)
    ensures NoFuture(WithVote(h, x, p, q), x, q.currentTerm)
  {
    var g := WithVote(h, x, p, q);
    forall f, t: nat | GrantedTo(g, f, t, x) ensures t <= q.currentTerm {
      if Key(f, t) in h.votes { assert GrantedTo(h, f, t, x); }
    }
  }

  lemma TermChangeLog(cfg: Config, h: History, x: PeerId, p: Peer, q: Peer)
    requires HistoryOk(cfg, h) && LogOk(h, x, p) && NoFuture(h, x, p.currentTerm)
    requires q.log == p.log && p.currentTerm <= q.currentTerm
    ensures LogOk(WithVote(h, x, p, q), x, q)
  {
    var g := WithVote(h, x, p, q);
    VoteGrows(h, x, p, q);
    RootedGrows(h, g, p.log);
    KeepsNow(h, x, p, q.currentTerm + 1, q.currentTerm);
    KeepsGrows(cfg, h, g, x, q.log, q.currentTerm + 1, q.currentTerm);
    if q.currentTerm > p.currentTerm { LogTermsBelow(cfg, h, x, p, q.currentTerm); }
  }

  lemma ShorterCommit(cfg: Config, h: History, g: History, p: Peer, q: Peer)
    requires HistoryGrows(h, g) && CommitOk(cfg, h, p) && p.currentTerm <= q.currentTerm
    requires p.log <= q.log && q.lastApplied <= q.commitIndex <= p.commitIndex
    ensures CommitOk(cfg, g, q)
  {
    var a, b := q.log[..q.commitIndex], p.log[..p.commitIndex];
    assert a == b[..q.commitIndex];
    CommittedPrefix(cfg, h, a, b, p.currentTerm);
    CommittedGrows(cfg, h, g, a, p.currentTerm, q.currentTerm);
  }

  lemma TermChangeVoting(cfg: Config, peers: map<PeerId, Peer>, h: History, x: PeerId, p: Peer, q: Peer)
    requires x in cfg.Members() && NoFuture(h, x, p.currentTerm)
    requires VotingOk(cfg, h, x, p) && LeadingOk(cfg, h, x, p)
    requires TermChange(cfg, peers, h, x, p, q)
    ensures VotingOk(cfg, WithVote(h, x, p, q), x, q)
  {
    var g := WithVote(h, x, p, q);
    if q.role == Candidate {
      forall f | GrantedTo(g, f, q.currentTerm, x) ensures VotedFor(g, f, q.currentTerm, x, q.log) {
        if Key(f, q.currentTerm) in h.votes { assert GrantedTo(h, f, q.currentTerm, x); }
      }
    }
  }

  // Whoever does not act in a term change of x.
  lemma TermChangeOthers(cfg: Config, peers: map<PeerId, Peer>, h: History, x: PeerId, p: Peer, q: Peer, y: PeerId)
    requires y in peers && y != x && TermChange(cfg, peers, h, x, p, q)
    ensures Bystander(h, WithVote(h, x, p, q), y, peers[y])
  {
  }

  lemma TermChangeCore(cfg: Config, peers: map<PeerId, Peer>, h: History, x: PeerId, q: Peer)
    requires CoreOk(cfg, peers, h) && x in peers && TermChange(cfg, peers, h, x, peers[x], q)
    ensures CoreOk(cfg, peers[x := q], WithVote(h, x, peers[x], q))
    ensures HistoryGrows(h, WithVote(h, x, peers[x], q))
  {
    var p := peers[x];
    assert PeerOk(cfg, h, x, p);
    TermChangeHistory(cfg, h, x, p, q);
    TermChangePeer(cfg, peers, h, x, p, q);
    forall y | y in peers && y != x ensures Bystander(h, WithVote(h, x, p, q), y, peers[y]) {
      TermChangeOthers(cfg, peers, h, x, p, q, y);
    }
    OthersKeep(cfg, peers, h, WithVote(h, x, p, q), x, q);
  }
}
