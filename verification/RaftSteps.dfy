// Every step of the cluster keeps the invariant: the steps a peer takes by itself.
// Each is put together from the elementary changes of the modules before.
module RaftSteps {
  import opened Wrappers
  import opened Quorum
  import opened RaftPeer
  import opened RaftSystem
  import opened RaftInvariant
  import opened RaftLogs
  import opened RaftCore
  import opened RaftCoreLeader
  import opened RaftCoreFollower
  import opened RaftNet
  import opened RaftNetTerm
  import opened RaftNetElect
  import opened RaftNetLeader

  // ---------- What the observer sees ----------

  // A peer that keeps role, term, vote and log adds nothing to the history.
  lemma NothingNew(cfg: Config, h: History, x: PeerId, p: Peer, q: Peer)
    requires PeerOk(cfg, h, x, p)
    requires q.role == p.role && q.currentTerm == p.currentTerm && q.votedFor == p.votedFor && q.log == p.log
    ensures ObserveTerms(h, x, p, q) == h.terms && ObserveVotes(h, x, p, q) == h.votes
    ensures q.role == Leader ==> Key(x, q.currentTerm) in h.acc && h.acc[Key(x, q.currentTerm)] == |q.log|
    ensures q.role == Leader ==> h.acc[Key(x, q.currentTerm) := |q.log|] == h.acc
  {
    if q.role == Leader {
      assert h.terms[q.currentTerm := h.terms[q.currentTerm].(log := q.log)] == h.terms;
    }
  }

  // Requests that were pending before have been sent before.
  lemma AlreadySent(cfg: Config, s: System, x: PeerId, p: Peer, q: Peer)
    requires RpcsOk(cfg, s, x, p) && q.rpcs.Keys == p.rpcs.Keys
    requires forall f :: f in q.rpcs && q.rpcs[f].pending.Some? ==> q.rpcs[f] == p.rpcs[f]
    ensures s.sent + PendingPackets(x, q) == s.sent
  {
    forall pk | pk in PendingPackets(x, q) ensures pk in s.sent { NewPacket(x, q, pk); }
  }

  // ---------- Elementary changes ----------

  // A change that only the peer itself can tell.
  lemma Silent(st: Setup, s: System, h: History, x: PeerId, q: Peer)
    requires Inv(st, s, h) && x in s.peers && Quiet(h, x, s.peers[x], q) && Unseen(s.peers[x], q) && CacheOk(s, x, q)
    ensures Inv(st, s.(peers := s.peers[x := q]), h)
  {
    QuietCore(st.cfg, s.peers, h, x, q);
    UnseenNet(st.cfg, s, h, x, q);
  }

  lemma Commit(st: Setup, s: System, h: History, x: PeerId, n: nat)
    requires Inv(st, s, h) && x in s.peers
    requires var p := s.peers[x]; p.lastApplied <= n <= |p.log| && Committed(st.cfg, h, p.log[..n], p.currentTerm)
    ensures Inv(st, s.(peers := s.peers[x := s.peers[x].(commitIndex := n)]), h)
  {
    var q := s.peers[x].(commitIndex := n);
    CommitCore(st.cfg, s.peers, h, x, q);
    assert SocketsOk(st.cfg, s, h, x, s.peers[x]);
    UnseenNet(st.cfg, s, h, x, q);
  }

  // The majority rule applied to what the leader knows.
  lemma LeaderCommit(st: Setup, s: System, h: History, x: PeerId, n: nat)
    requires Inv(st, s, h) && x in s.peers
    requires var p := s.peers[x];
             && p.role == Leader && p.commitIndex < n <= |p.log| && p.log[n - 1].term == p.currentTerm
             && IsQuorum(st.cfg, HoldersOf(x, n, p.matchIndex))
    ensures Inv(st, s.(peers := s.peers[x := s.peers[x].(commitIndex := n)]), h)
  {
    var p := s.peers[x];
    assert PeerOk(st.cfg, h, x, p) && SocketsOk(st.cfg, s, h, x, p);
    forall f | f in p.matchIndex ensures MatchOk(h, p, f) { assert KnowsOk(s, h, x, p, f); }
    LeaderChooses(st.cfg, h, x, p, n);
    Commit(st, s, h, x, n);
  }

  lemma SoleCommit(st: Setup, s: System, h: History, x: PeerId)
    requires Inv(st, s, h) && x in s.peers && s.peers[x].role == Leader && IsSoleMaster(st.cfg, x)
    ensures Inv(st, s.(peers := s.peers[x := CommitAlone(s.peers[x])]), h)
  {
    var p := s.peers[x];
    if p.commitIndex < |p.log| && LastTerm(p.log) == p.currentTerm {
      SoleQuorum(st.cfg, x);
      QuorumGrows(st.cfg, {x}, HoldersOf(x, |p.log|, p.matchIndex));
      LeaderCommit(st, s, h, x, |p.log|);
    } else {
      assert s.peers[x := p] == s.peers;
    }
  }

  // A leader appends an entry of its term.
  lemma Append(st: Setup, s: System, h: History, x: PeerId, kind: EntryKind)
    requires Inv(st, s, h) && x in s.peers && s.peers[x].role == Leader
    ensures s.peers[x].currentTerm in h.terms
    ensures var p := s.peers[x];
            var q := p.(log := p.log + [Entry(p.currentTerm, kind)]);
            var g := WithLog(h, x, p.currentTerm, q.log);
            HistoryGrows(h, g) && Inv(st, s.(peers := s.peers[x := q]), g)
  {
    var p := s.peers[x];
    var q := p.(log := p.log + [Entry(p.currentTerm, kind)]);
    assert PeerOk(st.cfg, h, x, p);
    AppendsCore(st.cfg, s.peers, h, x, q);
    var g := WithLog(h, x, p.currentTerm, q.log);
    GrowNet(st.cfg, s, h, x, q, s.(peers := s.peers[x := q]), g);
  }

  // A leader appends an entry, and commits it at once when it is alone.
  lemma Writes(st: Setup, s: System, h: History, x: PeerId, kind: EntryKind, q: Peer)
    requires Inv(st, s, h) && x in s.peers && s.peers[x].role == Leader
    requires var p := s.peers[x];
             var r := p.(log := p.log + [Entry(p.currentTerm, kind)]);
             q == if IsSoleMaster(st.cfg, x) then CommitAlone(r) else r
    ensures s.peers[x].currentTerm in h.terms
    ensures var g := WithLog(h, x, q.currentTerm, q.log);
            HistoryGrows(h, g) && Inv(st, s.(peers := s.peers[x := q]), g)
  {
    var p := s.peers[x];
    var r := p.(log := p.log + [Entry(p.currentTerm, kind)]);
    Append(st, s, h, x, kind);
    if IsSoleMaster(st.cfg, x) {
      var z := s.(peers := s.peers[x := r]);
      SoleCommit(st, z, WithLog(h, x, p.currentTerm, r.log), x);
      assert z.peers[x := q] == s.peers[x := q];
    }
  }

  lemma Settled(st: Setup, s: System, h: History, x: PeerId)
    requires Inv(st, s, h) && x in s.peers && s.peers[x].role == Leader
    ensures s.peers[x].currentTerm in h.terms
    ensures var q := Settle(st, x, s.peers[x]);
            var g := WithLog(h, x, q.currentTerm, q.log);
            HistoryGrows(h, g) && Inv(st, s.(peers := s.peers[x := q]), g)
  {
    var p := s.peers[x];
    if LastTerm(p.log) != p.currentTerm && p.commitIndex < |p.log| {
      Writes(st, s, h, x, Checkpoint, Settle(st, x, p));
    } else {
      assert PeerOk(st.cfg, h, x, p);
      SameLog(st.cfg, h, x, p);
      if IsSoleMaster(st.cfg, x) { SoleCommit(st, s, h, x); } else { assert s.peers[x := p] == s.peers; }
    }
  }

  lemma SameLog(cfg: Config, h: History, x: PeerId, p: Peer)
    requires p.role == Leader && PeerOk(cfg, h, x, p)
    ensures p.currentTerm in h.terms && WithLog(h, x, p.currentTerm, p.log) == h
  {
    NothingNew(cfg, h, x, p, p);
  }

  // A new term, a vote, or a restart without followers' requests pending.
  lemma ChangeTerm(st: Setup, s: System, h: History, x: PeerId, q: Peer, z: System)
    requires Inv(st, s, h) && x in s.peers
    requires TermChange(st.cfg, s.peers, h, x, s.peers[x], q)
    requires z == System(s.peers[x := q], s.sent, s.answers, s.high, z.clock) && z.clock >= s.clock
    requires q.cache == s.peers[x].cache || q.cache == map[]
    requires q.rpcs.Keys == s.peers[x].rpcs.Keys
    requires forall f {:trigger q.rpcs[f]} :: f in q.rpcs ==>
               q.rpcs[f].pending.None? && Reconnected(s.clock, z.clock, s.peers[x].rpcs[f], q.rpcs[f])
    ensures var g := WithVote(h, x, s.peers[x], q); Inv(st, z, g) && HistoryGrows(h, g)
  {
    TermChangeCore(st.cfg, s.peers, h, x, q);
    TermChangeNet(st.cfg, s, h, x, q, z, WithVote(h, x, s.peers[x], q));
  }

  // A candidate c with a quorum of votes becomes leader q.
  lemma Elect(st: Setup, s: System, h: History, x: PeerId, q: Peer, z: System)
    requires Inv(st, s, h) && x in s.peers && Elects(s.peers[x], q)
    requires IsQuorum(st.cfg, s.peers[x].granted) && s.peers[x].currentTerm > 0 && s.peers[x].votedFor.Some?
    requires q.votedFor == s.peers[x].votedFor
             || (Others(st.cfg, x) == {} && (q.votedFor.Some? ==> q.votedFor.value == x))
    requires z == System(s.peers[x := q], s.sent + PendingPackets(x, q), s.answers, s.high, z.clock)
    requires z.clock >= s.clock && q.cache == s.peers[x].cache && q.rpcs.Keys == s.peers[x].rpcs.Keys
    requires forall f {:trigger q.rpcs[f]} :: f in q.rpcs ==> GreetOk(s.clock, z.clock, s.peers[x], q, f)
    requires q.nextIndex.Keys == Others(st.cfg, x) && q.matchIndex.Keys == Others(st.cfg, x)
    requires q.matchTerm.Keys == Others(st.cfg, x)
    requires forall f {:trigger q.nextIndex[f]} :: f in Others(st.cfg, x) ==>
               q.nextIndex[f] == |q.log| + 1 && q.matchIndex[f] == 0 && q.matchTerm[f] == 0
    ensures s.peers[x].currentTerm !in h.terms
    ensures var g := WithTerm(h, x, s.peers[x]); Inv(st, z, g) && HistoryGrows(h, g)
  {
    var c := s.peers[x];
    assert PeerOk(st.cfg, h, x, c);
    ElectsCore(st.cfg, s.peers, h, x, q);
    var g := WithTerm(h, x, c);
    CommittedGrows(st.cfg, h, g, c.log[..c.commitIndex], c.currentTerm, c.currentTerm);
    ElectNet(st.cfg, s, h, x, q, z, g);
  }

  lemma Tick(st: Setup, s: System, h: History)
    requires Inv(st, s, h)
    ensures Inv(st, s.(clock := s.clock + 1), h)
  {
    TickNet(st.cfg, s, h);
  }

  // ---------- Steps ----------

  ghost predicate Kept(st: Setup, s: System, h: History, step: Step)
    requires Enabled(st, s, step)
  {
    Inv(st, Next(st, s, step), Observe(st, s, h, step)) && HistoryGrows(h, Observe(st, s, h, step))
  }

  lemma Facts(st: Setup, s: System, h: History, x: PeerId)
    requires Inv(st, s, h) && x in s.peers
    ensures PeerOk(st.cfg, h, x, s.peers[x]) && SocketsOk(st.cfg, s, h, x, s.peers[x])
    ensures x in st.cfg.Members()
  {
  }

  // A step without a delivery: the peer's new state, what it sends, and the tick.
  ghost predicate Moves(s: System, x: PeerId, q: Peer, z: System) {
    x in s.peers && z == System(s.peers[x := q], s.sent + PendingPackets(x, q), s.answers, s.high, s.clock + 1)
  }

  ghost predicate Noted(h: History, x: PeerId, p: Peer, q: Peer, g: History) {
    && g.terms == ObserveTerms(h, x, p, q) && g.votes == ObserveVotes(h, x, p, q)
    && g.acc == if q.role == Leader then h.acc[Key(x, q.currentTerm) := |q.log|] else h.acc
  }

  lemma MovedView(st: Setup, s: System, h: History, step: Step, q: Peer, z: System, g: History)
    requires Enabled(st, s, step) && !step.DeliverRequest? && Act(st, s, step).peer == q
    requires Moves(s, Actor(step), q, z) && Noted(h, Actor(step), s.peers[Actor(step)], q, g)
    ensures Next(st, s, step) == z && Observe(st, s, h, step) == g
  {
    MovedNext(st, s, step, q, z);
    MovedObserved(st, s, h, step, q, g);
  }

  lemma MovedNext(st: Setup, s: System, step: Step, q: Peer, z: System)
    requires Enabled(st, s, step) && !step.DeliverRequest? && Act(st, s, step).peer == q
    requires Moves(s, Actor(step), q, z)
    ensures Next(st, s, step) == z
  {
    assert Replies(step, Act(st, s, step).reply) == {};
  }

  lemma MovedObserved(st: Setup, s: System, h: History, step: Step, q: Peer, g: History)
    requires Enabled(st, s, step) && !step.DeliverRequest? && Act(st, s, step).peer == q
    requires Noted(h, Actor(step), s.peers[Actor(step)], q, g)
    ensures Observe(st, s, h, step) == g
  {
  }

  lemma Moved(st: Setup, s: System, h: History, step: Step, q: Peer, z: System, g: History)
    requires Enabled(st, s, step) && !step.DeliverRequest? && Act(st, s, step).peer == q
    requires Moves(s, Actor(step), q, z) && Noted(h, Actor(step), s.peers[Actor(step)], q, g)
    requires Inv(st, z, g) && HistoryGrows(h, g)
    ensures Kept(st, s, h, step)
  {
    MovedView(st, s, h, step, q, z, g);
  }

  // The same for a step that sends nothing new, from the state before the tick.
  lemma Arrived(st: Setup, s: System, h: History, step: Step, q: Peer, g: History)
    requires Enabled(st, s, step) && !step.DeliverRequest? && Act(st, s, step).peer == q
    requires Moves(s, Actor(step), q, s.(peers := s.peers[Actor(step) := q]).(clock := s.clock + 1))
    requires Noted(h, Actor(step), s.peers[Actor(step)], q, g)
    requires Inv(st, s.(peers := s.peers[Actor(step) := q]), g) && HistoryGrows(h, g)
    ensures Kept(st, s, h, step)
  {
    Tick(st, s.(peers := s.peers[Actor(step) := q]), g);
    MovedView(st, s, h, step, q, s.(peers := s.peers[Actor(step) := q]).(clock := s.clock + 1), g);
  }

  // A move that keeps role, term, vote and log, and sends nothing.
  lemma Unnoted(st: Setup, s: System, h: History, x: PeerId, q: Peer)
    requires x in s.peers && PeerOk(st.cfg, h, x, s.peers[x]) && RpcsOk(st.cfg, s, x, s.peers[x])
    requires var p := s.peers[x];
             && q.role == p.role && q.currentTerm == p.currentTerm && q.votedFor == p.votedFor
             && q.log == p.log && q.rpcs == p.rpcs
    ensures Noted(h, x, s.peers[x], q, h)
    ensures Moves(s, x, q, s.(peers := s.peers[x := q]).(clock := s.clock + 1))
  {
    NothingNew(st.cfg, h, x, s.peers[x], q);
    AlreadySent(st.cfg, s, x, s.peers[x], q);
  }

  lemma StepApply(st: Setup, s: System, h: History, step: Step)
    requires Inv(st, s, h) && Enabled(st, s, step) && step.ApplyLog?
    ensures Kept(st, s, h, step)
  {
    var x := step.me;
    var q := s.peers[x].(lastApplied := step.upTo);
    Facts(st, s, h, x);
    Unnoted(st, s, h, x, q);
    Silent(st, s, h, x, q);
    Arrived(st, s, h, step, q, h);
  }

  lemma StepReplicate(st: Setup, s: System, h: History, step: Step)
    requires Inv(st, s, h) && Enabled(st, s, step) && step.Replicate?
    ensures Kept(st, s, h, step)
  {
    var x, p, q := step.me, s.peers[step.me], SendAppend(s.peers[step.me], step.follower, step.count);
    Facts(st, s, h, x);
    NothingNew(st.cfg, h, x, p, q);
    QuietCore(st.cfg, s.peers, h, x, q);
    var z := s.(peers := s.peers[x := q], sent := s.sent + PendingPackets(x, q));
    SendNet(st.cfg, s, h, x, step.follower, step.count, z);
    Tick(st, z, h);
    Moved(st, s, h, step, q, z.(clock := s.clock + 1), h);
  }

  lemma ClientView(st: Setup, s: System, h: History, x: PeerId, q: Peer)
    requires x in s.peers && PeerOk(st.cfg, h, x, s.peers[x]) && RpcsOk(st.cfg, s, x, s.peers[x])
    requires s.peers[x].role == Leader && q.role == Leader && q.rpcs == s.peers[x].rpcs
    requires q.currentTerm == s.peers[x].currentTerm
    ensures s.peers[x].currentTerm in h.terms
    ensures Noted(h, x, s.peers[x], q, WithLog(h, x, q.currentTerm, q.log))
    ensures Moves(s, x, q, s.(peers := s.peers[x := q]).(clock := s.clock + 1))
  {
    AlreadySent(st.cfg, s, x, s.peers[x], q);
  }

  lemma ClientActs(st: Setup, s: System, step: Step, q: Peer)
    requires Enabled(st, s, step) && step.ClientUpdate?
    requires q == ClientAppend(st, step.me, s.peers[step.me], step.data)
    ensures Act(st, s, step).peer == q
  {
  }

  lemma StepClient(st: Setup, s: System, h: History, step: Step)
    requires Inv(st, s, h) && Enabled(st, s, step) && step.ClientUpdate?
    ensures Kept(st, s, h, step)
  {
    var x, p := step.me, s.peers[step.me];
    var q := ClientAppend(st, x, p, step.data);
    Facts(st, s, h, x);
    ClientActs(st, s, step, q);
    ClientView(st, s, h, x, q);
    Writes(st, s, h, x, State(step.data), q);
    Arrived(st, s, h, step, q, WithLog(h, x, q.currentTerm, q.log));
  }

  // ---------- Becoming leader ----------

  // The observer's record of a victory, put together from its elementary parts.
  lemma CrownedHistory(h: History, x: PeerId, p: Peer, c: Peer, q: Peer)
    requires c.role == Candidate && c.votedFor == Some(x) && c.log == p.log && c.currentTerm !in h.terms
    requires q.role == Leader && q.currentTerm == c.currentTerm && c.granted == q.granted + {x}
    ensures var g := WithLog(WithTerm(WithVote(h, x, p, c), x, c), x, c.currentTerm, q.log);
            && g.terms == ObserveTerms(h, x, p, q) && g.votes == ObserveVotes(h, x, p, q)
            && g.acc == h.acc[Key(x, c.currentTerm) := |q.log|]
  {
  }

  lemma CrownGreets(st: Setup, x: PeerId, c: Peer, b: Peer, ident: nat, f: PeerId)
    requires Heir(st.cfg, x, c, b) && f in Crown(st, x, b, ident).rpcs && (b == c || f !in c.rpcs)
    ensures GreetOk(ident, ident + 1, c, Crown(st, x, b, ident), f)
  {
    assert b.rpcs == c.rpcs && f in c.rpcs;
    assert ResetAll(c.rpcs, ident)[f] == ResetRpc(c.rpcs[f], ident);
  }

  // What becomeLeader is called on: a winner of an election is the candidate c
  // itself; a sole master that starts again has counted no votes.
  predicate Heir(cfg: Config, x: PeerId, c: Peer, b: Peer) {
    && c.role == Candidate && c.votedFor.Some? && c.currentTerm > 0
    && (b == c
        || (&& Others(cfg, x) == {} && (b.votedFor.Some? ==> b.votedFor.value == x)
            && b.currentTerm == c.currentTerm && b.log == c.log && b.commitIndex == c.commitIndex
            && b.lastApplied == c.lastApplied && b.cache == c.cache && b.rpcs == c.rpcs))
  }

  lemma TakesOver(st: Setup, s: System, h: History, x: PeerId, b: Peer, ident: nat, z: System)
    requires Inv(st, s, h) && x in s.peers && Heir(st.cfg, x, s.peers[x], b) && IsQuorum(st.cfg, s.peers[x].granted)
    requires Others(st.cfg, x) == {} || ident == s.clock
    requires z.clock == ident + 1 && z.clock >= s.clock
    requires var r := Crown(st, x, b, ident);
             z == System(s.peers[x := r], s.sent + PendingPackets(x, r), s.answers, s.high, z.clock)
    ensures s.peers[x].currentTerm !in h.terms
    ensures var g := WithTerm(h, x, s.peers[x]); Inv(st, z, g) && HistoryGrows(h, g)
  {
    Facts(st, s, h, x);
    CrownedSockets(st, s, x, b, ident);
    Elect(st, s, h, x, Crown(st, x, b, ident), z);
  }

  // The winner settles in: z is the state in which it leads.
  lemma Crowned(st: Setup, s: System, h: History, x: PeerId, b: Peer, ident: nat, z: System)
    requires Inv(st, s, h) && x in s.peers && Heir(st.cfg, x, s.peers[x], b) && IsQuorum(st.cfg, s.peers[x].granted)
    requires Others(st.cfg, x) == {} || ident == s.clock
    requires z.clock == ident + 1 && z.clock >= s.clock
    requires var q := BecomeLeader(st, x, b, ident);
             z == System(s.peers[x := q], s.sent + PendingPackets(x, q), s.answers, s.high, z.clock)
    ensures s.peers[x].currentTerm !in h.terms
    ensures var c := s.peers[x];
            var g := WithLog(WithTerm(h, x, c), x, c.currentTerm, z.peers[x].log);
            HistoryGrows(h, g) && Inv(st, z, g)
  {
    var c, r := s.peers[x], Crown(st, x, b, ident);
    var m := System(s.peers[x := r], s.sent + PendingPackets(x, r), s.answers, s.high, z.clock);
    var g := WithTerm(h, x, c);
    TakesOver(st, s, h, x, b, ident, m);
    CrownedView(st, s, x, b, ident, m, z);
    Settled(st, m, g, x);
    HistoryGrowsOn(h, g, WithLog(g, x, c.currentTerm, z.peers[x].log));
  }

  // The second half touches neither the role nor the sockets.
  lemma SettledView(st: Setup, s: System, x: PeerId, r: Peer, m: System, z: System)
    requires x in s.peers
    requires m == System(s.peers[x := r], s.sent + PendingPackets(x, r), s.answers, s.high, z.clock)
    requires var q := Settle(st, x, r);
             z == System(s.peers[x := q], s.sent + PendingPackets(x, q), s.answers, s.high, z.clock)
    ensures z == m.(peers := m.peers[x := Settle(st, x, m.peers[x])])
    ensures Settle(st, x, r).currentTerm == r.currentTerm
  {
    var q := Settle(st, x, r);
    SettleRpcs(st, x, r);
    SamePending(x, q, r);
    assert m.peers[x := q] == s.peers[x := q];
  }

  lemma SettleRpcs(st: Setup, x: PeerId, r: Peer)
    ensures Settle(st, x, r).rpcs == r.rpcs && Settle(st, x, r).currentTerm == r.currentTerm
  {
    AloneRpcs(r);
    AloneRpcs(r.(log := r.log + [Entry(r.currentTerm, Checkpoint)]));
    if IsSoleMaster(st.cfg, x) {} else {}
  }

  lemma AloneRpcs(r: Peer)
    ensures CommitAlone(r).rpcs == r.rpcs && CommitAlone(r).currentTerm == r.currentTerm
  {
  }

  lemma SamePending(x: PeerId, q: Peer, r: Peer)
    requires q.rpcs == r.rpcs
    ensures PendingPackets(x, q) == PendingPackets(x, r)
  {
  }

  lemma CrownedView(st: Setup, s: System, x: PeerId, b: Peer, ident: nat, m: System, z: System)
    requires x in s.peers
    requires var r := Crown(st, x, b, ident);
             m == System(s.peers[x := r], s.sent + PendingPackets(x, r), s.answers, s.high, z.clock)
    requires var q := BecomeLeader(st, x, b, ident);
             z == System(s.peers[x := q], s.sent + PendingPackets(x, q), s.answers, s.high, z.clock)
    ensures x in m.peers && m.peers[x].role == Leader && m.peers[x].currentTerm == b.currentTerm
    ensures z == m.(peers := m.peers[x := Settle(st, x, m.peers[x])])
    ensures Settle(st, x, m.peers[x]).currentTerm == b.currentTerm && z.peers[x] == Settle(st, x, m.peers[x])
  {
    SettledView(st, s, x, Crown(st, x, b, ident), m, z);
  }

  lemma CrownedSockets(st: Setup, s: System, x: PeerId, b: Peer, ident: nat)
    requires x in s.peers && Heir(st.cfg, x, s.peers[x], b) && RpcsOk(st.cfg, s, x, s.peers[x])
    requires Others(st.cfg, x) == {} || ident == s.clock
    ensures var c, r := s.peers[x], Crown(st, x, b, ident);
            && Elects(c, r) && r.cache == c.cache && r.votedFor == b.votedFor
            && r.rpcs.Keys == c.rpcs.Keys
            && forall f {:trigger r.rpcs[f]} :: f in r.rpcs ==> GreetOk(s.clock, ident + 1, c, r, f)
    ensures var r := Crown(st, x, b, ident);
            && r.nextIndex.Keys == Others(st.cfg, x) && r.matchIndex.Keys == Others(st.cfg, x)
            && r.matchTerm.Keys == Others(st.cfg, x)
            && forall f {:trigger r.nextIndex[f]} :: f in Others(st.cfg, x) ==>
                 r.nextIndex[f] == |r.log| + 1 && r.matchIndex[f] == 0 && r.matchTerm[f] == 0
  {
    var r := Crown(st, x, b, ident);
    forall f | f in r.rpcs ensures GreetOk(s.clock, ident + 1, s.peers[x], r, f) {
      CrownGreets(st, x, s.peers[x], b, ident, f);
    }
  }

  lemma HistoryGrowsOn(a: History, b: History, c: History)
    requires HistoryGrows(a, b) && HistoryGrows(b, c)
    ensures HistoryGrows(a, c)
  {
    forall t | t in a.terms ensures TermGrows(t, a.terms[t], c.terms[t]) {
      assert TermGrows(t, a.terms[t], b.terms[t]) && TermGrows(t, b.terms[t], c.terms[t]);
    }
  }

  // ---------- Timeouts ----------

  ghost function Standing(st: Setup, me: PeerId, p: Peer, ident: nat): Peer {
    UpdateState(p, Candidate, p.currentTerm + 1, Some(me), ident).(voted := {me}, granted := {me})
  }

  lemma StandsForElection(st: Setup, s: System, h: History, x: PeerId)
    requires Inv(st, s, h) && x in s.peers && s.peers[x].role != Leader
    ensures var c := Standing(st, x, s.peers[x], s.clock);
            var g := WithVote(h, x, s.peers[x], c);
            Inv(st, System(s.peers[x := c], s.sent, s.answers, s.high, s.clock + 1), g) && HistoryGrows(h, g)
  {
    var p, c := s.peers[x], Standing(st, x, s.peers[x], s.clock);
    Facts(st, s, h, x);
    forall f | f in c.rpcs
      ensures c.rpcs[f].pending.None? && Reconnected(s.clock, s.clock + 1, p.rpcs[f], c.rpcs[f])
    {
    }
    ChangeTerm(st, s, h, x, c, System(s.peers[x := c], s.sent, s.answers, s.high, s.clock + 1));
  }

  lemma AsksForVotes(st: Setup, s: System, h: History, x: PeerId, q: Peer, z: System)
    requires Inv(st, s, h) && AsksStep(st.cfg, s, x, q, z)
    ensures Inv(st, z, h)
  {
    Facts(st, s, h, x);
    QuietCore(st.cfg, s.peers, h, x, q);
    AsksNet(st.cfg, s, h, x, q, z);
  }

  lemma StepTimeout(st: Setup, s: System, h: History, step: Step)
    requires Inv(st, s, h) && Enabled(st, s, step) && step.Timeout?
    ensures Kept(st, s, h, step)
  {
    var x, p := step.me, s.peers[step.me];
    Facts(st, s, h, x);
    if Spiralling(st, p) {
      Unnoted(st, s, h, x, p);
      Silent(st, s, h, x, p);
      Arrived(st, s, h, step, p, h);
    } else {
      var c := Standing(st, x, p, s.clock);
      var m := System(s.peers[x := c], s.sent, s.answers, s.high, s.clock + 1);
      StandsForElection(st, s, h, x);
      if IsSoleMaster(st.cfg, x) {
        TimeoutSole(st, s, h, step, c, m, WithVote(h, x, p, c));
      } else {
        TimeoutAsks(st, s, h, step, c, m, WithVote(h, x, p, c));
      }
    }
  }

  // The state and history after the first half of the step.
  ghost predicate Stands(st: Setup, s: System, h: History, step: Step, c: Peer, m: System, g: History) {
    && Enabled(st, s, step) && step.Timeout? && !Spiralling(st, s.peers[step.me])
    && c == Standing(st, step.me, s.peers[step.me], s.clock)
    && m == System(s.peers[step.me := c], s.sent, s.answers, s.high, s.clock + 1)
    && g == WithVote(h, step.me, s.peers[step.me], c)
  }

  lemma TimeoutAsks(st: Setup, s: System, h: History, step: Step, c: Peer, m: System, g: History)
    requires Stands(st, s, h, step, c, m, g) && !IsSoleMaster(st.cfg, step.me)
    requires RpcsOk(st.cfg, s, step.me, s.peers[step.me])
    requires Inv(st, m, g) && HistoryGrows(h, g)
    ensures Kept(st, s, h, step)
  {
    var x, p := step.me, s.peers[step.me];
    var q := c.(rpcs := SendAll(c.rpcs, VoteRequest(c.currentTerm, |c.log|, LastTerm(c.log))));
    var z := System(m.peers[x := q], s.sent + PendingPackets(x, q), s.answers, s.high, s.clock + 1);
    AsksView(st, s, h, step, c, m, g, q, z);
    AsksForVotes(st, m, g, x, q, z);
    Moved(st, s, h, step, q, z, g);
  }

  lemma AsksView(st: Setup, s: System, h: History, step: Step, c: Peer, m: System, g: History, q: Peer, z: System)
    requires Stands(st, s, h, step, c, m, g) && !IsSoleMaster(st.cfg, step.me)
    requires RpcsOk(st.cfg, s, step.me, s.peers[step.me])
    requires q == c.(rpcs := SendAll(c.rpcs, VoteRequest(c.currentTerm, |c.log|, LastTerm(c.log))))
    requires z == System(m.peers[step.me := q], s.sent + PendingPackets(step.me, q), s.answers, s.high, s.clock + 1)
    ensures AsksStep(st.cfg, m, step.me, q, z)
    ensures Act(st, s, step).peer == q && Moves(s, step.me, q, z) && Noted(h, step.me, s.peers[step.me], q, g)
  {
    AsksActs(st, s, step, c, q);
    forall f | f in c.rpcs ensures c.rpcs[f].pending.None? {}
    assert m.peers[step.me := q] == s.peers[step.me := q];
  }

  lemma AsksActs(st: Setup, s: System, step: Step, c: Peer, q: Peer)
    requires Enabled(st, s, step) && step.Timeout? && !Spiralling(st, s.peers[step.me])
    requires c == Standing(st, step.me, s.peers[step.me], s.clock) && !IsSoleMaster(st.cfg, step.me)
    requires q == c.(rpcs := SendAll(c.rpcs, VoteRequest(c.currentTerm, |c.log|, LastTerm(c.log))))
    ensures Act(st, s, step).peer == q
  {
  }

  lemma TimeoutSole(st: Setup, s: System, h: History, step: Step, c: Peer, m: System, g: History)
    requires Stands(st, s, h, step, c, m, g) && IsSoleMaster(st.cfg, step.me)
    requires step.me in st.cfg.Members()
    requires Inv(st, m, g) && HistoryGrows(h, g)
    ensures Kept(st, s, h, step)
  {
    SoleView(st, s, h, step, c, m, g);
    SoleRises(st, s, h, step, c, c, m, g);
  }

  lemma SoleView(st: Setup, s: System, h: History, step: Step, c: Peer, m: System, g: History)
    requires Stands(st, s, h, step, c, m, g) && IsSoleMaster(st.cfg, step.me)
    ensures Act(st, s, step).peer == BecomeLeader(st, step.me, c, s.clock)
    ensures Heir(st.cfg, step.me, c, c) && c.votedFor == Some(step.me) && c.granted == {step.me}
    ensures c.log == s.peers[step.me].log
  {
  }

  // A sole master x, candidate c in the state m, becomes leader as b.
  lemma SoleRises(st: Setup, s: System, h: History, step: Step, b: Peer, c: Peer, m: System, g: History)
    requires Enabled(st, s, step) && !step.DeliverRequest? && IsSoleMaster(st.cfg, Actor(step))
    requires Actor(step) in st.cfg.Members() && Act(st, s, step).peer == BecomeLeader(st, Actor(step), b, s.clock)
    requires Heir(st.cfg, Actor(step), c, b) && c.votedFor == Some(Actor(step)) && c.granted == {Actor(step)}
    requires b.granted <= c.granted && c.log == s.peers[Actor(step)].log
    requires m == System(s.peers[Actor(step) := c], s.sent, s.answers, s.high, s.clock + 1)
    requires g == WithVote(h, Actor(step), s.peers[Actor(step)], c)
    requires Inv(st, m, g) && HistoryGrows(h, g)
    ensures Kept(st, s, h, step)
  {
    var x := Actor(step);
    var q := BecomeLeader(st, x, b, s.clock);
    var z := System(m.peers[x := q], s.sent + PendingPackets(x, q), s.answers, s.high, s.clock + 1);
    SoleQuorum(st.cfg, x);
    Crowned(st, m, g, x, b, s.clock, z);
    var e := WithLog(WithTerm(g, x, c), x, c.currentTerm, q.log);
    RisesView(st, s, h, x, b, c, q, m, z);
    HistoryGrowsOn(h, g, e);
    Moved(st, s, h, step, q, z, e);
  }

  lemma RisesView(st: Setup, s: System, h: History, x: PeerId, b: Peer, c: Peer, q: Peer, m: System, z: System)
    requires x in s.peers && q == BecomeLeader(st, x, b, s.clock)
    requires c.role == Candidate && c.votedFor == Some(x) && c.granted == {x} && b.granted <= c.granted
    requires c.log == s.peers[x].log && b.currentTerm == c.currentTerm && c.currentTerm !in h.terms
    requires m.peers == s.peers[x := c]
    requires z == System(m.peers[x := q], s.sent + PendingPackets(x, q), s.answers, s.high, s.clock + 1)
    ensures Moves(s, x, q, z)
    ensures var g := WithVote(h, x, s.peers[x], c);
            Noted(h, x, s.peers[x], q, WithLog(WithTerm(g, x, c), x, c.currentTerm, q.log))
  {
    BecomesLeader(st, x, b, s.clock);
    CrownedHistory(h, x, s.peers[x], c, q);
    assert m.peers[x := q] == s.peers[x := q];
  }

  lemma BecomesLeader(st: Setup, x: PeerId, b: Peer, ident: nat)
    ensures var q := BecomeLeader(st, x, b, ident);
            q.role == Leader && q.currentTerm == b.currentTerm && q.granted == b.granted
  {
  }

  // ---------- Starting again ----------

  // No request is pending; a connection is kept or new.
  predicate FreshSockets(p: Peer, q: Peer, clock: nat) {
    && (q.cache == p.cache || q.cache == map[]) && q.rpcs.Keys == p.rpcs.Keys
    && forall f {:trigger q.rpcs[f]} :: f in q.rpcs ==>
         q.rpcs[f].pending.None? && Reconnected(clock, clock + 1, p.rpcs[f], q.rpcs[f])
  }

  // A step that takes its peer to a new term or through a restart, sending nothing.
  lemma Changes(st: Setup, s: System, h: History, step: Step, q: Peer)
    requires Inv(st, s, h) && Enabled(st, s, step) && !step.DeliverRequest? && Act(st, s, step).peer == q
    requires TermChange(st.cfg, s.peers, h, Actor(step), s.peers[Actor(step)], q) && q.role == Follower
    requires FreshSockets(s.peers[Actor(step)], q, s.clock)
    ensures Kept(st, s, h, step)
  {
    var x := Actor(step);
    var z := System(s.peers[x := q], s.sent, s.answers, s.high, s.clock + 1);
    ChangeTerm(st, s, h, x, q, z);
    SendsNothing(s, x, q, z);
    Moved(st, s, h, step, q, z, WithVote(h, x, s.peers[x], q));
  }

  lemma SendsNothing(s: System, x: PeerId, q: Peer, z: System)
    requires x in s.peers && FreshSockets(s.peers[x], q, s.clock)
    requires z == System(s.peers[x := q], s.sent, s.answers, s.high, s.clock + 1)
    ensures Moves(s, x, q, z)
  {
    assert PendingPackets(x, q) == {};
  }

  lemma VotedForMember(cfg: Config, h: History, x: PeerId, p: Peer)
    requires HistoryOk(cfg, h) && VotingOk(cfg, h, x, p)
    ensures p.votedFor.Some? ==> p.votedFor.value in cfg.Members()
  {
    if p.votedFor.Some? {
      var key := Key(x, p.currentTerm);
      assert VoteOk(cfg, h, key, h.votes[key]);
    }
  }

  ghost function Booted(st: Setup, me: PeerId, p: Peer, applied: nat, ident: nat): Peer {
    Peer(Follower, p.currentTerm, p.votedFor, p.log, applied, applied, {}, {}, map[], map[], map[],
         Table(Others(st.cfg, me), Rpc(ident, 0, None)), map[], false)
  }

  lemma StepCrash(st: Setup, s: System, h: History, step: Step)
    requires Inv(st, s, h) && Enabled(st, s, step) && step.Crash?
    ensures Kept(st, s, h, step)
  {
    if IsSoleMaster(st.cfg, step.me) { CrashSole(st, s, h, step); } else { CrashOther(st, s, h, step); }
  }

  lemma CrashOther(st: Setup, s: System, h: History, step: Step)
    requires Inv(st, s, h) && Enabled(st, s, step) && step.Crash? && !IsSoleMaster(st.cfg, step.me)
    ensures Kept(st, s, h, step)
  {
    var x, p := step.me, s.peers[step.me];
    Facts(st, s, h, x);
    VotedForMember(st.cfg, h, x, p);
    Changes(st, s, h, step, Booted(st, x, p, step.applied, s.clock));
  }

  // A sole master starts again as the leader of a new term.
  lemma CrashSole(st: Setup, s: System, h: History, step: Step)
    requires Inv(st, s, h) && Enabled(st, s, step) && step.Crash? && IsSoleMaster(st.cfg, step.me)
    ensures Kept(st, s, h, step)
  {
    var x, p := step.me, s.peers[step.me];
    var b := Booted(st, x, p, step.applied, s.clock).(role := Leader, currentTerm := p.currentTerm + 1);
    var c := b.(role := Candidate, votedFor := Some(x), granted := {x});
    var m := System(s.peers[x := c], s.sent, s.answers, s.high, s.clock + 1);
    Facts(st, s, h, x);
    VotedForMember(st.cfg, h, x, p);
    ChangeTerm(st, s, h, x, c, m);
    CrashCrowned(st, s, h, step, b, c, m, WithVote(h, x, p, c));
  }

  lemma OnlyMember(cfg: Config, x: PeerId, y: PeerId)
    requires IsSoleMaster(cfg, x) && y in cfg.Members()
    ensures y == x
  {
    assert y !in Others(cfg, x);
  }

  lemma CrashCrowned(st: Setup, s: System, h: History, step: Step, b: Peer, c: Peer, m: System, g: History)
    requires Enabled(st, s, step) && step.Crash? && IsSoleMaster(st.cfg, step.me) && step.me in st.cfg.Members()
    requires s.peers[step.me].votedFor.Some? ==> s.peers[step.me].votedFor.value in st.cfg.Members()
    requires b == Booted(st, step.me, s.peers[step.me], step.applied, s.clock)
                  .(role := Leader, currentTerm := s.peers[step.me].currentTerm + 1)
    requires c == b.(role := Candidate, votedFor := Some(step.me), granted := {step.me})
    requires m == System(s.peers[step.me := c], s.sent, s.answers, s.high, s.clock + 1)
    requires g == WithVote(h, step.me, s.peers[step.me], c)
    requires Inv(st, m, g) && HistoryGrows(h, g)
    ensures Kept(st, s, h, step)
  {
    var x, p := step.me, s.peers[step.me];
    if p.votedFor.Some? { OnlyMember(st.cfg, x, p.votedFor.value); }
    assert Act(st, s, step).peer == BecomeLeader(st, x, b, s.clock);
    SoleRises(st, s, h, step, b, c, m, g);
  }
}
