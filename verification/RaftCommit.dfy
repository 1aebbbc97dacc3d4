// When a leader commits. An entry is committed as soon as the index that is acknowledged
// is held by a quorum; indexes below it are not looked at, so that a leader may be behind
// what its quorum holds, and it is said exactly when.
module RaftCommit {
  import opened Wrappers
  import opened Quorum
  import opened RaftPeer
  import opened RaftSystem
  import opened RaftInvariant
  import opened RaftLogs
  import opened RaftSteps
  import opened RaftSafety
  import Counting = ClusterConfiguration

  // ---------- Who holds an index ----------

  // The count that majorityHasLogIndex takes over its peers is what the leader of the
  // system goes by.
  method MajorityHasLogIndex(c: Counting.ClusterConfiguration, index: nat, matchIndex: map<PeerId, nat>) returns (r: bool)
    requires c.Valid()
    ensures r <==> IsQuorum(c.Cfg(), HoldersOf(c.peerId, index, matchIndex))
  {
    c.SufficesIsQuorum(HoldersOf(c.peerId, index, matchIndex));
    assert c.Holders(index, matchIndex) == HoldersOf(c.peerId, index, matchIndex);
    r := c.MajorityHasLogIndex(index, matchIndex);
  }

  // A lower index, and one more acknowledgement, have as many holders or more.
  lemma HoldersGrow(me: PeerId, i: nat, j: nat, matchIndex: map<PeerId, nat>, f: PeerId, more: nat)
    requires i <= j && (f in matchIndex ==> matchIndex[f] <= more)
    ensures HoldersOf(me, j, matchIndex) <= HoldersOf(me, i, matchIndex[f := more])
  {
  }

  // ---------- A step ----------

  // A leader that hears that the request it waits for was accepted.
  ghost predicate Acknowledges(st: Setup, s: System, step: Step) {
    && Informs(st, s, step) && step.answer.resp.success
  }

  // The last index of the request that is acknowledged.
  function Acknowledged(s: System, step: Step): nat
    requires step.DeliverAnswer? && Actor(step) in s.peers && Awaited(s.peers[Actor(step)], step.answer)
  {
    var r := s.peers[Actor(step)].rpcs[step.answer.conn.dst].pending.value;
    if r.AppendRequest? then r.LastIndex() else 0
  }

  // The leader after its request to f was accepted, or refused.
  function Accepted(cfg: Config, x: PeerId, p: Peer, f: PeerId): (q: Peer)
    requires f in p.rpcs && p.rpcs[f].pending.Some? && p.rpcs[f].pending.value.AppendRequest?
  {
    var r := p.rpcs[f].pending.value;
    var last := r.LastIndex();
    var matchIndex := p.matchIndex[f := last];
    var commits := r.SentLastTerm() == p.currentTerm && last > p.commitIndex && IsQuorum(cfg, HoldersOf(x, last, matchIndex));
    p.(rpcs := p.rpcs[f := p.rpcs[f].(pending := None)], matchIndex := matchIndex,
       matchTerm := p.matchTerm[f := r.SentLastTerm()], nextIndex := p.nextIndex[f := last + 1],
       commitIndex := if commits then last else p.commitIndex)
  }

  function Refused(p: Peer, f: PeerId, conflict: Option<nat>): Peer
    requires f in p.rpcs && p.rpcs[f].pending.Some? && p.rpcs[f].pending.value.AppendRequest?
  {
    p.(rpcs := p.rpcs[f := p.rpcs[f].(pending := None)],
       nextIndex := p.nextIndex[f := NextIndexAfterRefusal(p.rpcs[f].pending.value.prevIndex, conflict)])
  }

  lemma TakesReply(st: Setup, x: PeerId, p: Peer, a: Answer, ident: nat)
    requires Awaited(p, a) && a.resp.AppendResponse? && p.rpcs[a.conn.dst].pending.value.AppendRequest?
    requires p.role == Leader && a.resp.term <= p.currentTerm == p.rpcs[a.conn.dst].pending.value.term
    ensures Receive(st, x, p, a, ident)
         == if a.resp.success then Accepted(st.cfg, x, p, a.conn.dst) else Refused(p, a.conn.dst, a.resp.conflict)
  {
    var f := a.conn.dst;
    var r := p.rpcs[f].pending.value;
    if a.resp.success { TakesAcceptance(st, x, p, f, a.resp, ident); } else { TakesRefusal(st, x, p, f, a.resp, ident); }
  }

  lemma TakesAcceptance(st: Setup, x: PeerId, p: Peer, f: PeerId, resp: Response, ident: nat)
    requires f in p.rpcs && p.rpcs[f].pending.Some? && p.rpcs[f].pending.value.AppendRequest?
    requires p.role == Leader && resp.AppendResponse? && resp.success
    requires resp.term <= p.currentTerm == p.rpcs[f].pending.value.term
    ensures OnAppendResponse(st, x, p.(rpcs := p.rpcs[f := p.rpcs[f].(pending := None)]), f, p.rpcs[f].pending.value,
                             resp.term, true, resp.conflict, ident) == Accepted(st.cfg, x, p, f)
  {
  }

  lemma TakesRefusal(st: Setup, x: PeerId, p: Peer, f: PeerId, resp: Response, ident: nat)
    requires f in p.rpcs && p.rpcs[f].pending.Some? && p.rpcs[f].pending.value.AppendRequest?
    requires p.role == Leader && resp.AppendResponse? && !resp.success
    requires resp.term <= p.currentTerm == p.rpcs[f].pending.value.term
    ensures OnAppendResponse(st, x, p.(rpcs := p.rpcs[f := p.rpcs[f].(pending := None)]), f, p.rpcs[f].pending.value,
                             resp.term, false, resp.conflict, ident) == Refused(p, f, resp.conflict)
  {
  }

  // The term quoted for the last index of the pending request is that of the leader's log.
  lemma LastTermSent(cfg: Config, s: System, h: History, x: PeerId, f: PeerId)
    requires x in s.peers && s.peers[x].role == Leader && PeerOk(cfg, h, x, s.peers[x]) && f in s.peers[x].rpcs
    requires var r := s.peers[x].rpcs[f];
             r.pending.Some? && r.pending.value.AppendRequest? && r.pending.value.term == s.peers[x].currentTerm
             && AppendPacketOk(cfg, h, Packet(Conn(x, f, r.ident), r.lastId, r.pending.value))
    ensures var r := s.peers[x].rpcs[f].pending.value;
            r.LastIndex() <= |s.peers[x].log| && TermAt(s.peers[x].log, r.LastIndex()) == Some(r.SentLastTerm())
  {
    var r := s.peers[x].rpcs[f].pending.value;
    if r.entries != [] { assert r.entries[|r.entries| - 1] == s.peers[x].log[r.LastIndex() - 1]; }
  }

  // What is known of the request that is answered.
  lemma PendingIsOfTheLog(st: Setup, s: System, step: Step)
    requires ValidSetup(st) && Reached(st, s) && Acknowledges(st, s, step)
    ensures var x, f := Actor(step), step.answer.conn.dst;
            var p := s.peers[x];
            var r := p.rpcs[f].pending.value;
            && r.AppendRequest? && p.role == Leader && r.term == p.currentTerm && f in Others(st.cfg, x)
            && p.matchIndex.Keys == Others(st.cfg, x)
            && r.LastIndex() <= |p.log| && TermAt(p.log, r.LastIndex()) == Some(r.SentLastTerm())
  {
    var h := WitnessOf(st, s);
    var x, f := Actor(step), step.answer.conn.dst;
    Facts(st, s, h, x);
    var r := s.peers[x].rpcs[f];
    assert PacketOk(st.cfg, s, h, Packet(Conn(x, f, r.ident), r.lastId, r.pending.value));
    LastTermSent(st.cfg, s, h, x, f);
  }

  // In every reached state, an acknowledged index of the leader's term is committed if it
  // was, or if the leader, the follower that acknowledges it and the others that are known
  // to have it are a quorum; otherwise the commit index stays.
  lemma CommitsWhenHeld(st: Setup, s: System, step: Step)
    requires ValidSetup(st) && Reached(st, s) && Acknowledges(st, s, step)
    ensures var x, f, last := Actor(step), step.answer.conn.dst, Acknowledged(s, step);
            var p, q := s.peers[x], Next(st, s, step).peers[x];
            && p.matchIndex.Keys == Others(st.cfg, x) && last <= |p.log|
            && q.matchIndex == p.matchIndex[f := last]
            && var holders := {x, f} + set g | g in Others(st.cfg, x) && p.matchIndex[g] >= last;
            && (TermAt(p.log, last) == Some(p.currentTerm) && IsQuorum(st.cfg, holders) ==> q.commitIndex >= last)
            && (q.commitIndex != p.commitIndex ==>
                  && q.commitIndex == last > p.commitIndex
                  && TermAt(p.log, last) == Some(p.currentTerm) && IsQuorum(st.cfg, holders))
  {
    PendingIsOfTheLog(st, s, step);
    var x, f, last := Actor(step), step.answer.conn.dst, Acknowledged(s, step);
    var p := s.peers[x];
    TakesReply(st, x, p, step.answer, s.clock);
    assert HoldersOf(x, last, p.matchIndex[f := last])
        == {x, f} + set g | g in Others(st.cfg, x) && p.matchIndex[g] >= last;
  }

  // ---------- The rule of the paper ----------

  // Every index of the leader's term that a quorum is known to hold is committed.
  ghost predicate CommitsAllHeld(cfg: Config, x: PeerId, p: Peer) {
    forall n: nat {:trigger HeldOwn(cfg, x, p, n)} :: HeldOwn(cfg, x, p, n) ==> n <= p.commitIndex
  }

  predicate HeldOwn(cfg: Config, x: PeerId, p: Peer, n: nat) {
    TermAt(p.log, n) == Some(p.currentTerm) && IsQuorum(cfg, HoldersOf(x, n, p.matchIndex))
  }

  // How many entries there are before the first of this term.
  function Before(log: Log, term: nat): (n: nat)
    ensures n <= |log|
  {
    if log == [] || log[0].term >= term then 0 else 1 + Before(log[1..], term)
  }

  lemma {:induction false} BeforeIs(log: Log, term: nat, base: nat)
    requires base <= |log| && (forall k :: 0 <= k < base ==> log[k].term < term)
    requires forall k :: base <= k < |log| ==> log[k].term == term
    ensures Before(log, term) == base
  {
    if base > 0 { BeforeIs(log[1..], term, base - 1); }
  }

  // The leader's own entries are those from here on.
  lemma OwnFromHere(st: Setup, s: System, x: PeerId, n: nat)
    requires ValidSetup(st) && Reached(st, s) && x in s.peers && s.peers[x].role == Leader
    ensures var p := s.peers[x];
            p.currentTerm > 0 && (TermAt(p.log, n) == Some(p.currentTerm) <==> Before(p.log, p.currentTerm) < n <= |p.log|)
  {
    var h := WitnessOf(st, s);
    var p := s.peers[x];
    Facts(st, s, h, x);
    assert TermOk(st.cfg, h, p.currentTerm, h.terms[p.currentTerm]);
    BeforeIs(p.log, p.currentTerm, h.terms[p.currentTerm].base);
  }

  // The first index of the leader's term behind its commit index.
  function FirstOpen(p: Peer): nat {
    1 + if p.commitIndex > Before(p.log, p.currentTerm) then p.commitIndex else Before(p.log, p.currentTerm)
  }

  // A leader that has committed all that it could goes on doing so after an
  // acknowledgement if and only if a quorum holds the acknowledged index itself, or none
  // holds the first index that is open. Otherwise it leaves open what a quorum holds.
  lemma CommitsAllHeldIff(st: Setup, s: System, step: Step)
    requires ValidSetup(st) && Reached(st, s) && Acknowledges(st, s, step)
    requires CommitsAllHeld(st.cfg, Actor(step), s.peers[Actor(step)])
    ensures var x, last := Actor(step), Acknowledged(s, step);
            var p, q := s.peers[x], Next(st, s, step).peers[x];
            CommitsAllHeld(st.cfg, x, q) <==>
              || IsQuorum(st.cfg, HoldersOf(x, last, q.matchIndex))
              || FirstOpen(p) > |p.log| || !IsQuorum(st.cfg, HoldersOf(x, FirstOpen(p), q.matchIndex))
  {
    PendingIsOfTheLog(st, s, step);
    var x, f := Actor(step), step.answer.conn.dst;
    var p := s.peers[x];
    TakesReply(st, x, p, step.answer, s.clock);
    forall n: nat ensures TermAt(p.log, n) == Some(p.currentTerm) <==> Before(p.log, p.currentTerm) < n <= |p.log| {
      OwnFromHere(st, s, x, n);
    }
    AllHeldAfter(st.cfg, x, p, f);
    assert Next(st, s, step).peers[x] == Accepted(st.cfg, x, p, f);
  }

  lemma AllHeldAfter(cfg: Config, x: PeerId, p: Peer, f: PeerId)
    requires f in p.rpcs && p.rpcs[f].pending.Some? && p.rpcs[f].pending.value.AppendRequest?
    requires CommitsAllHeld(cfg, x, p) && TermAt(p.log, p.rpcs[f].pending.value.LastIndex()) == Some(p.rpcs[f].pending.value.SentLastTerm())
    requires forall n: nat {:trigger TermAt(p.log, n)} ::
               TermAt(p.log, n) == Some(p.currentTerm) <==> Before(p.log, p.currentTerm) < n <= |p.log|
    ensures var last, q := p.rpcs[f].pending.value.LastIndex(), Accepted(cfg, x, p, f);
            CommitsAllHeld(cfg, x, q) <==>
              || IsQuorum(cfg, HoldersOf(x, last, q.matchIndex))
              || FirstOpen(p) > |p.log| || !IsQuorum(cfg, HoldersOf(x, FirstOpen(p), q.matchIndex))
  {
    var last, q, open := p.rpcs[f].pending.value.LastIndex(), Accepted(cfg, x, p, f), FirstOpen(p);
    if IsQuorum(cfg, HoldersOf(x, last, q.matchIndex)) {
      forall n: nat | HeldOwn(cfg, x, q, n) ensures n <= q.commitIndex { HeldThen(cfg, x, p, f, n); }
    } else if open <= |p.log| && IsQuorum(cfg, HoldersOf(x, open, q.matchIndex)) {
      assert HeldOwn(cfg, x, q, open);
    } else {
      forall n: nat | HeldOwn(cfg, x, q, n) ensures n <= q.commitIndex {
        if n >= open { QuorumGrows(cfg, HoldersOf(x, n, q.matchIndex), HoldersOf(x, open, q.matchIndex)); }
      }
    }
  }

  // What is held behind the acknowledged index was held before.
  lemma HeldThen(cfg: Config, x: PeerId, p: Peer, f: PeerId, n: nat)
    requires f in p.rpcs && p.rpcs[f].pending.Some? && p.rpcs[f].pending.value.AppendRequest?
    requires CommitsAllHeld(cfg, x, p) && HeldOwn(cfg, x, Accepted(cfg, x, p, f), n)
    requires TermAt(p.log, p.rpcs[f].pending.value.LastIndex()) == Some(p.rpcs[f].pending.value.SentLastTerm())
    requires IsQuorum(cfg, HoldersOf(x, p.rpcs[f].pending.value.LastIndex(), Accepted(cfg, x, p, f).matchIndex))
    requires forall n: nat {:trigger TermAt(p.log, n)} ::
               TermAt(p.log, n) == Some(p.currentTerm) <==> Before(p.log, p.currentTerm) < n <= |p.log|
    ensures n <= Accepted(cfg, x, p, f).commitIndex
  {
    var last, q := p.rpcs[f].pending.value.LastIndex(), Accepted(cfg, x, p, f);
    assert TermAt(p.log, n) == Some(p.currentTerm);
    if n > last {
      QuorumGrows(cfg, HoldersOf(x, n, q.matchIndex), HoldersOf(x, n, p.matchIndex));
      assert HeldOwn(cfg, x, p, n);
    } else {
      assert TermAt(p.log, last) == Some(p.currentTerm);
    }
  }
}
