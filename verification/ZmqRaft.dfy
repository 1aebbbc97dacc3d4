// A peer in the form of the program: an object whose handlers update its fields.
// Each handler computes what module RaftPeer says of it, so what is proved of runs
// of those functions holds of runs of these handlers. The votes are kept as sets
// here; module ClusterConfiguration proves that its counters decide the same.
module ZmqRaft {
  import opened Wrappers
  import opened Quorum
  import opened RaftPeer
  import opened RaftSystem

  // The handler past the duplicate check does not look at the cache.
  lemma CacheAside(p: Peer, req: Request, cache: map<PeerId, CacheEntry>, ident: nat)
    requires req.AppendRequest?
    ensures var (q, resp) := OnAppendRequest(p, req, ident);
            OnAppendRequest(p.(cache := cache), req, ident) == (q.(cache := cache), resp) && q.cache == p.cache
  {
  }

  lemma Overwritten(cache: map<PeerId, CacheEntry>, l: PeerId, e: CacheEntry, d: CacheEntry)
    ensures cache[l := e][l := d] == cache[l := d]
  {
  }

  class ZmqRaft {
    const peerId: PeerId
    const setup: Setup
    var state: Role
    var currentTerm: nat
    var votedFor: Option<PeerId>
    var log: Log
    var commitIndex: nat
    var lastApplied: nat
    var voted: set<PeerId>
    var granted: set<PeerId>
    var nextIndex: map<PeerId, nat>
    var matchIndex: map<PeerId, nat>
    var matchTerm: map<PeerId, nat>
    var rpcs: map<PeerId, Rpc>
    var lastRequests: map<PeerId, CacheEntry>
    var panicked: bool

    // The peer as a value.
    ghost function View(): Peer
      reads this
    {
      Peer(state, currentTerm, votedFor, log, commitIndex, lastApplied, voted, granted,
           nextIndex, matchIndex, matchTerm, rpcs, lastRequests, panicked)
    }

    ghost predicate Valid()
      reads this
    {
      rpcs.Keys == Others(setup.cfg, peerId)
    }

    // ---------- State changes ----------

    method CancelPendingRpcs(ident: nat)
      modifies this`rpcs
      ensures rpcs == ResetAll(old(rpcs), ident)
    {
      var todo := rpcs.Keys;
      while todo != {}
        invariant todo <= old(rpcs.Keys) == rpcs.Keys
        invariant forall f :: f in rpcs ==> rpcs[f] == if f in todo then old(rpcs)[f] else ResetRpc(old(rpcs)[f], ident)
        decreases todo
      {
        var f :| f in todo;
        if rpcs[f].pending.Some? { rpcs := rpcs[f := Rpc(ident, rpcs[f].lastId, None)]; }
        todo := todo - {f};
      }
    }

    method Broadcast(req: Request)
      requires Valid()
      modifies this`rpcs
      ensures Valid() && View() == old(View()).(rpcs := SendAll(old(rpcs), req))
    {
      var todo := rpcs.Keys;
      while todo != {}
        invariant todo <= old(rpcs.Keys) == rpcs.Keys
        invariant forall f :: f in rpcs ==> rpcs[f] == if f in todo then old(rpcs)[f] else Send(old(rpcs)[f], req)
        decreases todo
      {
        var f :| f in todo;
        if rpcs[f].pending.None? { rpcs := rpcs[f := Rpc(rpcs[f].ident, rpcs[f].lastId + 1, Some(req))]; }
        todo := todo - {f};
      }
      assert rpcs == SendAll(old(rpcs), req);
    }

    method ChangeState(to: Role, term: nat, vote: Option<PeerId>, ident: nat)
      requires Valid()
      modifies this`state, this`currentTerm, this`votedFor, this`rpcs
      ensures Valid() && View() == UpdateState(old(View()), to, term, vote, ident)
    {
      LeaveOffice(ident);
      state := to;
      RecordVote(term, vote);
    }

    // A candidate or leader drops its pending requests.
    method LeaveOffice(ident: nat)
      modifies this`rpcs
      ensures rpcs == if state == Follower then old(rpcs) else ResetAll(old(rpcs), ident)
    {
      if state == Candidate || state == Leader { CancelPendingRpcs(ident); }
    }

    method RecordVote(term: nat, vote: Option<PeerId>)
      modifies this`currentTerm, this`votedFor
      ensures currentTerm == term && votedFor == vote
    {
      if currentTerm != term || votedFor != vote { currentTerm, votedFor := term, vote; }
    }

    method StepDown(term: nat, ident: nat)
      requires Valid()
      modifies this`state, this`currentTerm, this`votedFor, this`rpcs
      ensures Valid() && View() == BecomeFollower(old(View()), term, ident)
    {
      ChangeState(Follower, term, None, ident);
    }

    // A socket for every other peer.
    method Connect(ident: nat)
      modifies this`rpcs
      ensures rpcs == Table(Others(setup.cfg, peerId), Rpc(ident, 0, None)) && Valid()
    {
      rpcs := map[];
      var todo := Others(setup.cfg, peerId);
      while todo != {}
        invariant todo <= Others(setup.cfg, peerId)
        invariant rpcs.Keys == Others(setup.cfg, peerId) - todo
        invariant forall f :: f in rpcs ==> rpcs[f] == Rpc(ident, 0, None)
        decreases todo
      {
        var f :| f in todo;
        rpcs, todo := rpcs[f := Rpc(ident, 0, None)], todo - {f};
      }
    }

    // Started with what was stored: term, vote and log, and what is applied.
    constructor (me: PeerId, st: Setup, term: nat, vote: Option<PeerId>, entries: Log, applied: nat, ident: nat)
      ensures Valid() && peerId == me && setup == st
      ensures View() == Peer(Follower, term, vote, entries, applied, applied, {}, {}, map[], map[], map[],
                             Table(Others(st.cfg, me), Rpc(ident, 0, None)), map[], false)
    {
      peerId, setup := me, st;
      state, currentTerm, votedFor, log, commitIndex, lastApplied := Follower, term, vote, entries, applied, applied;
      voted, granted, nextIndex, matchIndex, matchTerm := {}, {}, map[], map[], map[];
      rpcs, lastRequests, panicked := map[], map[], false;
      new;
      Connect(ident);
    }

    // Ready to serve: a sole master leads at once, in a new term.
    method Start(ident: nat)
      requires Valid()
      modifies this
      ensures Valid()
      ensures View() == if IsSoleMaster(setup.cfg, peerId)
                        then BecomeLeader(setup, peerId, old(View()).(role := Leader, currentTerm := old(currentTerm) + 1), ident)
                        else old(View())
    {
      if rpcs == map[] {
        Lead(currentTerm + 1);
        TakeOffice(ident);
      }
    }

    method Lead(term: nat)
      requires Valid()
      modifies this`state, this`currentTerm
      ensures Valid() && View() == old(View()).(role := Leader, currentTerm := term)
    {
      state, currentTerm := Leader, term;
    }

    // ---------- Elections ----------

    method FollowersTable(value: nat) returns (m: map<PeerId, nat>)
      requires Valid()
      ensures m == Table(Others(setup.cfg, peerId), value)
    {
      m := map[];
      var todo := rpcs.Keys;
      while todo != {}
        invariant todo <= rpcs.Keys && m.Keys == rpcs.Keys - todo
        invariant forall f :: f in m ==> m[f] == value
        decreases todo
      {
        var f :| f in todo;
        m, todo := m[f := value], todo - {f};
      }
    }

    // The first half of becomeLeader.
    method GreetFollowers(ident: nat)
      requires Valid()
      modifies this
      ensures Valid() && View() == Crown(setup, peerId, old(View()), ident)
    {
      var hello := AppendRequest(currentTerm, |log|, LastTerm(log), commitIndex, []);
      ChangeState(Leader, currentTerm, votedFor, ident);
      ForgetFollowers();
      Broadcast(hello);
    }

    method ForgetFollowers()
      requires Valid()
      modifies this`nextIndex, this`matchIndex, this`matchTerm
      ensures Valid()
      ensures var others := Others(setup.cfg, peerId);
              View() == old(View()).(nextIndex := Table(others, |log| + 1), matchIndex := Table(others, 0),
                                     matchTerm := Table(others, 0))
    {
      nextIndex := FollowersTable(|log| + 1);
      matchIndex := FollowersTable(0);
      matchTerm := FollowersTable(0);
    }

    // The second half: older entries are committed by way of one of this term.
    method AppendCheckpoint()
      requires Valid()
      modifies this`log, this`commitIndex
      ensures Valid() && View() == Settle(setup, peerId, old(View()))
    {
      if LastTerm(log) != currentTerm && commitIndex < |log| {
        log := log + [Entry(currentTerm, Checkpoint)];
      }
      UpdateFollowersNow();
    }

    // becomeLeader
    method TakeOffice(ident: nat)
      requires Valid()
      modifies this
      ensures Valid() && View() == BecomeLeader(setup, peerId, old(View()), ident)
    {
      GreetFollowers(ident);
      AppendCheckpoint();
    }

    // _updateFollowersNow of a sole master; followers are sent to step by step.
    method UpdateFollowersNow()
      requires Valid()
      modifies this`commitIndex
      ensures Valid()
      ensures View() == if IsSoleMaster(setup.cfg, peerId) then CommitAlone(old(View())) else old(View())
    {
      if rpcs == map[] && commitIndex < |log| && LastTerm(log) == currentTerm { commitIndex := |log|; }
    }

    method CountVote(from: PeerId, grant: bool)
      requires Valid()
      modifies this`voted, this`granted
      ensures Valid() && View() == Vote(old(View()), from, grant)
    {
      if from !in voted {
        voted := voted + {from};
        if grant { granted := granted + {from}; }
      }
    }

    method StandForElection(ident: nat)
      requires Valid()
      modifies this
      ensures Valid()
      ensures View() == UpdateState(old(View()), Candidate, old(currentTerm) + 1, Some(peerId), ident)
                        .(voted := {peerId}, granted := {peerId})
    {
      voted, granted := {peerId}, {peerId};
      ChangeState(Candidate, currentTerm + 1, Some(peerId), ident);
    }

    method ElectionTimeout(ident: nat)
      requires Valid()
      modifies this
      ensures Valid() && View() == OnElectionTimeout(setup, peerId, old(View()), ident)
    {
      if setup.preventSpiral && state == Candidate && !IsQuorum(setup.cfg, voted) { return; }
      StandForElection(ident);
      Campaign(ident);
    }

    method Campaign(ident: nat)
      requires Valid()
      modifies this
      ensures Valid()
      ensures var p := old(View());
              View() == if IsSoleMaster(setup.cfg, peerId) then BecomeLeader(setup, peerId, p, ident)
                        else p.(rpcs := SendAll(p.rpcs, VoteRequest(p.currentTerm, |p.log|, LastTerm(p.log))))
    {
      if rpcs == map[] {
        TakeOffice(ident);
      } else {
        Broadcast(VoteRequest(currentTerm, |log|, LastTerm(log)));
      }
    }

    // onVoteResponse: `sent` is the term of the request that is answered.
    method VoteAnswer(from: PeerId, sent: nat, term: nat, grant: bool, ident: nat)
      requires Valid()
      modifies this
      ensures Valid() && View() == OnVoteResponse(setup, peerId, old(View()), from, sent, term, grant, ident)
    {
      if term > currentTerm {
        CountVote(from, false);
        if !(setup.preventSpiral && state == Candidate && !IsQuorum(setup.cfg, voted)) { StepDown(term, ident); }
      } else if currentTerm == sent && state == Candidate {
        CountVote(from, grant);
        if IsQuorum(setup.cfg, granted) { TakeOffice(ident); }
      }
    }

    // requestVoteHandler
    method VoteAsked(candidate: PeerId, req: Request, ident: nat) returns (reply: Response)
      requires Valid() && req.VoteRequest?
      modifies this`state, this`currentTerm, this`votedFor, this`rpcs
      ensures Valid() && (View(), reply) == OnVoteRequest(setup, old(View()), candidate, req, ident)
    {
      if req.term < currentTerm || (setup.preventSpiral && state == Candidate && !IsQuorum(setup.cfg, voted)) {
        return VoteResponse(currentTerm, false);
      }
      var grant :=
        && (votedFor == None || votedFor == Some(candidate) || req.term > currentTerm)
        && (req.lastTerm > LastTerm(log) || (req.lastTerm == LastTerm(log) && req.lastIndex >= |log|));
      if grant || req.term > currentTerm {
        ChangeState(Follower, req.term, if grant then Some(candidate) else None, ident);
        return VoteResponse(req.term, grant);
      }
      return VoteResponse(currentTerm, grant);
    }

    // ---------- Replication ----------

    // bounceDuplicateRequestCache: true for the very request handled last.
    method BounceDuplicate(from: PeerId, ident: nat, id: nat) returns (bounced: bool)
      requires Valid()
      modifies this`lastRequests
      ensures Valid()
      ensures bounced <==> from in old(lastRequests) && old(lastRequests)[from].ident == ident && old(lastRequests)[from].id == id
      ensures lastRequests == if bounced then old(lastRequests) else old(lastRequests)[from := CacheEntry(ident, id, None)]
    {
      bounced := from in lastRequests && lastRequests[from].id == id && lastRequests[from].ident == ident;
      if !bounced { lastRequests := lastRequests[from := CacheEntry(ident, id, None)]; }
    }

    // appendEntryHandler past the duplicate check; no reply after a panic.
    method Append(req: Request, ident: nat) returns (reply: Option<Response>)
      requires Valid() && req.AppendRequest?
      modifies this`state, this`currentTerm, this`votedFor, this`rpcs, this`log, this`commitIndex, this`panicked
      ensures Valid() && (View(), reply) == OnAppendRequest(old(View()), req, ident)
    {
      if req.term < currentTerm { return Some(AppendResponse(currentTerm, false, None)); }
      if req.prevIndex < commitIndex {
        panicked := true;
        return None;
      }
      var term := TermAt(log, req.prevIndex);
      ChangeState(Follower, req.term, if req.term > currentTerm then None else votedFor, ident);
      if term == Some(req.prevTerm) {
        log := AppendAt(log, req.prevIndex, req.entries);
        if req.commit > commitIndex { commitIndex := if req.commit < |log| then req.commit else |log|; }
        return Some(AppendResponse(req.term, true, None));
      }
      return Some(AppendResponse(req.term, false, if |log| < req.prevIndex then Some(|log| + 1) else None));
    }

    method AppendAsked(pk: Packet, ident: nat) returns (reply: Option<Response>)
      requires Valid() && pk.req.AppendRequest?
      modifies this
      ensures Valid() && Outcome(View(), reply) == Deliver(setup, old(View()), pk, ident)
    {
      ghost var p := View();
      var bounced := BounceDuplicate(pk.conn.src, pk.conn.ident, pk.id);
      if bounced {
        assert View() == p;
        return lastRequests[pk.conn.src].lastReplied;
      }
      CacheAside(p, pk.req, lastRequests, ident);
      assert View() == p.(cache := lastRequests);
      reply := Append(pk.req, ident);
      Overwritten(p.cache, pk.conn.src, CacheEntry(pk.conn.ident, pk.id, None), CacheEntry(pk.conn.ident, pk.id, reply));
      Remember(pk.conn.src, CacheEntry(pk.conn.ident, pk.id, reply));
    }

    // The cache entry made by BounceDuplicate gets its reply.
    method Remember(from: PeerId, e: CacheEntry)
      requires Valid()
      modifies this`lastRequests
      ensures Valid() && View() == old(View()).(cache := old(lastRequests)[from := e])
    {
      lastRequests := lastRequests[from := e];
    }

    // The follower has the entries, and with it perhaps a majority.
    method TakeAcceptance(from: PeerId, sent: Request, term: nat, ghost conflict: Option<nat>, ghost ident: nat)
      requires Valid() && sent.AppendRequest? && term <= currentTerm == sent.term && state == Leader
      modifies this`nextIndex, this`matchIndex, this`matchTerm, this`commitIndex
      ensures Valid() && View() == OnAppendResponse(setup, peerId, old(View()), from, sent, term, true, conflict, ident)
    {
      var last := sent.LastIndex();
      RecordSuccess(from, last, sent.SentLastTerm());
      if sent.SentLastTerm() == sent.term && last > commitIndex && IsQuorum(setup.cfg, HoldersOf(peerId, last, matchIndex)) {
        commitIndex := last;
      }
    }

    // onAppendEntriesResponse; updateFollower's sending is SendAppendEntries.
    method AppendAnswer(from: PeerId, sent: Request, term: nat, success: bool, conflict: Option<nat>, ident: nat)
      requires Valid() && sent.AppendRequest?
      modifies this
      ensures Valid() && View() == OnAppendResponse(setup, peerId, old(View()), from, sent, term, success, conflict, ident)
    {
      if term > currentTerm {
        StepDown(term, ident);
      } else if currentTerm == sent.term && state == Leader {
        if success {
          TakeAcceptance(from, sent, term, conflict, ident);
        } else {
          RecordRefusal(from, sent.prevIndex, conflict);
        }
      }
    }

    method RecordSuccess(from: PeerId, last: nat, term: nat)
      requires Valid()
      modifies this`nextIndex, this`matchIndex, this`matchTerm
      ensures Valid()
      ensures View() == old(View()).(matchIndex := old(matchIndex)[from := last], matchTerm := old(matchTerm)[from := term],
                                     nextIndex := old(nextIndex)[from := last + 1])
    {
      matchIndex := matchIndex[from := last];
      matchTerm := matchTerm[from := term];
      nextIndex := nextIndex[from := last + 1];
    }

    method RecordRefusal(from: PeerId, prevIndex: nat, conflict: Option<nat>)
      requires Valid()
      modifies this`nextIndex
      ensures Valid()
      ensures View() == old(View()).(nextIndex := old(nextIndex)[from := NextIndexAfterRefusal(prevIndex, conflict)])
    {
      var next := prevIndex;
      if conflict.Some? && conflict.value < next {
        next := conflict.value;
        if next < 1 { next := 0; }
      }
      nextIndex := nextIndex[from := next];
    }

    // sendAppendEntries with `count` entries.
    method SendAppendEntries(f: PeerId, count: nat)
      requires Valid() && CanSendAppend(View(), f, count)
      modifies this`rpcs
      ensures Valid() && View() == SendAppend(old(View()), f, count)
    {
      var prev := nextIndex[f] - 1;
      var term := if matchIndex[f] == prev then matchTerm[f] else TermAt(log, prev).value;
      var req := AppendRequest(currentTerm, prev, term, commitIndex, log[prev..prev + count]);
      rpcs := rpcs[f := Rpc(rpcs[f].ident, rpcs[f].lastId + 1, Some(req))];
    }

    method AppendUpdate(data: int)
      requires Valid()
      modifies this`log, this`commitIndex
      ensures Valid() && View() == ClientAppend(setup, peerId, old(View()), data)
    {
      log := log + [Entry(currentTerm, State(data))];
      UpdateFollowersNow();
    }

    // ---------- A whole step ----------

    // The socket hands over a reply and is free again.
    method Resolve(f: PeerId)
      requires Valid() && f in rpcs
      modifies this`rpcs
      ensures Valid() && View() == old(View()).(rpcs := old(rpcs)[f := old(rpcs)[f].(pending := None)])
    {
      rpcs := rpcs[f := rpcs[f].(pending := None)];
    }

    // A reply that the socket waits for: a step of the cluster.
    method ReplyArrives(a: Answer, ident: nat)
      requires Valid() && Awaited(View(), a)
      requires a.resp.VoteResponse? == rpcs[a.conn.dst].pending.value.VoteRequest?
      modifies this
      ensures Valid() && View() == Receive(setup, peerId, old(View()), a, ident)
    {
      var f := a.conn.dst;
      var sent := rpcs[f].pending.value;
      Resolve(f);
      match a.resp
      case VoteResponse(term, grant) => VoteAnswer(f, sent.term, term, grant, ident);
      case AppendResponse(term, success, conflict) => AppendAnswer(f, sent, term, success, conflict, ident);
    }
  }
}
