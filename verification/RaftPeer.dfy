// One peer of the cluster and what each of its handlers computes. A handler of
// raft_leader.js or raft_router.js, together with its promise chain and its
// persistence update, is one function from peer to peer here; module ZmqRaft
// has the handlers in the imperative form of the program and proves that they
// compute these functions.
module RaftPeer {
  import opened Wrappers
  import opened Quorum

  // ---------- Log entries ----------

  datatype EntryKind = State(data: int) | Checkpoint

  datatype Entry = Entry(term: nat, kind: EntryKind)

  type Log = seq<Entry>

  // Indexes are counted from 1; index 0 is the empty snapshot of term 0, and an
  // index past the end has no term (FileLog.termAt).
  function TermAt(log: Log, index: nat): Option<nat> {
    if index == 0 then Some(0) else if index <= |log| then Some(log[index - 1].term) else None
  }

  function LastTerm(log: Log): nat {
    if log == [] then 0 else log[|log| - 1].term
  }

  // FileLog.appendEntries with an index: truncate to `prevIndex`, then append.
  function AppendAt(log: Log, prevIndex: nat, entries: seq<Entry>): Log
    requires prevIndex <= |log|
  {
    log[..prevIndex] + entries
  }

  // The candidate's log is at least as up to date as the voter's (section 5.4.1
  // of the extended Raft paper).
  predicate UpToDate(lastIndex: nat, lastTerm: nat, log: Log) {
    lastTerm > LastTerm(log) || (lastTerm == LastTerm(log) && lastIndex >= |log|)
  }

  // ---------- Messages ----------

  datatype Request =
    | VoteRequest(term: nat, lastIndex: nat, lastTerm: nat)
    | AppendRequest(term: nat, prevIndex: nat, prevTerm: nat, commit: nat, entries: seq<Entry>)
  {
    // sentLastIndex of the program's closures
    function LastIndex(): nat
      requires AppendRequest?
    {
      prevIndex + |entries|
    }

    // sentLastTerm of the program's closures
    function SentLastTerm(): nat
      requires AppendRequest?
    {
      if entries == [] then prevTerm else entries[|entries| - 1].term
    }
  }

  datatype Response =
    | VoteResponse(term: nat, granted: bool)
    | AppendResponse(term: nat, success: bool, conflict: Option<nat>)

  // ---------- The peer ----------

  // A ZmqRpcSocket: the identity of its current connection, the last request id
  // and the request that waits for a reply. Request ids do not wrap here; module
  // RpcChannel proves when the 24-bit ids of the program behave like these.
  datatype Rpc = Rpc(ident: nat, lastId: nat, pending: Option<Request>)

  // What bounceDuplicateRequestCache remembers of a peer: its last request.
  datatype CacheEntry = CacheEntry(ident: nat, id: nat, lastReplied: Option<Response>)

  datatype Role = Follower | Candidate | Leader

  datatype Peer = Peer(
    role: Role,
    currentTerm: nat,
    votedFor: Option<PeerId>,
    log: Log,
    commitIndex: nat,
    lastApplied: nat,
    voted: set<PeerId>,
    granted: set<PeerId>,
    nextIndex: map<PeerId, nat>,
    matchIndex: map<PeerId, nat>,
    matchTerm: map<PeerId, nat>,
    rpcs: map<PeerId, Rpc>,
    cache: map<PeerId, CacheEntry>,
    panicked: bool)

  // What every peer is started with: the (fixed) cluster and preventSpiralElections.
  datatype Setup = Setup(cfg: Config, preventSpiral: bool)

  function Others(cfg: Config, me: PeerId): set<PeerId> { cfg.Members() - {me} }

  predicate IsSoleMaster(cfg: Config, me: PeerId) { Others(cfg, me) == {} }

  // majorityHasLogIndex: the peers known to hold the index, this peer included.
  function HoldersOf(me: PeerId, index: nat, matchIndex: map<PeerId, nat>): set<PeerId> {
    {me} + set f | f in matchIndex && matchIndex[f] >= index
  }

  // preventSpiralElections: a candidate that has not heard from a majority stays put.
  predicate Spiralling(st: Setup, p: Peer) {
    st.preventSpiral && p.role == Candidate && !IsQuorum(st.cfg, p.voted)
  }

  // The same value for every peer of a set.
  ghost function Table<V>(s: set<PeerId>, v: V): (m: map<PeerId, V>)
    ensures m.Keys == s && forall f :: f in m ==> m[f] == v
  {
    if s == {} then map[] else var f :| f in s; Table(s - {f}, v)[f := v]
  }

  // ---------- RPC sockets ----------

  // ZmqRpcSocket.reset: only a pending request costs the connection.
  function ResetRpc(r: Rpc, ident: nat): Rpc {
    if r.pending.Some? then Rpc(ident, r.lastId, None) else r
  }

  ghost function ResetAll(rpcs: map<PeerId, Rpc>, ident: nat): (m: map<PeerId, Rpc>)
    ensures m.Keys == rpcs.Keys && forall f :: f in m ==> m[f] == ResetRpc(rpcs[f], ident)
  {
    ResetEach(rpcs, rpcs.Keys, ident)
  }

  ghost function ResetEach(rpcs: map<PeerId, Rpc>, s: set<PeerId>, ident: nat): (m: map<PeerId, Rpc>)
    requires s <= rpcs.Keys
    ensures m.Keys == rpcs.Keys
    ensures forall f :: f in m ==> m[f] == if f in s then ResetRpc(rpcs[f], ident) else rpcs[f]
  {
    if s == {} then rpcs
    else var f :| f in s; ResetEach(rpcs, s - {f}, ident)[f := ResetRpc(rpcs[f], ident)]
  }

  // ZmqRpcSocket.request: refused while another request is pending.
  function Send(r: Rpc, req: Request): Rpc {
    if r.pending.Some? then r else Rpc(r.ident, r.lastId + 1, Some(req))
  }

  ghost function SendAll(rpcs: map<PeerId, Rpc>, req: Request): (m: map<PeerId, Rpc>)
    ensures m.Keys == rpcs.Keys && forall f :: f in m ==> m[f] == Send(rpcs[f], req)
  {
    SendEach(rpcs, rpcs.Keys, req)
  }

  ghost function SendEach(rpcs: map<PeerId, Rpc>, s: set<PeerId>, req: Request): (m: map<PeerId, Rpc>)
    requires s <= rpcs.Keys
    ensures m.Keys == rpcs.Keys
    ensures forall f :: f in m ==> m[f] == if f in s then Send(rpcs[f], req) else rpcs[f]
  {
    if s == {} then rpcs
    else var f :| f in s; SendEach(rpcs, s - {f}, req)[f := Send(rpcs[f], req)]
  }

  // _updateState: leaving the candidate or leader state, or becoming leader,
  // cancels the pending requests.
  ghost function UpdateState(p: Peer, role: Role, term: nat, votedFor: Option<PeerId>, ident: nat): Peer {
    p.(role := role, currentTerm := term, votedFor := votedFor,
       rpcs := if p.role == Follower then p.rpcs else ResetAll(p.rpcs, ident))
  }

  ghost function BecomeFollower(p: Peer, term: nat, ident: nat): Peer {
    UpdateState(p, Follower, term, None, ident)
  }

  // ---------- Elections ----------

  // _updateFollowersNow of a peer without followers commits its own log.
  function CommitAlone(p: Peer): Peer {
    if p.commitIndex < |p.log| && LastTerm(p.log) == p.currentTerm
    then p.(commitIndex := |p.log|)
    else p
  }

  // The first half of becomeLeader: the leader's maps and its first requests.
  ghost function Crown(st: Setup, me: PeerId, p: Peer, ident: nat): Peer {
    var base, others := |p.log|, Others(st.cfg, me);
    var q := UpdateState(p, Leader, p.currentTerm, p.votedFor, ident);
    q.(nextIndex := Table(others, base + 1),
       matchIndex := Table(others, 0),
       matchTerm := Table(others, 0),
       rpcs := SendAll(q.rpcs, AppendRequest(p.currentTerm, base, LastTerm(p.log), p.commitIndex, [])))
  }

  // The second half: a checkpoint, unless everything is committed or of this term.
  ghost function Settle(st: Setup, me: PeerId, p: Peer): Peer {
    var q := if LastTerm(p.log) != p.currentTerm && p.commitIndex < |p.log|
             then p.(log := p.log + [Entry(p.currentTerm, Checkpoint)])
             else p;
    if IsSoleMaster(st.cfg, me) then CommitAlone(q) else q
  }

  ghost function BecomeLeader(st: Setup, me: PeerId, p: Peer, ident: nat): Peer {
    Settle(st, me, Crown(st, me, p, ident))
  }

  ghost function OnElectionTimeout(st: Setup, me: PeerId, p: Peer, ident: nat): Peer {
    if Spiralling(st, p) then p
    else
      var q := UpdateState(p, Candidate, p.currentTerm + 1, Some(me), ident)
               .(voted := {me}, granted := {me});
      if IsSoleMaster(st.cfg, me) then BecomeLeader(st, me, q, ident)
      else q.(rpcs := SendAll(q.rpcs, VoteRequest(q.currentTerm, |q.log|, LastTerm(q.log))))
  }

  // ClusterConfiguration.vote: only the first answer of a peer counts.
  function Vote(p: Peer, from: PeerId, grant: bool): Peer {
    if from in p.voted then p
    else p.(voted := p.voted + {from}, granted := if grant then p.granted + {from} else p.granted)
  }

  // `sent` is the term the request was made in.
  ghost function OnVoteResponse(st: Setup, me: PeerId, p: Peer, from: PeerId, sent: nat,
                          term: nat, granted: bool, ident: nat): Peer
  {
    if term > p.currentTerm then
      var q := Vote(p, from, false);
      if Spiralling(st, q) then q else BecomeFollower(q, term, ident)
    else if p.currentTerm == sent && p.role == Candidate then
      var q := Vote(p, from, granted);
      if IsQuorum(st.cfg, q.granted) then BecomeLeader(st, me, q, ident) else q
    else p
  }

  // requestVoteHandler
  ghost function OnVoteRequest(st: Setup, p: Peer, candidate: PeerId, req: Request, ident: nat): (Peer, Response)
    requires req.VoteRequest?
  {
    if req.term < p.currentTerm || Spiralling(st, p) then
      (p, VoteResponse(p.currentTerm, false))
    else
      var granted :=
        && (p.votedFor == None || p.votedFor == Some(candidate) || req.term > p.currentTerm)
        && UpToDate(req.lastIndex, req.lastTerm, p.log);
      if granted || req.term > p.currentTerm then
        (UpdateState(p, Follower, req.term, if granted then Some(candidate) else None, ident),
         VoteResponse(req.term, granted))
      else
        (p, VoteResponse(p.currentTerm, false))
  }

  // ---------- Replication ----------

  // Whether appendEntryHandler would panic: "cowardly refusing to truncate".
  predicate Panics(p: Peer, req: Request)
    requires req.AppendRequest?
  {
    req.term >= p.currentTerm && req.prevIndex < p.commitIndex
  }

  predicate Accepts(p: Peer, req: Request)
    requires req.AppendRequest?
  {
    && req.term >= p.currentTerm
    && !Panics(p, req)
    && TermAt(p.log, req.prevIndex) == Some(req.prevTerm)
  }

  // appendEntryHandler past the duplicate check; no response after a panic.
  ghost function OnAppendRequest(p: Peer, req: Request, ident: nat): (Peer, Option<Response>)
    requires req.AppendRequest?
  {
    if req.term < p.currentTerm then
      (p, Some(AppendResponse(p.currentTerm, false, None)))
    else if Panics(p, req) then
      (p.(panicked := true), None)
    else
      var q := UpdateState(p, Follower, req.term,
                           if req.term > p.currentTerm then None else p.votedFor, ident);
      if Accepts(p, req) then
        var log := AppendAt(q.log, req.prevIndex, req.entries);
        var commit := if req.commit > q.commitIndex
                      then (if req.commit < |log| then req.commit else |log|)
                      else q.commitIndex;
        (q.(log := log, commitIndex := commit), Some(AppendResponse(req.term, true, None)))
      else
        (q, Some(AppendResponse(req.term, false,
                                if |p.log| < req.prevIndex then Some(|p.log| + 1) else None)))
  }

  // nextIndex after a refusal: no TODO of the program is resolved here.
  function NextIndexAfterRefusal(prevIndex: nat, conflict: Option<nat>): nat {
    if conflict.Some? && conflict.value < prevIndex
    then (if conflict.value < 1 then 0 else conflict.value)
    else prevIndex
  }

  // onAppendEntriesResponse; updateFollower's sending is a step of its own.
  ghost function OnAppendResponse(st: Setup, me: PeerId, p: Peer, from: PeerId, sent: Request,
                            term: nat, success: bool, conflict: Option<nat>, ident: nat): Peer
    requires sent.AppendRequest?
  {
    if term > p.currentTerm then BecomeFollower(p, term, ident)
    else if p.currentTerm == sent.term && p.role == Leader then
      if success then
        var last := sent.LastIndex();
        var q := p.(matchIndex := p.matchIndex[from := last],
                    matchTerm := p.matchTerm[from := sent.SentLastTerm()],
                    nextIndex := p.nextIndex[from := last + 1]);
        if sent.SentLastTerm() == sent.term && last > p.commitIndex
           && IsQuorum(st.cfg, HoldersOf(me, last, q.matchIndex))
        then q.(commitIndex := last)
        else q
      else
        p.(nextIndex := p.nextIndex[from := NextIndexAfterRefusal(sent.prevIndex, conflict)])
    else p
  }

  // sendAppendEntries with `count` entries, for a follower with no pending request.
  predicate CanSendAppend(p: Peer, f: PeerId, count: nat) {
    && p.role == Leader
    && f in p.rpcs && p.rpcs[f].pending.None?
    && f in p.nextIndex && f in p.matchIndex && f in p.matchTerm
    && 1 <= p.nextIndex[f] <= |p.log| + 1
    && (var rest := |p.log| + 1 - p.nextIndex[f];
        if rest == 0 then count == 0 else 1 <= count <= rest)
  }

  function AppendRequestFor(p: Peer, f: PeerId, count: nat): Request
    requires CanSendAppend(p, f, count)
  {
    var prev := p.nextIndex[f] - 1;
    AppendRequest(p.currentTerm, prev,
                  if p.matchIndex[f] == prev then p.matchTerm[f] else TermAt(p.log, prev).value,
                  p.commitIndex, p.log[prev..prev + count])
  }

  function SendAppend(p: Peer, f: PeerId, count: nat): Peer
    requires CanSendAppend(p, f, count)
  {
    p.(rpcs := p.rpcs[f := Send(p.rpcs[f], AppendRequestFor(p, f, count))])
  }

  // A leader appends a client's update with its own term.
  function ClientAppend(st: Setup, me: PeerId, p: Peer, data: int): Peer {
    var q := p.(log := p.log + [Entry(p.currentTerm, State(data))]);
    if IsSoleMaster(st.cfg, me) then CommitAlone(q) else q
  }

  // ---------- Starting again ----------

  // The constructor: term, vote and log are durable, and so may be what the state
  // machine has applied. New sockets and an empty duplicate cache.
  ghost function Restart(st: Setup, me: PeerId, p: Peer, applied: nat, ident: nat): Peer {
    var booted := Peer(Follower, p.currentTerm, p.votedFor, p.log, applied, applied, {}, {},
                      map[], map[], map[],
                      Table(Others(st.cfg, me), Rpc(ident, 0, None)), map[], false);
    if IsSoleMaster(st.cfg, me)
    then BecomeLeader(st, me, booted.(role := Leader, currentTerm := p.currentTerm + 1), ident)
    else booted
  }

  // A peer that has never run.
  ghost function NewPeer(st: Setup, me: PeerId): Peer {
    Peer(Follower, 0, None, [], 0, 0, {}, {}, map[], map[], map[],
         Table(Others(st.cfg, me), Rpc(0, 0, None)), map[], false)
  }
}
