// The inductive invariant behind the safety of the protocol. It speaks of a state
// and of what an observer of the run has written down: who led each term and with
// what log, who voted for whom, and how much of a term's log each peer accepted.
module RaftInvariant {
  import opened Wrappers
  import opened Quorum
  import opened RaftPeer
  import opened RaftSystem

  // `base` is the length of the leader's log when it was elected, `log` its log since.
  datatype TermRecord = TermRecord(leader: PeerId, voters: set<PeerId>, base: nat, log: Log)

  datatype VoteRecord = VoteRecord(candidate: PeerId, log: Log)

  datatype Key = Key(peer: PeerId, term: nat)

  // `acc` is the length of the term's log a peer held when it last accepted from it.
  datatype History = History(terms: map<nat, TermRecord>, votes: map<Key, VoteRecord>, acc: map<Key, nat>)

  // ---------- What the observer writes down ----------

  function ObserveTerms(h: History, me: PeerId, p: Peer, q: Peer): map<nat, TermRecord> {
    if q.role != Leader then h.terms
    else if q.currentTerm in h.terms
    then h.terms[q.currentTerm := h.terms[q.currentTerm].(log := q.log)]
    else h.terms[q.currentTerm := TermRecord(me, q.granted + {me}, |p.log|, q.log)]
  }

  function ObserveVotes(h: History, me: PeerId, p: Peer, q: Peer): map<Key, VoteRecord> {
    var key := Key(me, q.currentTerm);
    if key in h.votes then h.votes
    else if q.role == Leader then h.votes[key := VoteRecord(me, p.log)]
    else if q.votedFor.Some? then h.votes[key := VoteRecord(q.votedFor.value, p.log)]
    else h.votes
  }

  predicate AcceptsNow(s: System, step: Step)
    requires Actor(step) in s.peers
  {
    && step.DeliverRequest? && step.packet.req.AppendRequest?
    && !Bounced(s.peers[Actor(step)], step.packet)
    && Accepts(s.peers[Actor(step)], step.packet.req)
  }

  ghost function Observe(st: Setup, s: System, h: History, step: Step): History
    requires Enabled(st, s, step)
  {
    var me, p, q := Actor(step), s.peers[Actor(step)], Act(st, s, step).peer;
    History(ObserveTerms(h, me, p, q), ObserveVotes(h, me, p, q),
            if q.role == Leader || AcceptsNow(s, step)
            then h.acc[Key(me, q.currentTerm) := |q.log|]
            else h.acc)
  }

  const Blank := History(map[], map[], map[])

  // ---------- Logs ----------

  predicate Agree(a: Log, b: Log, j: nat) {
    j <= |a| && j <= |b| && a[..j] == b[..j]
  }

  predicate RootedAt(h: History, log: Log, k: nat)
    requires k < |log|
  {
    && log[k].term in h.terms
    && Agree(log, h.terms[log[k].term].log, k + 1)
  }

  // Every entry, with all that precedes it, was put there by the leader of its term.
  ghost predicate Rooted(h: History, log: Log) {
    forall k :: 0 <= k < |log| ==> RootedAt(h, log, k)
  }

  predicate TermsBelow(log: Log, term: nat) {
    forall k :: 0 <= k < |log| ==> log[k].term < term
  }

  // ---------- Commitment ----------

  // A quorum accepted the first k entries of the term's log, the last of which is
  // of that very term (sections 5.3 and 5.4).
  ghost predicate Chosen(cfg: Config, h: History, t: nat, k: nat) {
    && t in h.terms && 0 < k <= |h.terms[t].log| && h.terms[t].log[k - 1].term == t
    && exists q :: IsQuorum(cfg, q) && AcceptedBy(h, q, t, k)
  }

  ghost predicate AcceptedBy(h: History, q: set<PeerId>, t: nat, k: nat) {
    forall f :: f in q ==> Key(f, t) in h.acc && h.acc[Key(f, t)] >= k
  }

  ghost predicate ChosenCovers(cfg: Config, h: History, x: Log, t: nat, k: nat) {
    Chosen(cfg, h, t, k) && |x| <= k && x == h.terms[t].log[..|x|]
  }

  // x is a prefix of something chosen in a term up to `bound`.
  ghost predicate Committed(cfg: Config, h: History, x: Log, bound: nat) {
    x == [] || exists t: nat, k: nat :: t <= bound && ChosenCovers(cfg, h, x, t, k)
  }

  // ---------- What accepted entries live through ----------

  // Every leader of a term in (t, upTo) has x.
  ghost predicate Carried(h: History, x: Log, t: nat, upTo: nat) {
    forall u :: u in h.terms && t < u < upTo ==> x <= h.terms[u].log
  }

  ghost predicate KeepsPremise(h: History, f: PeerId, upTo: nat, before: nat, t: nat, k: nat) {
    && t < before && Key(f, t) in h.acc && k <= h.acc[Key(f, t)]
    && t in h.terms && k <= |h.terms[t].log|
    && Carried(h, h.terms[t].log[..k], t, upTo)
  }

  // What peer f accepted in earlier terms is in `log`, unless some leader in
  // between did not have it.
  ghost predicate Keeps(h: History, f: PeerId, log: Log, upTo: nat, before: nat) {
    forall t: nat, k: nat :: KeepsPremise(h, f, upTo, before, t, k) ==> h.terms[t].log[..k] <= log
  }

  // ---------- The invariant, part by part ----------

  ghost predicate TermOk(cfg: Config, h: History, t: nat, r: TermRecord) {
    && t > 0 && r.leader in cfg.Members() && r.voters <= cfg.Members()
    && IsQuorum(cfg, r.voters)
    && r.base <= |r.log|
    && (forall k :: 0 <= k < r.base ==> r.log[k].term < t)
    && (forall k :: r.base <= k < |r.log| ==> r.log[k].term == t)
    && Rooted(h, r.log)
    && (forall f {:trigger VotedFor(h, f, t, r.leader, r.log[..r.base])} ::
          f in r.voters ==> VotedFor(h, f, t, r.leader, r.log[..r.base]))
  }

  predicate VotedFor(h: History, f: PeerId, t: nat, candidate: PeerId, log: Log) {
    && Key(f, t) in h.votes
    && h.votes[Key(f, t)].candidate == candidate
    && UpToDate(|log|, LastTerm(log), h.votes[Key(f, t)].log)
  }

  ghost predicate VoteOk(cfg: Config, h: History, key: Key, v: VoteRecord) {
    && key.peer in cfg.Members() && v.candidate in cfg.Members()
    && Rooted(h, v.log)
    && (key.term in h.terms ==>
          key.peer in h.terms[key.term].voters ==> Keeps(h, key.peer, v.log, key.term, key.term))
    && (key.term !in h.terms ==> Keeps(h, key.peer, v.log, key.term, key.term))
  }

  predicate AccOk(cfg: Config, h: History, key: Key, len: nat) {
    key.peer in cfg.Members() && key.term in h.terms && len <= |h.terms[key.term].log|
  }

  ghost predicate HistoryOk(cfg: Config, h: History) {
    && (forall t {:trigger TermOk(cfg, h, t, h.terms[t])} :: t in h.terms ==> TermOk(cfg, h, t, h.terms[t]))
    && (forall key {:trigger VoteOk(cfg, h, key, h.votes[key])} :: key in h.votes ==> VoteOk(cfg, h, key, h.votes[key]))
    && (forall key {:trigger AccOk(cfg, h, key, h.acc[key])} :: key in h.acc ==> AccOk(cfg, h, key, h.acc[key]))
  }

  // Nothing is written down about a peer's future: no vote of its or for it, no
  // acceptance, and it leads no later term.
  ghost predicate NoFuture(h: History, x: PeerId, term: nat) {
    && (forall t: nat :: Key(x, t) in h.votes ==> t <= term)
    && (forall t: nat :: Key(x, t) in h.acc ==> t <= term)
    && (forall f, t: nat :: GrantedTo(h, f, t, x) ==> t <= term)
    && (forall t :: t in h.terms && h.terms[t].leader == x ==> t <= term)
  }

  // The peer accepted from the leader of its current term (or is that leader).
  predicate Synced(h: History, x: PeerId, p: Peer) {
    Key(x, p.currentTerm) in h.acc
  }

  ghost predicate LogOk(h: History, x: PeerId, p: Peer) {
    && Rooted(h, p.log)
    && (if Synced(h, x, p)
        then p.currentTerm in h.terms && p.log <= h.terms[p.currentTerm].log
             && h.acc[Key(x, p.currentTerm)] == |p.log|
        else TermsBelow(p.log, p.currentTerm))
    && Keeps(h, x, p.log, p.currentTerm + 1, p.currentTerm)
  }

  ghost predicate VotingOk(cfg: Config, h: History, x: PeerId, p: Peer) {
    && (p.votedFor.Some? ==>
          Key(x, p.currentTerm) in h.votes && h.votes[Key(x, p.currentTerm)].candidate == p.votedFor.value)
    && (p.votedFor.None? && p.role != Leader ==> Key(x, p.currentTerm) !in h.votes)
    && (p.role == Candidate ==>
          && p.currentTerm > 0 && !Synced(h, x, p)
          && x in p.granted && p.granted <= cfg.Members()
          && (p.currentTerm in h.terms ==> h.terms[p.currentTerm].leader != x)
          && (forall f {:trigger GrantedTo(h, f, p.currentTerm, x)} ::
                f in p.granted ==> GrantedTo(h, f, p.currentTerm, x))
          && (forall f :: GrantedTo(h, f, p.currentTerm, x) ==> VotedFor(h, f, p.currentTerm, x, p.log)))
  }

  predicate GrantedTo(h: History, f: PeerId, t: nat, candidate: PeerId) {
    Key(f, t) in h.votes && h.votes[Key(f, t)].candidate == candidate
  }

  ghost predicate LeadingOk(cfg: Config, h: History, x: PeerId, p: Peer) {
    p.role == Leader ==>
      && p.currentTerm in h.terms && h.terms[p.currentTerm].leader == x
      && h.terms[p.currentTerm].log == p.log && Synced(h, x, p)
      && Key(x, p.currentTerm) in h.votes && (p.votedFor.None? ==> Others(cfg, x) == {})
  }

  ghost predicate CommitOk(cfg: Config, h: History, p: Peer) {
    && p.lastApplied <= p.commitIndex <= |p.log|
    && Committed(cfg, h, p.log[..p.commitIndex], p.currentTerm)
  }

  ghost predicate PeerOk(cfg: Config, h: History, x: PeerId, p: Peer) {
    NoFuture(h, x, p.currentTerm) && LogOk(h, x, p) && VotingOk(cfg, h, x, p)
    && LeadingOk(cfg, h, x, p) && CommitOk(cfg, h, p)
  }

  ghost predicate CoreOk(cfg: Config, peers: map<PeerId, Peer>, h: History) {
    && peers.Keys == cfg.Members()
    && HistoryOk(cfg, h)
    && (forall x {:trigger PeerOk(cfg, h, x, peers[x])} :: x in peers ==> PeerOk(cfg, h, x, peers[x]))
  }

  // ---------- Sockets and packets ----------

  ghost predicate RpcsOk(cfg: Config, s: System, x: PeerId, p: Peer) {
    && p.rpcs.Keys == Others(cfg, x)
    && (forall f :: f in p.rpcs ==> p.rpcs[f].ident < s.clock)
    && (forall f :: f in p.rpcs && p.rpcs[f].pending.Some? ==>
          && p.role != Follower
          && p.rpcs[f].pending.value.term == p.currentTerm
          && p.rpcs[f].pending.value.VoteRequest? == (p.role == Candidate)
          && Packet(Conn(x, f, p.rpcs[f].ident), p.rpcs[f].lastId, p.rpcs[f].pending.value) in s.sent)
  }

  // A packet's id and body belong together, and the sender's socket knows both.
  predicate WireOk(cfg: Config, s: System, pk: Packet) {
    && pk.conn.src in cfg.Members() && pk.conn.dst in Others(cfg, pk.conn.src)
    && pk.conn.ident < s.clock && pk.id > 0
    && pk.conn.src in s.peers && pk.conn.dst in s.peers && pk.conn.dst in s.peers[pk.conn.src].rpcs
    && var r := s.peers[pk.conn.src].rpcs[pk.conn.dst];
    && (pk.conn.ident == r.ident ==> pk.id <= r.lastId)
    && (pk.conn.ident == r.ident && pk.id == r.lastId && r.pending.Some? ==> pk.req == r.pending.value)
  }

  predicate SameId(a: Packet, b: Packet) {
    a.conn == b.conn && a.id == b.id ==> a.req == b.req
  }

  // A request for votes carries the log the candidate still has.
  predicate VotePacketOk(s: System, pk: Packet)
    requires pk.req.VoteRequest? && pk.conn.src in s.peers
  {
    var c := s.peers[pk.conn.src];
    && pk.req.term <= c.currentTerm
    && (c.role == Candidate && c.currentTerm == pk.req.term ==>
          pk.req.lastIndex == |c.log| && pk.req.lastTerm == LastTerm(c.log))
  }

  // A request to append is a stretch of its leader's log.
  ghost predicate AppendPacketOk(cfg: Config, h: History, pk: Packet)
    requires pk.req.AppendRequest?
  {
    var r := pk.req;
    && r.term in h.terms && h.terms[r.term].leader == pk.conn.src
    && var log := h.terms[r.term].log;
    && r.LastIndex() <= |log|
    && r.entries == log[r.prevIndex..r.LastIndex()]
    && TermAt(log, r.prevIndex) == Some(r.prevTerm)
    && r.commit <= |log| && Committed(cfg, h, log[..r.commit], r.term)
  }

  predicate SameConn(a: Packet, b: Packet) {
    (a.req.AppendRequest? && b.req.AppendRequest? && a.req.term == b.req.term
     && a.conn.src == b.conn.src && a.conn.dst == b.conn.dst)
    ==> a.conn == b.conn
  }

  // All of a leadership's requests to one follower go over the current connection.
  predicate LeaderConnOk(s: System, pk: Packet)
    requires pk.req.AppendRequest? && pk.conn.src in s.peers
  {
    var l := s.peers[pk.conn.src];
    l.role == Leader && l.currentTerm == pk.req.term && pk.conn.dst in l.rpcs
    ==> l.rpcs[pk.conn.dst].ident == pk.conn.ident
  }

  // What a request to append may still do to the peer it is sent to. Before the
  // peer enters the term only the first probe exists. Then a probe never lies
  // below an index where both logs agree; and once the peer has accepted, every
  // packet that can still arrive either extends its log or was delivered before
  // and repeats the last one.
  predicate ProbeOk(s: System, h: History, pk: Packet)
    requires pk.req.AppendRequest? && pk.req.term in h.terms && pk.conn.dst in s.peers
  {
    var f, r, rec := s.peers[pk.conn.dst], pk.req, h.terms[pk.req.term];
    && (f.currentTerm < r.term ==> r.prevIndex == rec.base)
    && (f.currentTerm == r.term && Deliverable(s, pk) ==>
          if Synced(h, pk.conn.dst, f)
          then r.prevIndex == |f.log| || (pk.id <= HighOf(s, pk.conn) && r.LastIndex() == |f.log|)
          else !Agree(f.log, rec.log, r.prevIndex + 1))
  }

  // The request p was answered before the one that starts at index n was sent:
  // either accepted, and n is where it ended, or refused, and n is below it.
  predicate Before(s: System, h: History, pk: Packet, n: nat)
    requires pk.req.AppendRequest? && pk.req.term in h.terms && pk.conn.dst in s.peers
  {
    var f, r := s.peers[pk.conn.dst], pk.req;
    && f.currentTerm == r.term
    && if Synced(h, pk.conn.dst, f) then n == r.LastIndex()
       else n < r.prevIndex && !Agree(f.log, h.terms[r.term].log, r.prevIndex)
  }

  predicate OrderOk(s: System, h: History, a: Packet, b: Packet)
    requires a.req.AppendRequest? && b.req.AppendRequest?
  {
    (&& a.req.term in h.terms && a.conn.dst in s.peers
     && a.req.term == b.req.term && a.conn == b.conn && a.id < b.id
     && Deliverable(s, a) && s.peers[a.conn.dst].currentTerm <= a.req.term)
    ==> Before(s, h, a, b.req.prevIndex)
  }

  ghost predicate PacketOk(cfg: Config, s: System, h: History, pk: Packet) {
    && WireOk(cfg, s, pk)
    && (pk.req.VoteRequest? ==> VotePacketOk(s, pk))
    && (pk.req.AppendRequest? ==>
          AppendPacketOk(cfg, h, pk) && LeaderConnOk(s, pk) && ProbeOk(s, h, pk))
  }

  predicate PairOk(s: System, h: History, a: Packet, b: Packet) {
    && SameId(a, b) && SameConn(a, b)
    && (a.req.AppendRequest? && b.req.AppendRequest? ==> OrderOk(s, h, a, b))
  }

  ghost predicate PacketsOk(cfg: Config, s: System, h: History) {
    && (forall pk {:trigger PacketOk(cfg, s, h, pk)} :: pk in s.sent ==> PacketOk(cfg, s, h, pk))
    && (forall a, b {:trigger PairOk(s, h, a, b)} :: a in s.sent && b in s.sent ==> PairOk(s, h, a, b))
  }

  // ---------- Replies ----------

  // A reply is the outcome of a request of its connection and id; a granted vote
  // and an acceptance stay true for good.
  ghost predicate AnswerOk(s: System, h: History, a: Answer) {
    && HighOf(s, a.conn) >= a.id
    && exists pk :: pk in s.sent && AnswerTo(h, a, pk)
  }

  predicate AnswerTo(h: History, a: Answer, pk: Packet) {
    && pk.conn == a.conn && pk.id == a.id
    && match a.resp
       case VoteResponse(_, granted) =>
         && pk.req.VoteRequest?
         && (granted ==> GrantedTo(h, a.conn.dst, pk.req.term, a.conn.src))
       case AppendResponse(term, success, conflict) =>
         && pk.req.AppendRequest?
         && term >= pk.req.term
         && (success ==>
               && term == pk.req.term && Key(a.conn.dst, term) in h.acc
               && h.acc[Key(a.conn.dst, term)] >= pk.req.LastIndex())
         && (!success && term == pk.req.term ==>
               pk.req.prevIndex >= 1 && (conflict.Some? ==> conflict.value >= 1))
  }

  // A refusal of the pending request still describes the follower.
  predicate RefusalOk(s: System, h: History, a: Answer)
    requires a.conn.src in s.peers && Awaited(s.peers[a.conn.src], a) && a.conn.dst in s.peers
  {
    var r := s.peers[a.conn.src].rpcs[a.conn.dst].pending.value;
    var f := s.peers[a.conn.dst];
    a.resp.AppendResponse? && !a.resp.success && r.AppendRequest? && r.term in h.terms
    && a.resp.term == r.term && f.currentTerm <= r.term ==>
      && f.currentTerm == r.term && !Synced(h, a.conn.dst, f)
      && r.prevIndex >= 1 && !Agree(f.log, h.terms[r.term].log, r.prevIndex)
      && (a.resp.conflict.Some? ==>
            a.resp.conflict.value >= 1 && !Agree(f.log, h.terms[r.term].log, a.resp.conflict.value))
  }

  ghost predicate ReplyOk(s: System, h: History, a: Answer) {
    && AnswerOk(s, h, a)
    && a.conn.src in s.peers && a.conn.dst in s.peers
    && (Awaited(s.peers[a.conn.src], a) ==> RefusalOk(s, h, a))
  }

  ghost predicate AnswersOk(s: System, h: History) {
    forall a {:trigger ReplyOk(s, h, a)} :: a in s.answers ==> ReplyOk(s, h, a)
  }

  // What the bounce cache would send again was sent before.
  ghost predicate CacheOk(s: System, x: PeerId, p: Peer) {
    forall l :: l in p.cache && p.cache[l].lastReplied.Some? ==>
      Answer(Conn(l, x, p.cache[l].ident), p.cache[l].id, p.cache[l].lastReplied.value) in s.answers
  }

  // ---------- What a leader knows ----------

  predicate MatchOk(h: History, l: Peer, f: PeerId)
    requires f in l.matchIndex && f in l.matchTerm
  {
    && l.matchIndex[f] <= |l.log|
    && TermAt(l.log, l.matchIndex[f]) == Some(l.matchTerm[f])
    && (l.matchIndex[f] > 0 ==>
          Key(f, l.currentTerm) in h.acc && h.acc[Key(f, l.currentTerm)] >= l.matchIndex[f])
  }

  // A request to the follower that may still arrive while none is pending.
  predicate Leftover(s: System, x: PeerId, f: PeerId, term: nat, pk: Packet) {
    && pk in s.sent && pk.req.AppendRequest? && pk.conn.src == x && pk.conn.dst == f
    && pk.req.term == term && Deliverable(s, pk)
  }

  ghost predicate FollowerOk(s: System, h: History, x: PeerId, l: Peer, f: PeerId)
    requires f in l.nextIndex && f in l.rpcs && f in s.peers && l.currentTerm in h.terms
  {
    var p, n := s.peers[f], l.nextIndex[f];
    && 1 <= n <= |l.log| + 1
    && (p.currentTerm < l.currentTerm ==> n == h.terms[l.currentTerm].base + 1 && l.rpcs[f].pending.Some?)
    && (p.currentTerm == l.currentTerm ==>
          if Synced(h, f, p)
          then l.rpcs[f].pending.None? ==> |p.log| == n - 1
          else !Agree(p.log, l.log, n))
    && (l.rpcs[f].pending.Some? ==>
          l.rpcs[f].pending.value.AppendRequest? && l.rpcs[f].pending.value.prevIndex == n - 1)
    && (l.rpcs[f].pending.None? && p.currentTerm <= l.currentTerm ==>
          forall pk {:trigger Leftover(s, x, f, l.currentTerm, pk)} ::
            Leftover(s, x, f, l.currentTerm, pk) ==> Before(s, h, pk, n - 1))
  }

  ghost predicate KnowsOk(s: System, h: History, x: PeerId, l: Peer, f: PeerId) {
    && f in l.nextIndex && f in l.matchIndex && f in l.matchTerm && f in l.rpcs && f in s.peers
    && l.currentTerm in h.terms
    && MatchOk(h, l, f) && FollowerOk(s, h, x, l, f)
  }

  ghost predicate LeaderOk(cfg: Config, s: System, h: History, x: PeerId, l: Peer) {
    l.role == Leader ==>
      && l.nextIndex.Keys == Others(cfg, x) && l.matchIndex.Keys == Others(cfg, x)
      && l.matchTerm.Keys == Others(cfg, x)
      && forall f {:trigger KnowsOk(s, h, x, l, f)} :: f in Others(cfg, x) ==> KnowsOk(s, h, x, l, f)
  }

  ghost predicate SocketsOk(cfg: Config, s: System, h: History, x: PeerId, p: Peer) {
    RpcsOk(cfg, s, x, p) && CacheOk(s, x, p) && LeaderOk(cfg, s, h, x, p)
  }

  predicate HighOk(s: System, conn: Conn)
    requires conn in s.high
  {
    && conn.ident < s.clock && conn.src in s.peers && conn.dst in s.peers[conn.src].rpcs
    && (s.peers[conn.src].rpcs[conn.dst].ident == conn.ident ==>
          s.high[conn] <= s.peers[conn.src].rpcs[conn.dst].lastId)
  }

  ghost predicate NetOk(cfg: Config, s: System, h: History) {
    && PacketsOk(cfg, s, h)
    && AnswersOk(s, h)
    && (forall x {:trigger SocketsOk(cfg, s, h, x, s.peers[x])} ::
          x in s.peers ==> SocketsOk(cfg, s, h, x, s.peers[x]))
    && (forall conn {:trigger HighOk(s, conn)} :: conn in s.high ==> HighOk(s, conn))
  }

  ghost predicate Inv(st: Setup, s: System, h: History) {
    ValidSetup(st) && CoreOk(st.cfg, s.peers, h) && NetOk(st.cfg, s, h)
  }
}
