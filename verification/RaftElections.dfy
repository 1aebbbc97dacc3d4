// Who is elected. Votes follow the order of logs: an order in which any two logs can be
// compared, and in which a log that has all of another comes behind it at the latest. A
// peer whose log no member of a quorum is ahead of can win the votes of all of them.
module RaftElections {
  import opened Wrappers
  import opened Sealing
  import opened Quorum
  import opened RaftPeer
  import opened RaftSystem
  import opened RaftInvariant
  import opened RaftLogs
  import opened RaftSteps
  import opened RaftSafety
  import opened RaftOwn

  // The request for votes of a peer with this log.
  function Ask(term: nat, log: Log): Request { VoteRequest(term, |log|, LastTerm(log)) }

  // preventSpiralElections holds the peer back until a majority has answered it.
  predicate HeldBack(st: Setup, p: Peer) { st.preventSpiral && p.role == Candidate && !IsQuorum(st.cfg, p.voted) }

  ghost predicate Grants(st: Setup, voter: Peer, candidate: PeerId, req: Request, ident: nat)
    requires req.VoteRequest?
  {
    OnVoteRequest(st, voter, candidate, req, ident).1.granted
  }

  // A later term, asked of a peer that is not held back.
  predicate MayVote(st: Setup, voter: Peer, term: nat) { !HeldBack(st, voter) && term > voter.currentTerm }

  // ---------- The order of logs ----------

  // Of any two peers that ask each other, one at least gets the vote, and no vote is
  // refused by one peer to what the next one holds if each votes for the next.
  lemma VotesAreTotal(st: Setup, p: Peer, q: Peer, x: PeerId, y: PeerId, term: nat, ident: nat)
    requires MayVote(st, p, term) && MayVote(st, q, term)
    ensures Grants(st, p, y, Ask(term, q.log), ident) || Grants(st, q, x, Ask(term, p.log), ident)
  {
  }

  lemma VotesAreTransitive(st: Setup, p: Peer, q: Peer, log: Log, y: PeerId, z: PeerId, term: nat, ident: nat)
    requires MayVote(st, p, term) && MayVote(st, q, term)
    requires Grants(st, p, y, Ask(term, q.log), ident) && Grants(st, q, z, Ask(term, log), ident)
    ensures Grants(st, p, z, Ask(term, log), ident)
  {
  }

  // In every reached state, a peer grants its vote for a later term to whoever has all of
  // its log, and perhaps more.
  lemma ExtensionGetsTheVote(st: Setup, s: System, x: PeerId, y: PeerId, term: nat, ident: nat)
    requires ValidSetup(st) && Reached(st, s) && x in s.peers && y in s.peers
    requires s.peers[x].log <= s.peers[y].log && MayVote(st, s.peers[x], term)
    ensures var (p, reply) := OnVoteRequest(st, s.peers[x], y, Ask(term, s.peers[y].log), ident);
            reply == VoteResponse(term, true) && p.votedFor == Some(y) && p.currentTerm == term && p.role == Follower
  {
    ExtensionIsUpToDate(st, s, x, y);
  }

  lemma ExtensionIsUpToDate(st: Setup, s: System, x: PeerId, y: PeerId)
    requires ValidSetup(st) && Reached(st, s) && x in s.peers && y in s.peers
    requires s.peers[x].log <= s.peers[y].log
    ensures NotAhead(s.peers[x].log, s.peers[y].log)
  {
    var h := WitnessOf(st, s);
    Facts(st, s, h, y);
    TermsRise(st.cfg, h, s.peers[x].log, s.peers[y].log);
  }

  lemma TermsRise(cfg: Config, h: History, a: Log, b: Log)
    requires HistoryOk(cfg, h) && Rooted(h, b) && a <= b
    ensures NotAhead(a, b)
  {
    if a != [] { TermsMonotone(cfg, h, b, |a| - 1, |b| - 1); }
  }

  // In every reached state, peers that would both vote for each other have the same log.
  lemma MutualVotesMeanSameLog(st: Setup, s: System, x: PeerId, y: PeerId, term: nat, ident: nat)
    requires ValidSetup(st) && Reached(st, s) && x in s.peers && y in s.peers
    requires MayVote(st, s.peers[x], term) && MayVote(st, s.peers[y], term)
    ensures Grants(st, s.peers[x], y, Ask(term, s.peers[y].log), ident)
            && Grants(st, s.peers[y], x, Ask(term, s.peers[x].log), ident)
            <==> s.peers[x].log == s.peers[y].log
  {
    if |s.peers[x].log| == |s.peers[y].log| && LastTerm(s.peers[x].log) == LastTerm(s.peers[y].log) {
      SameEndSameLog(st, s, x, y);
    }
  }

  lemma SameEndSameLog(st: Setup, s: System, x: PeerId, y: PeerId)
    requires ValidSetup(st) && Reached(st, s) && x in s.peers && y in s.peers
    requires |s.peers[x].log| == |s.peers[y].log| && LastTerm(s.peers[x].log) == LastTerm(s.peers[y].log)
    ensures s.peers[x].log == s.peers[y].log
  {
    var h := WitnessOf(st, s);
    Facts(st, s, h, x);
    Facts(st, s, h, y);
    LogsEndAlike(h, s.peers[x].log, s.peers[y].log);
  }

  lemma LogsEndAlike(h: History, a: Log, b: Log)
    requires Rooted(h, a) && Rooted(h, b) && |a| == |b| && LastTerm(a) == LastTerm(b)
    ensures a == b
  {
    if a != [] {
      LogsMatch(h, a, b, |a|);
      assert a[..|a|] == a && b[..|b|] == b;
    }
  }

  // ---------- On the way ----------

  predicate Up(z: System, f: PeerId, term: nat) {
    f in z.peers && !z.peers[f].panicked && z.peers[f].currentTerm <= term
  }

  function ConnOf(z: System, x: PeerId, f: PeerId): Conn
    requires x in z.peers && f in z.peers[x].rpcs
  {
    Conn(x, f, z.peers[x].rpcs[f].ident)
  }

  // The leader's request is on its way and has not arrived yet.
  predicate Waiting(z: System, x: PeerId, f: PeerId) {
    && x in z.peers && f in z.peers[x].rpcs
    && var r := z.peers[x].rpcs[f];
    && r.pending.Some? && r.pending.value.AppendRequest? && r.pending.value.term == z.peers[x].currentTerm
    && Packet(ConnOf(z, x, f), r.lastId, r.pending.value) in z.sent && HighOf(z, ConnOf(z, x, f)) < r.lastId
  }

  // ---------- An election ----------

  // The voter's log is not ahead of the candidate's.
  predicate NotAhead(voter: Log, candidate: Log) {
    LastTerm(voter) < LastTerm(candidate) || (LastTerm(voter) == LastTerm(candidate) && |voter| <= |candidate|)
  }

  predicate Able(st: Setup, p: Peer) { !p.panicked && !HeldBack(st, p) }

  // The peer can vote for candidate c in a later term.
  predicate Willing(st: Setup, voter: Peer, c: Peer) {
    Able(st, voter) && voter.currentTerm <= c.currentTerm && NotAhead(voter.log, c.log)
  }

  predicate Votes(st: Setup, s: System, f: PeerId, c: Peer) { f in s.peers && Willing(st, s.peers[f], c) }

  // Only x's timer, its requests for votes and their answers.
  predicate OfCampaign(step: Step, x: PeerId) {
    match step
    case Timeout(me) => me == x
    case DeliverRequest(pk) => pk.conn.src == x && pk.req.VoteRequest?
    case DeliverAnswer(a) => a.conn.src == x
    case _ => false
  }

  ghost predicate Campaign(st: Setup, s: System, z: System, x: PeerId, steps: seq<Step>) {
    IsRun(st, s, steps) && After(st, s, steps) == z && forall i :: 0 <= i < |steps| ==> OfCampaign(steps[i], x)
  }

  // The same, sealed, with some steps.
  ghost predicate Path(st: Setup, s: System, z: System, x: PeerId) {
    forall key {:trigger Opens(key)} :: Opens(key) ==>
      Reached(st, z) && exists steps :: Campaign(st, s, z, x, steps)
  }

  ghost predicate IsReached(st: Setup, s: System) {
    forall key {:trigger Turns(key)} :: Turns(key) ==> Reached(st, s)
  }

  lemma NoPath(st: Setup, s: System, x: PeerId)
    requires IsReached(st, s)
    ensures Path(st, s, s, x)
  {
    assert Turns(TheKey);
    assert Campaign(st, s, s, x, []);
  }

  lemma CampaignMore(st: Setup, s: System, z: System, x: PeerId, steps: seq<Step>, step: Step)
    requires Campaign(st, s, z, x, steps) && Enabled(st, z, step) && OfCampaign(step, x)
    ensures Campaign(st, s, Next(st, z, step), x, steps + [step])
  {
    Snoc(st, s, steps, step);
  }

  lemma PathMore(st: Setup, s: System, z: System, x: PeerId, step: Step)
    requires Path(st, s, z, x) && Enabled(st, z, step) && OfCampaign(step, x)
    ensures Path(st, s, Next(st, z, step), x)
  {
    assert Opens(TheKey);
    var steps :| Campaign(st, s, z, x, steps);
    CampaignMore(st, s, z, x, steps, step);
    assert Leads(st, Init(st), z);
    LeadsOn(st, Init(st), z, step);
  }

  lemma OnPath(st: Setup, s: System, z: System, x: PeerId) returns (h: History)
    requires ValidSetup(st) && Path(st, s, z, x)
    ensures Inv(st, z, h)
  {
    assert Opens(TheKey);
    h := WitnessOf(st, z);
  }

  // Its request waits for the peer f, which is as it was and has not answered.
  ghost predicate Open(s: System, z: System, x: PeerId, p: Peer, req: Request, f: PeerId) {
    && f in s.peers && f in z.peers && z.peers[f] == s.peers[f] && f != x && f !in p.voted
    && f in p.rpcs && p.rpcs[f].pending == Some(req)
    && Packet(Conn(x, f, p.rpcs[f].ident), p.rpcs[f].lastId, req) in z.sent
    && HighOf(z, Conn(x, f, p.rpcs[f].ident)) <= p.rpcs[f].lastId
  }

  // x stands in the request's term, and those in `rest` have not been asked yet.
  ghost predicate Standing(s: System, z: System, x: PeerId, req: Request, all: set<PeerId>, rest: seq<PeerId>) {
    && x in z.peers && z.peers[x].role == Candidate && z.peers[x].currentTerm == req.term && !z.peers[x].panicked
    && x in s.peers && z.peers[x].log == s.peers[x].log
    && (forall f {:trigger Open(s, z, x, z.peers[x], req, f)} :: f in rest ==> Open(s, z, x, z.peers[x], req, f))
    && forall g {:trigger Up(z, g, req.term)} :: g in all ==> Up(z, g, req.term)
  }

  // The same, sealed.
  ghost predicate Campaigning(s: System, z: System, x: PeerId, req: Request, all: set<PeerId>, rest: seq<PeerId>) {
    x in z.peers && forall key {:trigger Turns(key)} :: Turns(key) ==> Standing(s, z, x, req, all, rest)
  }

  // x leads, the voters are up, and its first requests are on the way to all others.
  ghost predicate Office(s: System, u: System, x: PeerId, term: nat, all: set<PeerId>) {
    && LeadsIn(u, x, term) && !u.peers[x].panicked && x in s.peers && s.peers[x].log <= u.peers[x].log
    && (s.peers[x].log == [] ==> u.peers[x].log == [])
    && (forall g {:trigger u.peers[x].matchIndex[g]} :: g in u.peers[x].matchIndex ==> u.peers[x].matchIndex[g] == 0)
    && (forall g {:trigger Up(u, g, term)} :: g in all ==> Up(u, g, term))
    && forall g {:trigger Waiting(u, x, g)} :: g in u.peers[x].rpcs ==> Waiting(u, x, g)
  }

  predicate LeadsIn(z: System, x: PeerId, term: nat) {
    x in z.peers && z.peers[x].role == Leader && z.peers[x].currentTerm == term
  }

  lemma VoteGiven(st: Setup, p: Peer, c: Peer, x: PeerId, ident: nat)
    requires Willing(st, p, c)
    ensures OnVoteRequest(st, p, x, Ask(c.currentTerm + 1, c.log), ident).1 == VoteResponse(c.currentTerm + 1, true)
  {
  }

  // The request arrives and is granted.
  lemma Asked(st: Setup, s: System, z: System, x: PeerId, c: Peer, all: set<PeerId>, f: PeerId, rest: seq<PeerId>)
    returns (u: System)
    requires Path(st, s, z, x) && Standing(s, z, x, Ask(c.currentTerm + 1, c.log), all, [f] + rest)
    requires f !in rest && f in z.peers[x].rpcs && Votes(st, s, f, c)
    ensures Path(st, s, u, x) && Standing(s, u, x, Ask(c.currentTerm + 1, c.log), all, rest) && u.peers[x] == z.peers[x]
    ensures var r := z.peers[x].rpcs[f];
            Answer(Conn(x, f, r.ident), r.lastId, VoteResponse(c.currentTerm + 1, true)) in u.answers
  {
    var req := Ask(c.currentTerm + 1, c.log);
    var p := z.peers[x];
    assert f in [f] + rest && Open(s, z, x, p, req, f);
    var pk := Packet(Conn(x, f, p.rpcs[f].ident), p.rpcs[f].lastId, req);
    VoteGiven(st, z.peers[f], c, x, z.clock);
    PathMore(st, s, z, x, DeliverRequest(pk));
    u := Next(st, z, DeliverRequest(pk));
    forall g | g in rest ensures Open(s, u, x, p, req, g) { assert Open(s, z, x, p, req, g); }
    forall g | g in all ensures Up(u, g, req.term) { assert Up(z, g, req.term); }
  }

  // What the candidate makes of a vote for it.
  lemma VoteTaken(st: Setup, x: PeerId, p: Peer, f: PeerId, ident: nat)
    requires p.role == Candidate && f !in p.voted
    ensures var q := OnVoteResponse(st, x, p, f, p.currentTerm, p.currentTerm, true, ident);
            if IsQuorum(st.cfg, p.granted + {f}) then
              q == BecomeLeader(st, x, p.(voted := p.voted + {f}, granted := p.granted + {f}), ident)
            else q == p.(voted := p.voted + {f}, granted := p.granted + {f})
  {
  }

  lemma Answered(st: Setup, s: System, z: System, x: PeerId, req: Request, all: set<PeerId>, f: PeerId, rest: seq<PeerId>)
    returns (u: System)
    requires ValidSetup(st) && Path(st, s, z, x) && Standing(s, z, x, req, all, rest) && req.VoteRequest? && x !in all
    requires f !in rest && f !in z.peers[x].voted && f in z.peers[x].rpcs && z.peers[x].rpcs[f].pending == Some(req)
    requires Answer(Conn(x, f, z.peers[x].rpcs[f].ident), z.peers[x].rpcs[f].lastId, VoteResponse(req.term, true)) in z.answers
    ensures Path(st, s, u, x)
    ensures if IsQuorum(st.cfg, z.peers[x].granted + {f}) then Office(s, u, x, req.term, all)
            else Standing(s, u, x, req, all, rest) && u.peers[x].granted == z.peers[x].granted + {f}
  {
    var p := z.peers[x];
    var a := Answer(Conn(x, f, p.rpcs[f].ident), p.rpcs[f].lastId, VoteResponse(req.term, true));
    VoteTaken(st, x, p.(rpcs := p.rpcs[f := p.rpcs[f].(pending := None)]), f, z.clock);
    PathMore(st, s, z, x, DeliverAnswer(a));
    u := Next(st, z, DeliverAnswer(a));
    if IsQuorum(st.cfg, p.granted + {f}) {
      var h := OnPath(st, s, z, x);
      TakesOffice(st, s, z, h, u, x, f, req, all);
    } else {
      forall g | g in all ensures Up(u, g, req.term) { assert Up(z, g, req.term); }
      forall g | g in rest ensures Open(s, u, x, u.peers[x], req, g) { assert Open(s, z, x, p, req, g); }
    }
  }

  // The peer that counts the deciding vote.
  function Chosen(p: Peer, f: PeerId): Peer
    requires f in p.rpcs
  {
    p.(rpcs := p.rpcs[f := p.rpcs[f].(pending := None)], voted := p.voted + {f}, granted := p.granted + {f})
  }

  lemma TakesOffice(st: Setup, s: System, z: System, h: History, u: System, x: PeerId, f: PeerId, req: Request, all: set<PeerId>)
    requires Inv(st, z, h) && Standing(s, z, x, req, all, []) && x !in all && f in z.peers[x].rpcs
    requires u.peers == z.peers[x := BecomeLeader(st, x, Chosen(z.peers[x], f), z.clock)] && u.high == z.high
    requires z.sent + PendingPackets(x, u.peers[x]) <= u.sent
    ensures Office(s, u, x, req.term, all)
  {
    LeadsWithLog(st, x, Chosen(z.peers[x], f), z.clock);
    forall g | g in all ensures Up(u, g, req.term) { assert Up(z, g, req.term); }
    forall g | g in u.peers[x].rpcs ensures Waiting(u, x, g) {
      NotUsed(st, z, h, x, g);
      HelloWaits(st, z, u, x, f, g);
    }
  }

  lemma HelloWaits(st: Setup, z: System, u: System, x: PeerId, f: PeerId, g: PeerId)
    requires x in z.peers && z.peers[x].role == Candidate && f in z.peers[x].rpcs && g in z.peers[x].rpcs
    requires u.peers == z.peers[x := BecomeLeader(st, x, Chosen(z.peers[x], f), z.clock)] && u.high == z.high
    requires z.sent + PendingPackets(x, u.peers[x]) <= u.sent
    requires HighOf(z, ConnOf(z, x, g)) <= z.peers[x].rpcs[g].lastId && HighOf(z, Conn(x, g, z.clock)) == 0
    ensures Waiting(u, x, g)
  {
    Greets(st, x, Chosen(z.peers[x], f), g, z.clock);
    LeadsWithLog(st, x, Chosen(z.peers[x], f), z.clock);
    InFlight(x, u.peers[x], g);
  }

  // The first request of a leadership is a new one on the socket.
  lemma Greets(st: Setup, x: PeerId, p: Peer, g: PeerId, ident: nat)
    requires p.role == Candidate && g in p.rpcs
    ensures var q := BecomeLeader(st, x, p, ident);
            && g in q.rpcs && q.rpcs[g].lastId == p.rpcs[g].lastId + 1 && q.rpcs[g].ident in {p.rpcs[g].ident, ident}
            && q.rpcs[g].pending == Some(AppendRequest(p.currentTerm, |p.log|, LastTerm(p.log), p.commitIndex, []))
  {
    SettleKeeps(st, x, Crown(st, x, p, ident));
  }

  // Those who have not been asked yet would vote for c, and their votes would suffice.
  ghost predicate Backed(st: Setup, s: System, x: PeerId, c: Peer, granted: set<PeerId>, rest: seq<PeerId>) {
    && Distinct(rest) && x !in rest && IsQuorum(st.cfg, granted + Ids(rest))
    && forall f {:trigger Votes(st, s, f, c)} :: f in rest ==> Votes(st, s, f, c)
  }

  // The same, sealed.
  ghost predicate IsBacked(st: Setup, s: System, x: PeerId, c: Peer, granted: set<PeerId>, rest: seq<PeerId>) {
    forall key {:trigger Turns(key)} :: Turns(key) ==> Backed(st, s, x, c, granted, rest)
  }

  lemma LessBacked(st: Setup, s: System, x: PeerId, c: Peer, granted: set<PeerId>, rest: seq<PeerId>)
    requires rest != [] && IsBacked(st, s, x, c, granted, rest)
    ensures rest == [rest[0]] + rest[1..] && rest[0] !in rest[1..] && Votes(st, s, rest[0], c)
    ensures IsBacked(st, s, x, c, granted + {rest[0]}, rest[1..])
    ensures rest[1..] == [] ==> IsQuorum(st.cfg, granted + {rest[0]})
  {
    assert Turns(TheKey);
    OneLess(granted, rest);
    assert Votes(st, s, rest[0], c);
    assert Backed(st, s, x, c, granted + {rest[0]}, rest[1..]);
  }

  // One voter after another, until the votes suffice.
  lemma {:induction false} Counted(st: Setup, s: System, z: System, x: PeerId, c: Peer, all: set<PeerId>, rest: seq<PeerId>)
    returns (u: System)
    requires ValidSetup(st) && x !in all && Path(st, s, z, x) && Campaigning(s, z, x, Ask(c.currentTerm + 1, c.log), all, rest)
    requires rest != [] && IsBacked(st, s, x, c, z.peers[x].granted, rest)
    ensures Path(st, s, u, x) && Office(s, u, x, c.currentTerm + 1, all)
    decreases |rest|
  {
    LessBacked(st, s, x, c, z.peers[x].granted, rest);
    u := OneVote(st, s, z, x, c, all, rest[0], rest[1..]);
    if !IsQuorum(st.cfg, z.peers[x].granted + {rest[0]}) { u := Counted(st, s, u, x, c, all, rest[1..]); }
  }

  lemma OneLess(granted: set<PeerId>, rest: seq<PeerId>)
    requires rest != [] && Distinct(rest)
    ensures rest == [rest[0]] + rest[1..] && rest[0] !in rest[1..] && Distinct(rest[1..])
    ensures granted + Ids(rest) == granted + {rest[0]} + Ids(rest[1..])
    ensures rest[1..] == [] ==> granted + Ids(rest) == granted + {rest[0]}
  {
  }

  lemma OneVote(st: Setup, s: System, z: System, x: PeerId, c: Peer, all: set<PeerId>, f: PeerId, rest: seq<PeerId>)
    returns (u: System)
    requires ValidSetup(st) && x !in all && Path(st, s, z, x) && Campaigning(s, z, x, Ask(c.currentTerm + 1, c.log), all, [f] + rest)
    requires f !in rest && Votes(st, s, f, c)
    ensures Path(st, s, u, x)
    ensures if IsQuorum(st.cfg, z.peers[x].granted + {f}) then Office(s, u, x, c.currentTerm + 1, all)
            else Campaigning(s, u, x, Ask(c.currentTerm + 1, c.log), all, rest) && u.peers[x].granted == z.peers[x].granted + {f}
  {
    assert Turns(TheKey) && f in [f] + rest && Open(s, z, x, z.peers[x], Ask(c.currentTerm + 1, c.log), f);
    var v := Asked(st, s, z, x, c, all, f, rest);
    u := Answered(st, s, v, x, Ask(c.currentTerm + 1, c.log), all, f, rest);
  }

  // The timer of x goes off.
  lemma Stands(st: Setup, s: System, x: PeerId, voters: seq<PeerId>) returns (z: System)
    requires ValidSetup(st) && IsReached(st, s) && x in s.peers && s.peers[x].role != Leader && Able(st, s.peers[x])
    requires !IsSoleMaster(st.cfg, x) && IsBacked(st, s, x, s.peers[x], {x}, voters)
    ensures IsStood(st, s, z, x, voters)
  {
    NoPath(st, s, x);
    PathMore(st, s, s, x, Timeout(x));
    z := Next(st, s, Timeout(x));
    IsCandidate(st, s, x);
    StandsOpen(st, s, x, voters, z);
    assert Stood(st, s, z, x, voters);
  }

  lemma NotItself(st: Setup, s: System, x: PeerId, voters: seq<PeerId>)
    requires x in s.peers && IsBacked(st, s, x, s.peers[x], {x}, voters)
    ensures x !in voters
  {
    assert Turns(TheKey);
  }

  lemma IsVoter(st: Setup, s: System, x: PeerId, voters: seq<PeerId>, f: PeerId)
    requires x in s.peers && IsBacked(st, s, x, s.peers[x], {x}, voters) && f in voters
    ensures Votes(st, s, f, s.peers[x])
  {
    assert Turns(TheKey);
  }

  lemma StandsOpen(st: Setup, s: System, x: PeerId, voters: seq<PeerId>, z: System)
    requires ValidSetup(st) && IsReached(st, s) && x in s.peers && s.peers[x].role != Leader && Able(st, s.peers[x])
    requires !IsSoleMaster(st.cfg, x) && IsBacked(st, s, x, s.peers[x], {x}, voters)
    requires Enabled(st, s, Timeout(x)) && z == Next(st, s, Timeout(x))
    requires var q := z.peers[x];
             && q.role == Candidate && q.currentTerm == s.peers[x].currentTerm + 1 && !q.panicked && q.log == s.peers[x].log
    ensures Standing(s, z, x, Ask(s.peers[x].currentTerm + 1, s.peers[x].log), Ids(voters), voters) && x !in Ids(voters)
  {
    NoPath(st, s, x);
    var h := OnPath(st, s, s, x);
    NotItself(st, s, x, voters);
    forall f | f in voters
      ensures Open(s, z, x, z.peers[x], Ask(s.peers[x].currentTerm + 1, s.peers[x].log), f)
      ensures Up(z, f, s.peers[x].currentTerm + 1)
    {
      IsVoter(st, s, x, voters, f);
      StandsBefore(st, s, h, x, f, z);
    }
  }

  lemma IsCandidate(st: Setup, s: System, x: PeerId)
    requires x in s.peers && s.peers[x].role != Leader && Able(st, s.peers[x]) && !IsSoleMaster(st.cfg, x)
    ensures Enabled(st, s, Timeout(x))
    ensures var q := Next(st, s, Timeout(x)).peers[x];
            q.role == Candidate && q.currentTerm == s.peers[x].currentTerm + 1 && !q.panicked && q.granted == {x} && q.log == s.peers[x].log
  {
  }

  lemma StandsBefore(st: Setup, s: System, h: History, x: PeerId, f: PeerId, z: System)
    requires Inv(st, s, h) && x in s.peers && s.peers[x].role != Leader && Able(st, s.peers[x])
    requires !IsSoleMaster(st.cfg, x) && f in s.peers && f != x && Enabled(st, s, Timeout(x)) && z == Next(st, s, Timeout(x))
    ensures Open(s, z, x, z.peers[x], Ask(s.peers[x].currentTerm + 1, s.peers[x].log), f)
  {
    SocketIsFree(st, s, h, x, f);
    var q := OnElectionTimeout(st, x, s.peers[x], s.clock);
    AsksAnew(st, s.peers[x], x, f, s.clock);
    NotUsed(st, s, h, x, f);
    assert z.peers == s.peers[x := q] && z.high == s.high;
    InFlight(x, q, f);
  }

  lemma SocketIsFree(st: Setup, s: System, h: History, x: PeerId, f: PeerId)
    requires Inv(st, s, h) && x in s.peers && f in s.peers && f != x
    ensures f in s.peers[x].rpcs && (s.peers[x].role == Follower ==> s.peers[x].rpcs[f].pending.None?)
  {
    Facts(st, s, h, x);
    Facts(st, s, h, f);
  }

  // The request is a new one on the socket, on its connection or on a new one.
  lemma AsksAnew(st: Setup, p: Peer, x: PeerId, f: PeerId, ident: nat)
    requires !HeldBack(st, p) && !IsSoleMaster(st.cfg, x) && f in p.rpcs && (p.role == Follower ==> p.rpcs[f].pending.None?)
    ensures var q := OnElectionTimeout(st, x, p, ident);
            && q.rpcs.Keys == p.rpcs.Keys && q.voted == {x}
            && q.rpcs[f].lastId == p.rpcs[f].lastId + 1 && q.rpcs[f].ident in {p.rpcs[f].ident, ident}
            && q.rpcs[f].pending == Some(Ask(p.currentTerm + 1, p.log))
  {
  }

  lemma NotUsed(st: Setup, s: System, h: History, x: PeerId, f: PeerId)
    requires Inv(st, s, h) && x in s.peers && f in s.peers[x].rpcs
    ensures var r := s.peers[x].rpcs[f];
            HighOf(s, Conn(x, f, r.ident)) <= r.lastId && HighOf(s, Conn(x, f, s.clock)) == 0
  {
    var r := s.peers[x].rpcs[f];
    if Conn(x, f, r.ident) in s.high { assert HighOk(s, Conn(x, f, r.ident)); }
    assert Conn(x, f, s.clock) in s.high ==> HighOk(s, Conn(x, f, s.clock));
  }

  // From every reached state: a peer that may stand for election, and a set of voters with
  // whom it is a quorum, each of them up, not held back, in no later term and not ahead of
  // it in its log. If its timer goes off and they all answer, one after another in any
  // order, it leads the next term.
  lemma CanBeElected(st: Setup, s: System, x: PeerId, voters: seq<PeerId>) returns (z: System, steps: seq<Step>)
    requires ValidSetup(st) && Reached(st, s) && x in s.peers && s.peers[x].role != Leader && Able(st, s.peers[x])
    requires Distinct(voters) && x !in voters && IsQuorum(st.cfg, {x} + Ids(voters))
    requires forall f {:trigger Votes(st, s, f, s.peers[x])} :: f in voters ==> Votes(st, s, f, s.peers[x])
    ensures Campaign(st, s, z, x, steps) && Reached(st, z)
    ensures Office(s, z, x, s.peers[x].currentTerm + 1, Ids(voters))
  {
    z := ComesToLead(st, s, x, voters);
    steps := Steps(st, s, z, x);
  }

  lemma ComesToLead(st: Setup, s: System, x: PeerId, voters: seq<PeerId>) returns (z: System)
    requires ValidSetup(st) && IsReached(st, s) && x in s.peers && s.peers[x].role != Leader && Able(st, s.peers[x])
    requires Distinct(voters) && x !in voters && IsQuorum(st.cfg, {x} + Ids(voters))
    requires forall f {:trigger Votes(st, s, f, s.peers[x])} :: f in voters ==> Votes(st, s, f, s.peers[x])
    ensures Path(st, s, z, x) && Office(s, z, x, s.peers[x].currentTerm + 1, Ids(voters))
  {
    if IsSoleMaster(st.cfg, x) {
      z := ElectsItself(st, s, x, voters);
    } else {
      Alone(st.cfg, x, voters);
      assert Backed(st, s, x, s.peers[x], {x}, voters);
      z := Wins(st, s, x, voters);
    }
  }

  lemma Wins(st: Setup, s: System, x: PeerId, voters: seq<PeerId>) returns (z: System)
    requires ValidSetup(st) && IsReached(st, s) && x in s.peers && s.peers[x].role != Leader && Able(st, s.peers[x])
    requires !IsSoleMaster(st.cfg, x) && voters != [] && IsBacked(st, s, x, s.peers[x], {x}, voters)
    ensures Path(st, s, z, x) && Office(s, z, x, s.peers[x].currentTerm + 1, Ids(voters))
  {
    var y := Stands(st, s, x, voters);
    z := Elects(st, s, y, x, voters);
  }

  // The votes for one that stands.
  ghost predicate Stood(st: Setup, s: System, z: System, x: PeerId, voters: seq<PeerId>) {
    && x in s.peers && x in z.peers && Path(st, s, z, x) && z.peers[x].granted == {x} && x !in Ids(voters)
    && Campaigning(s, z, x, Ask(s.peers[x].currentTerm + 1, s.peers[x].log), Ids(voters), voters)
  }

  ghost predicate IsStood(st: Setup, s: System, z: System, x: PeerId, voters: seq<PeerId>) {
    forall key {:trigger Turns(key)} :: Turns(key) ==> Stood(st, s, z, x, voters)
  }

  lemma Elects(st: Setup, s: System, y: System, x: PeerId, voters: seq<PeerId>) returns (z: System)
    requires ValidSetup(st) && x in s.peers && IsStood(st, s, y, x, voters) && voters != []
    requires IsBacked(st, s, x, s.peers[x], {x}, voters)
    ensures Path(st, s, z, x) && Office(s, z, x, s.peers[x].currentTerm + 1, Ids(voters))
  {
    assert Turns(TheKey);
    z := Counted(st, s, y, x, s.peers[x], Ids(voters), voters);
  }

  lemma Steps(st: Setup, s: System, z: System, x: PeerId) returns (steps: seq<Step>)
    requires Path(st, s, z, x)
    ensures Campaign(st, s, z, x, steps) && Reached(st, z)
  {
    assert Opens(TheKey);
    steps :| Campaign(st, s, z, x, steps);
  }

  lemma ElectsItself(st: Setup, s: System, x: PeerId, voters: seq<PeerId>) returns (z: System)
    requires ValidSetup(st) && IsReached(st, s) && x in s.peers && s.peers[x].role != Leader && Able(st, s.peers[x])
    requires IsSoleMaster(st.cfg, x) && x !in voters
    requires forall f {:trigger Votes(st, s, f, s.peers[x])} :: f in voters ==> Votes(st, s, f, s.peers[x])
    ensures Path(st, s, z, x) && Office(s, z, x, s.peers[x].currentTerm + 1, Ids(voters))
  {
    var p := UpdateState(s.peers[x], Candidate, s.peers[x].currentTerm + 1, Some(x), s.clock).(voted := {x}, granted := {x});
    LeadsWithLog(st, x, p, s.clock);
    NobodyElse(st, s, x);
    NoPath(st, s, x);
    PathMore(st, s, s, x, Timeout(x));
    z := Next(st, s, Timeout(x));
    assert z.peers[x] == BecomeLeader(st, x, p, s.clock);
    forall f | f in Ids(voters) ensures Up(z, f, s.peers[x].currentTerm + 1) { assert Votes(st, s, f, s.peers[x]); }
  }

  lemma NobodyElse(st: Setup, s: System, x: PeerId)
    requires ValidSetup(st) && IsReached(st, s) && x in s.peers && IsSoleMaster(st.cfg, x)
    ensures s.peers[x].rpcs.Keys == {}
  {
    assert Turns(TheKey);
    var h := WitnessOf(st, s);
    Facts(st, s, h, x);
  }

  // One peer is a quorum of nothing but itself.
  lemma Alone(cfg: Config, x: PeerId, voters: seq<PeerId>)
    ensures IsQuorum(cfg, {x} + Ids(voters)) && voters == [] ==> IsSoleMaster(cfg, x)
  {
    if IsQuorum(cfg, {x} + Ids(voters)) && voters == [] {
      assert {x} + Ids(voters) == {x};
      OneOf(cfg.oc, x);
      if cfg.IsTransitional() { OneOf(cfg.nc, x); }
    }
  }

  lemma OneOf(peers: set<PeerId>, x: PeerId)
    requires IsMajority(peers, {x})
    ensures peers == {x}
  {
    SubsetCardinality({x} * peers, {x});
    assert x in peers;
    if exists y :: y in peers && y != x {
      var y :| y in peers && y != x;
      SubsetCardinality({x, y}, peers);
    }
  }
}
