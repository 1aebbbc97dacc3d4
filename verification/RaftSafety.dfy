// The safety of the protocol over whole runs of a cluster of fixed membership,
// single or joint: what holds of every state that can be reached, and of any two
// states of one run. Nothing here mentions the history of the proof.
module RaftSafety {
  import opened Wrappers
  import opened Quorum
  import opened RaftPeer
  import opened RaftSystem
  import opened RaftInvariant
  import opened RaftLogs
  import opened RaftCore
  import opened RaftCoreFollower
  import opened RaftNetTerm
  import opened RaftNetFollower
  import opened RaftSteps
  import opened RaftStepsRequest
  import opened RaftStepsReply

  // ---------- The invariant along a run ----------

  lemma StepKeeps(st: Setup, s: System, h: History, step: Step)
    requires Inv(st, s, h) && Enabled(st, s, step)
    ensures Kept(st, s, h, step)
  {
    match step
    case Timeout(_) => StepTimeout(st, s, h, step);
    case DeliverRequest(pk) =>
      if pk.req.VoteRequest? { StepVoteRequest(st, s, h, step); } else { StepAppendRequest(st, s, h, step); }
    case DeliverAnswer(a) =>
      if a.resp.VoteResponse? { StepVoteAnswer(st, s, h, step); } else { StepAppendAnswer(st, s, h, step); }
    case Replicate(_, _, _) => StepReplicate(st, s, h, step);
    case ClientUpdate(_, _) => StepClient(st, s, h, step);
    case ApplyLog(_, _) => StepApply(st, s, h, step);
    case Crash(_, _) => StepCrash(st, s, h, step);
  }

  lemma InitKeeps(st: Setup)
    requires ValidSetup(st)
    ensures Inv(st, Init(st), Blank)
  {
    var s := Init(st);
    forall x | x in s.peers ensures PeerOk(st.cfg, Blank, x, s.peers[x]) && SocketsOk(st.cfg, s, Blank, x, s.peers[x]) {
      NewPeerKeeps(st, s, x);
    }
  }

  lemma NewPeerKeeps(st: Setup, s: System, x: PeerId)
    requires x in s.peers && s.peers[x] == NewPeer(st, x) && s.clock == 1
    ensures PeerOk(st.cfg, Blank, x, s.peers[x]) && SocketsOk(st.cfg, s, Blank, x, s.peers[x])
  {
    assert s.peers[x].log[..s.peers[x].commitIndex] == [];
  }

  // What the observer has written down at the end of a run.
  ghost function Recorded(st: Setup, s: System, h: History, steps: seq<Step>): History
    requires IsRun(st, s, steps)
    decreases |steps|
  {
    if steps == [] then h else Recorded(st, Next(st, s, steps[0]), Observe(st, s, h, steps[0]), steps[1..])
  }

  lemma {:induction false} RunKeeps(st: Setup, s: System, h: History, steps: seq<Step>)
    requires Inv(st, s, h) && IsRun(st, s, steps)
    ensures Inv(st, After(st, s, steps), Recorded(st, s, h, steps))
    ensures HistoryGrows(h, Recorded(st, s, h, steps))
    decreases |steps|
  {
    if steps != [] {
      StepKeeps(st, s, h, steps[0]);
      var g := Observe(st, s, h, steps[0]);
      RunKeeps(st, Next(st, s, steps[0]), g, steps[1..]);
      HistoryGrowsOn(h, g, Recorded(st, s, h, steps));
    }
  }

  // Two states of one run, the second reached from the first.
  ghost predicate Reached(st: Setup, s: System) {
    exists steps :: IsRun(st, Init(st), steps) && After(st, Init(st), steps) == s
  }

  ghost predicate Leads(st: Setup, s: System, z: System) {
    exists steps :: IsRun(st, s, steps) && After(st, s, steps) == z
  }

  lemma LeadsOn(st: Setup, s: System, z: System, step: Step)
    requires Leads(st, s, z) && Enabled(st, z, step)
    ensures Leads(st, s, Next(st, z, step))
  {
    var steps :| IsRun(st, s, steps) && After(st, s, steps) == z;
    assert RunsTo(st, s, steps, z);
    RunsFurther(st, s, steps, z, step);
  }

  lemma Witness(st: Setup, s: System, z: System) returns (h: History, g: History)
    requires ValidSetup(st) && Reached(st, s) && Leads(st, s, z)
    ensures Inv(st, s, h) && Inv(st, z, g) && HistoryGrows(h, g)
  {
    var a :| IsRun(st, Init(st), a) && After(st, Init(st), a) == s;
    var b :| IsRun(st, s, b) && After(st, s, b) == z;
    InitKeeps(st);
    RunKeeps(st, Init(st), Blank, a);
    h := Recorded(st, Init(st), Blank, a);
    RunKeeps(st, s, h, b);
    g := Recorded(st, s, h, b);
  }

  lemma WitnessOf(st: Setup, s: System) returns (h: History)
    requires ValidSetup(st) && Reached(st, s)
    ensures Inv(st, s, h)
  {
    assert IsRun(st, s, []) && After(st, s, []) == s;
    var g;
    h, g := Witness(st, s, s);
  }

  // ---------- Elections ----------

  // At most one peer ever leads a term, however far apart the two sightings are.
  lemma ElectionSafety(st: Setup, s: System, z: System, x: PeerId, y: PeerId)
    requires ValidSetup(st) && Reached(st, s) && Leads(st, s, z)
    requires x in s.peers && s.peers[x].role == Leader && y in z.peers && z.peers[y].role == Leader
    requires s.peers[x].currentTerm == z.peers[y].currentTerm
    ensures x == y
  {
    var h, g := Witness(st, s, z);
    var t := s.peers[x].currentTerm;
    Facts(st, s, h, x);
    Facts(st, z, g, y);
    assert TermGrows(t, h.terms[t], g.terms[t]);
  }

  // A peer's term never goes back, not even over a crash.
  lemma {:induction false} TermsNeverFall(st: Setup, s: System, steps: seq<Step>, x: PeerId)
    requires IsRun(st, s, steps) && x in s.peers
    ensures var z := After(st, s, steps); x in z.peers && s.peers[x].currentTerm <= z.peers[x].currentTerm
    decreases |steps|
  {
    if steps != [] {
      StepTerm(st, s, steps[0]);
      TermsNeverFall(st, Next(st, s, steps[0]), steps[1..], x);
    }
  }

  lemma StepTerm(st: Setup, s: System, step: Step)
    requires Enabled(st, s, step)
    ensures s.peers[Actor(step)].currentTerm <= Act(st, s, step).peer.currentTerm
  {
    match step
    case Timeout(x) => BecomesLeader(st, x, Standing(st, x, s.peers[x], s.clock), s.clock);
    case DeliverAnswer(a) => ReceiveTerm(st, a.conn.src, s.peers[a.conn.src], a, s.clock);
    case _ =>
  }

  lemma ReceiveTerm(st: Setup, me: PeerId, p: Peer, a: Answer, ident: nat)
    requires Awaited(p, a) && a.resp.VoteResponse? == p.rpcs[a.conn.dst].pending.value.VoteRequest?
    ensures p.currentTerm <= Receive(st, me, p, a, ident).currentTerm
  {
    var q, r := Resolved(p, a.conn.dst), p.rpcs[a.conn.dst].pending.value;
    if a.resp.VoteResponse? {
      BecomesLeader(st, me, Counted(p, a), ident);
    } else {
      AppendResponseTerm(st, me, q, a.conn.dst, r, a.resp, ident);
    }
  }

  lemma AppendResponseTerm(st: Setup, me: PeerId, p: Peer, f: PeerId, r: Request, resp: Response, ident: nat)
    requires r.AppendRequest? && resp.AppendResponse?
    ensures p.currentTerm <= OnAppendResponse(st, me, p, f, r, resp.term, resp.success, resp.conflict, ident).currentTerm
  {
  }

  // ---------- Logs ----------

  // Log matching: an entry of the same index and term, seen in two logs at any
  // two moments of a run, comes with the same entries before it.
  lemma LogMatching(st: Setup, s: System, z: System, x: PeerId, y: PeerId, index: nat)
    requires ValidSetup(st) && Reached(st, s) && Leads(st, s, z) && x in s.peers && y in z.peers
    requires TermAt(s.peers[x].log, index).Some?
    requires TermAt(s.peers[x].log, index) == TermAt(z.peers[y].log, index)
    ensures s.peers[x].log[..index] == z.peers[y].log[..index]
  {
    var h, g := Witness(st, s, z);
    Facts(st, s, h, x);
    Facts(st, z, g, y);
    RootedGrows(h, g, s.peers[x].log);
    LogsMatch(g, s.peers[x].log, z.peers[y].log, index);
  }

  // Leader completeness: what a peer ever took for committed is in the log of
  // every leader of its term or a later one, at any later moment.
  lemma LeadersHaveCommitted(st: Setup, s: System, z: System, x: PeerId, l: PeerId)
    requires ValidSetup(st) && Reached(st, s) && Leads(st, s, z) && x in s.peers && l in z.peers
    requires z.peers[l].role == Leader && s.peers[x].currentTerm <= z.peers[l].currentTerm
    ensures s.peers[x].commitIndex <= |s.peers[x].log|
    ensures s.peers[x].log[..s.peers[x].commitIndex] <= z.peers[l].log
  {
    var h, g := Witness(st, s, z);
    var p := s.peers[x];
    Facts(st, s, h, x);
    Facts(st, z, g, l);
    CommittedGrows(st.cfg, h, g, p.log[..p.commitIndex], p.currentTerm, p.currentTerm);
    CommittedInLeader(st.cfg, g, p.log[..p.commitIndex], p.currentTerm, z.peers[l].currentTerm);
  }

  // State machine safety: no two peers, and no peer at two moments, ever apply
  // different entries at the same index.
  lemma StateMachineSafety(st: Setup, s: System, z: System, x: PeerId, y: PeerId, k: nat)
    requires ValidSetup(st) && Reached(st, s) && Leads(st, s, z) && x in s.peers && y in z.peers
    requires k < s.peers[x].lastApplied && k < z.peers[y].lastApplied
    ensures k < |s.peers[x].log| && k < |z.peers[y].log|
    ensures s.peers[x].log[k] == z.peers[y].log[k]
  {
    var h, g := Witness(st, s, z);
    Facts(st, s, h, x);
    Facts(st, z, g, y);
    SameCommitted(st.cfg, h, g, s.peers[x], z.peers[y], k);
  }

  lemma SameCommitted(cfg: Config, h: History, g: History, p: Peer, q: Peer, k: nat)
    requires HistoryOk(cfg, g) && HistoryGrows(h, g) && CommitOk(cfg, h, p) && CommitOk(cfg, g, q)
    requires k < p.commitIndex && k < q.commitIndex
    ensures p.log[k] == q.log[k]
  {
    var a, b := p.log[..p.commitIndex], q.log[..q.commitIndex];
    CommittedGrows(cfg, h, g, a, p.currentTerm, p.currentTerm);
    CommittedComparable(cfg, g, a, p.currentTerm, b, q.currentTerm);
    assert a[k] == b[k];
  }

  // ---------- Replication ----------

  // What a leader believes of a follower in its own term is true of its log.
  lemma MatchIndexIsTrue(st: Setup, s: System, l: PeerId, f: PeerId)
    requires ValidSetup(st) && Reached(st, s) && l in s.peers && f in s.peers && f in Others(st.cfg, l)
    requires s.peers[l].role == Leader && s.peers[f].currentTerm == s.peers[l].currentTerm
    ensures f in s.peers[l].matchIndex
    ensures Agree(s.peers[l].log, s.peers[f].log, s.peers[l].matchIndex[f])
  {
    var h := WitnessOf(st, s);
    Facts(st, s, h, l);
    Facts(st, s, h, f);
    assert KnowsOk(s, h, l, s.peers[l], f);
    KnownToMatch(st.cfg, h, l, s.peers[l], f, s.peers[f]);
  }

  lemma KnownToMatch(cfg: Config, h: History, x: PeerId, l: Peer, f: PeerId, p: Peer)
    requires l.role == Leader && LeadingOk(cfg, h, x, l) && LogOk(h, f, p) && p.currentTerm == l.currentTerm
    requires f in l.matchIndex && f in l.matchTerm && MatchOk(h, l, f)
    ensures Agree(l.log, p.log, l.matchIndex[f])
  {
  }

  // A leader's nextIndex for a follower is a position in or right after its log,
  // so the branch of the program that falls back to a snapshot is not taken.
  lemma NextIndexInLog(st: Setup, s: System, l: PeerId, f: PeerId)
    requires ValidSetup(st) && Reached(st, s) && l in s.peers && f in Others(st.cfg, l) && s.peers[l].role == Leader
    ensures f in s.peers[l].nextIndex && 1 <= s.peers[l].nextIndex[f] <= |s.peers[l].log| + 1
  {
    var h := WitnessOf(st, s);
    Facts(st, s, h, l);
    assert KnowsOk(s, h, l, s.peers[l], f);
  }

  // A reply that arrives at the leader that still leads the request's term.
  ghost predicate Informs(st: Setup, s: System, step: Step) {
    && Enabled(st, s, step) && step.DeliverAnswer? && step.answer.resp.AppendResponse?
    && step.answer.resp.term <= s.peers[Actor(step)].currentTerm
  }

  // Every refusal lowers nextIndex, and never below 1.
  lemma RefusalsDescend(st: Setup, s: System, step: Step)
    requires ValidSetup(st) && Reached(st, s) && Informs(st, s, step) && !step.answer.resp.success
    ensures var f, l, m := step.answer.conn.dst, s.peers[Actor(step)], Next(st, s, step).peers[Actor(step)];
            f in l.nextIndex && f in m.nextIndex && 1 <= m.nextIndex[f] < l.nextIndex[f]
  {
    var h := WitnessOf(st, s);
    var x, a := Actor(step), step.answer;
    var p, f := s.peers[x], a.conn.dst;
    Facts(st, s, h, x);
    var r := p.rpcs[f].pending.value;
    var m := Resolved(p, f).(nextIndex := p.nextIndex[f := NextIndexAfterRefusal(r.prevIndex, a.resp.conflict)]);
    AppendView(st, s, h, step, m);
    Learned(st, s, h, step, m);
  }

  // ---------- Truncation ----------

  // What an append request of a term can mean for the log of its receiver.
  lemma ProbeMeans(st: Setup, s: System, h: History, pk: Packet)
    requires Inv(st, s, h) && Deliverable(s, pk) && pk.req.AppendRequest?
    requires pk.conn.dst in s.peers && pk.req.term >= s.peers[pk.conn.dst].currentTerm
    ensures pk.req.term in h.terms
    ensures var f, log := s.peers[pk.conn.dst], h.terms[pk.req.term].log;
            || !Agree(f.log, log, pk.req.prevIndex + 1)
            || (&& f.currentTerm == pk.req.term && f.log <= log
                && (|f.log| == pk.req.prevIndex
                    || (pk.id <= HighOf(s, pk.conn) && |f.log| == pk.req.LastIndex())))
  {
    var x := pk.conn.dst;
    Facts(st, s, h, x);
    Ends(st, s, h, pk);
    var f, t := s.peers[x], pk.req.term;
    if f.currentTerm < t {
      LogTermsBelow(st.cfg, h, x, f, t);
      BeyondBase(st.cfg, h, t);
      NoAgreement(f.log, h.terms[t].log, pk.req.prevIndex + 1, t);
    }
  }

  // The sender of the packet leads its term.
  predicate LeadsIt(s: System, pk: Packet) {
    pk.conn.src in s.peers && s.peers[pk.conn.src].role == Leader && s.peers[pk.conn.src].currentTerm == pk.req.term
  }

  // The log b that replaces a follower's log a is the leader's up to the last entry
  // of the request r, and has every index at which a agreed with the leader's.
  ghost predicate Harmless(r: Request, a: Log, b: Log, log: Log)
    requires r.AppendRequest?
  {
    && r.LastIndex() <= |log| && b == log[..r.LastIndex()]
    && Agree(a, log, r.prevIndex) && (a <= log || !Agree(a, log, r.prevIndex + 1))
    && forall j: nat {:trigger Agree(a, log, j)} :: Agree(a, log, j) ==> Agree(b, log, j)
  }

  // An accepted request leaves the receiver with the log of the term's leader up to its
  // last entry, and cuts off nothing that leader had: unless the receiver's log was a
  // prefix of the leader's already, the request starts at the last index at which the
  // two agree. The leader's log is the one it had at any moment m of the run at which it
  // led the term, before the request arrives or after: it may have stepped down, crashed
  // or won other terms in between. What it had before the request was made is kept.
  lemma TruncationIsHarmless(st: Setup, s: System, m: System, step: Step)
    requires ValidSetup(st) && Reached(st, s) && Enabled(st, s, step) && AcceptsNow(s, step)
    requires Reached(st, m) && (Leads(st, m, s) || Leads(st, s, m)) && LeadsIt(m, step.packet)
    ensures var r, log := step.packet.req, m.peers[step.packet.conn.src].log;
            var a, b := s.peers[Actor(step)].log, Next(st, s, step).peers[Actor(step)].log;
            if r.LastIndex() <= |log| then Harmless(r, a, b, log) else log <= b
  {
    if Leads(st, m, s) {
      var g, h := Witness(st, m, s);
      HarmlessBefore(st, s, h, m, g, step);
    } else {
      var h, g := Witness(st, s, m);
      HarmlessLater(st, s, h, m, g, step);
    }
  }

  lemma HarmlessBefore(st: Setup, s: System, h: History, m: System, g: History, step: Step)
    requires Inv(st, s, h) && Enabled(st, s, step) && AcceptsNow(s, step)
    requires Inv(st, m, g) && HistoryGrows(g, h) && LeadsIt(m, step.packet)
    ensures var r, log := step.packet.req, m.peers[step.packet.conn.src].log;
            var a, b := s.peers[Actor(step)].log, Next(st, s, step).peers[Actor(step)].log;
            if r.LastIndex() <= |log| then Harmless(r, a, b, log) else log <= b
  {
    var t := step.packet.req.term;
    TruncationAt(st, s, h, step);
    Facts(st, m, g, step.packet.conn.src);
    assert TermGrows(t, g.terms[t], h.terms[t]);
    HarmlessToPrefix(step.packet.req, s.peers[Actor(step)].log, Next(st, s, step).peers[Actor(step)].log,
                     h.terms[t].log, m.peers[step.packet.conn.src].log);
  }

  lemma HarmlessLater(st: Setup, s: System, h: History, m: System, g: History, step: Step)
    requires Inv(st, s, h) && Enabled(st, s, step) && AcceptsNow(s, step)
    requires Inv(st, m, g) && HistoryGrows(h, g) && LeadsIt(m, step.packet)
    ensures Harmless(step.packet.req, s.peers[Actor(step)].log, Next(st, s, step).peers[Actor(step)].log,
                     m.peers[step.packet.conn.src].log)
  {
    TruncationAt(st, s, h, step);
    LedLonger(st, s, h, m, g, step.packet.req.term, step.packet.conn.src, Actor(step));
    HarmlessToLonger(step.packet.req, s.peers[Actor(step)].log, Next(st, s, step).peers[Actor(step)].log,
                     h.terms[step.packet.req.term].log, m.peers[step.packet.conn.src].log);
  }

  lemma LedLonger(st: Setup, s: System, h: History, m: System, g: History, t: nat, l: PeerId, f: PeerId)
    requires Inv(st, s, h) && t in h.terms && f in s.peers
    requires Inv(st, m, g) && HistoryGrows(h, g) && l in m.peers && m.peers[l].role == Leader && m.peers[l].currentTerm == t
    ensures h.terms[t].log <= m.peers[l].log
    ensures !Agree(s.peers[f].log, m.peers[l].log, |h.terms[t].log| + 1)
  {
    Facts(st, m, g, l);
    Facts(st, s, h, f);
    assert TermGrows(t, h.terms[t], g.terms[t]);
    assert TermOk(st.cfg, h, t, h.terms[t]) && TermOk(st.cfg, g, t, g.terms[t]);
    NotYetThere(st.cfg, h, g, t, s.peers[f].log);
  }

  lemma HarmlessToPrefix(r: Request, a: Log, b: Log, log: Log, l: Log)
    requires r.AppendRequest? && Harmless(r, a, b, log) && l <= log
    requires a <= log ==> |a| <= r.LastIndex()
    ensures if r.LastIndex() <= |l| then Harmless(r, a, b, l) else l <= b
  {
    if r.LastIndex() <= |l| {
      assert Agree(a, log, r.prevIndex);
      forall j: nat | Agree(a, l, j) ensures Agree(b, l, j) { assert Agree(a, log, j); }
      if Agree(a, l, r.prevIndex + 1) { assert Agree(a, log, r.prevIndex + 1); }
    }
  }

  lemma HarmlessToLonger(r: Request, a: Log, b: Log, log: Log, l: Log)
    requires r.AppendRequest? && Harmless(r, a, b, log) && log <= l
    requires a <= log ==> |a| <= r.LastIndex()
    requires !Agree(a, l, |log| + 1)
    ensures Harmless(r, a, b, l)
  {
    assert Agree(a, log, r.prevIndex);
    forall j: nat | Agree(a, l, j) ensures Agree(a, log, j) {
      if j > |log| { AgreeDown(a, l, |log| + 1, j); }
    }
    forall j: nat | Agree(a, l, j) ensures Agree(b, l, j) {
      assert Agree(a, log, j);
      assert Agree(b, log, j);
    }
  }

  // Nobody has an entry that the leader of a term is still to add.
  lemma NotYetThere(cfg: Config, h: History, g: History, t: nat, a: Log)
    requires t in h.terms && t in g.terms && TermGrows(t, h.terms[t], g.terms[t]) && Rooted(h, a)
    requires TermOk(cfg, h, t, h.terms[t]) && TermOk(cfg, g, t, g.terms[t])
    ensures !Agree(a, g.terms[t].log, |h.terms[t].log| + 1)
  {
    var k, log := |h.terms[t].log|, g.terms[t].log;
    if k < |a| && k < |log| {
      assert RootedAt(h, a, k);
      assert a[k].term != t == log[k].term;
      assert a[..k + 1][k] == a[k] && log[..k + 1][k] == log[k];
    }
  }

  // There was such a moment, at which the leader had all entries of the request.
  lemma SenderLed(st: Setup, s: System, pk: Packet) returns (m: System)
    requires ValidSetup(st) && Reached(st, s) && pk in s.sent && pk.req.AppendRequest?
    ensures Reached(st, m) && Leads(st, m, s) && LeadsIt(m, pk)
    ensures pk.req.LastIndex() <= |m.peers[pk.conn.src].log|
  {
    var steps :| IsRun(st, Init(st), steps) && After(st, Init(st), steps) == s;
    InitKeeps(st);
    RunKeeps(st, Init(st), Blank, steps);
    var h := Recorded(st, Init(st), Blank, steps);
    Ends(st, s, h, pk);
    var a, b;
    m, a, b := LedBefore(st, Init(st), Blank, steps, pk.req.term);
  }

  // What is written down about a term was the state of its leader at some moment.
  predicate WasLed(m: System, t: nat, r: TermRecord) {
    r.leader in m.peers && m.peers[r.leader].role == Leader && m.peers[r.leader].currentTerm == t
    && m.peers[r.leader].log == r.log
  }

  // Either the record is as old as the run, or the run has a moment at which it was true.
  lemma {:induction false} LedBefore(st: Setup, s: System, h: History, steps: seq<Step>, t: nat)
    returns (m: System, a: seq<Step>, b: seq<Step>)
    requires Inv(st, s, h) && IsRun(st, s, steps) && t in Recorded(st, s, h, steps).terms
    ensures IsSplit(st, s, steps, m, a, b)
    ensures var r := Recorded(st, s, h, steps).terms[t]; (t in h.terms && h.terms[t] == r) || WasLed(m, t, r)
    decreases |steps|
  {
    m, a, b := s, [], steps;
    if steps != [] {
      var x, z, g := steps[0], Next(st, s, steps[0]), Observe(st, s, h, steps[0]);
      StepKeeps(st, s, h, x);
      m, a, b := LedBefore(st, z, g, steps[1..], t);
      var r := Recorded(st, z, g, steps[1..]).terms[t];
      if t in g.terms && g.terms[t] == r {
        StepLed(st, s, h, x, t);
        if t in h.terms && h.terms[t] == r {
          m, a, b := s, [], steps;
        } else {
          m, a, b := z, [x], steps[1..];
          SplitLonger(st, s, steps, z, [], b);
        }
      } else {
        SplitLonger(st, s, steps, m, a, b);
        a := [x] + a;
      }
    }
  }

  // The run goes through m.
  ghost predicate IsSplit(st: Setup, s: System, steps: seq<Step>, m: System, a: seq<Step>, b: seq<Step>)
    requires IsRun(st, s, steps)
  {
    IsRun(st, s, a) && After(st, s, a) == m && IsRun(st, m, b) && After(st, m, b) == After(st, s, steps)
  }

  lemma SplitLonger(st: Setup, s: System, steps: seq<Step>, m: System, a: seq<Step>, b: seq<Step>)
    requires steps != [] && IsRun(st, s, steps) && IsSplit(st, Next(st, s, steps[0]), steps[1..], m, a, b)
    ensures IsSplit(st, s, steps, m, [steps[0]] + a, b)
  {
    assert ([steps[0]] + a)[1..] == a;
  }

  lemma StepLed(st: Setup, s: System, h: History, x: Step, t: nat)
    requires Enabled(st, s, x) && Kept(st, s, h, x) && t in Observe(st, s, h, x).terms
    ensures var r := Observe(st, s, h, x).terms[t]; (t in h.terms && h.terms[t] == r) || WasLed(Next(st, s, x), t, r)
  {
    Facts(st, Next(st, s, x), Observe(st, s, h, x), Actor(x));
  }

  lemma TruncationAt(st: Setup, s: System, h: History, step: Step)
    requires Inv(st, s, h) && Enabled(st, s, step) && AcceptsNow(s, step)
    ensures step.packet.req.term in h.terms && h.terms[step.packet.req.term].leader == step.packet.conn.src
    ensures var a, log := s.peers[Actor(step)].log, h.terms[step.packet.req.term].log;
            && Harmless(step.packet.req, a, Next(st, s, step).peers[Actor(step)].log, log)
            && (a <= log ==> |a| <= step.packet.req.LastIndex())
  {
    AcceptanceFacts(st, s, h, step);
    AcceptanceMeans(st.cfg, h, s.peers[Actor(step)].log, step.packet);
  }

  lemma AcceptanceFacts(st: Setup, s: System, h: History, step: Step)
    requires Inv(st, s, h) && Enabled(st, s, step) && AcceptsNow(s, step)
    ensures var r, a := step.packet.req, s.peers[Actor(step)].log;
            && HistoryOk(st.cfg, h) && Rooted(h, a) && AppendPacketOk(st.cfg, h, step.packet)
            && r.prevIndex <= |a| && TermAt(a, r.prevIndex) == Some(r.prevTerm)
            && (!Agree(a, h.terms[r.term].log, r.prevIndex + 1) || (a <= h.terms[r.term].log && |a| <= r.LastIndex()))
            && Next(st, s, step).peers[Actor(step)].log == AppendAt(a, r.prevIndex, r.entries)
  {
    Facts(st, s, h, Actor(step));
    Ends(st, s, h, step.packet);
    AcceptedLogIs(st, s, step);
    ProbeMeans(st, s, h, step.packet);
  }

  lemma AcceptedLogIs(st: Setup, s: System, step: Step)
    requires Enabled(st, s, step) && AcceptsNow(s, step)
    ensures var r, p := step.packet.req, s.peers[Actor(step)];
            && r.prevIndex <= |p.log| && TermAt(p.log, r.prevIndex) == Some(r.prevTerm)
            && r.term >= p.currentTerm
            && Next(st, s, step).peers[Actor(step)].log == AppendAt(p.log, r.prevIndex, r.entries)
  {
    AppendRequestView(st, s, step);
  }

  lemma AcceptanceMeans(cfg: Config, h: History, a: Log, pk: Packet)
    requires HistoryOk(cfg, h) && Rooted(h, a) && pk.req.AppendRequest? && AppendPacketOk(cfg, h, pk)
    requires pk.req.prevIndex <= |a| && TermAt(a, pk.req.prevIndex) == Some(pk.req.prevTerm)
    requires var log := h.terms[pk.req.term].log;
             !Agree(a, log, pk.req.prevIndex + 1) || (a <= log && |a| <= pk.req.LastIndex())
    ensures Harmless(pk.req, a, AppendAt(a, pk.req.prevIndex, pk.req.entries), h.terms[pk.req.term].log)
  {
    var r, log, b := pk.req, h.terms[pk.req.term].log, AppendAt(a, pk.req.prevIndex, pk.req.entries);
    assert TermOk(cfg, h, r.term, h.terms[r.term]);
    LogsMatch(h, a, log, r.prevIndex);
    assert b == log[..r.LastIndex()];
    forall j: nat | Agree(a, log, j) ensures Agree(b, log, j) {
      if j > r.prevIndex && !Agree(a, log, r.prevIndex + 1) { AgreeDown(a, log, r.prevIndex + 1, j); }
      assert b[..j] == log[..j];
    }
  }

  // ---------- The panic ----------

  // A follower refuses to truncate below its commit index only a request that was
  // delivered to it before and that would change nothing: its entries are already
  // the tail of the log. A request that arrives for the first time never panics.
  lemma PanicOnlyOnRepetition(st: Setup, s: System, pk: Packet)
    requires ValidSetup(st) && Reached(st, s) && Deliverable(s, pk) && pk.req.AppendRequest?
    requires pk.conn.dst in s.peers && Panics(s.peers[pk.conn.dst], pk.req)
    ensures pk.conn in s.high && s.high[pk.conn] == pk.id
    ensures var p := s.peers[pk.conn.dst];
            && p.currentTerm == pk.req.term && pk.req.prevIndex <= |p.log|
            && AppendAt(p.log, pk.req.prevIndex, pk.req.entries) == p.log
  {
    var h := WitnessOf(st, s);
    PanicOnlyOnRepetitionAt(st, s, h, pk);
  }

  lemma PanicOnlyOnRepetitionAt(st: Setup, s: System, h: History, pk: Packet)
    requires Inv(st, s, h) && Deliverable(s, pk) && pk.req.AppendRequest?
    requires pk.conn.dst in s.peers && Panics(s.peers[pk.conn.dst], pk.req)
    ensures pk.conn in s.high && s.high[pk.conn] == pk.id
    ensures var p := s.peers[pk.conn.dst];
            && p.currentTerm == pk.req.term && pk.req.prevIndex <= |p.log|
            && AppendAt(p.log, pk.req.prevIndex, pk.req.entries) == p.log
  {
    var x := pk.conn.dst;
    Facts(st, s, h, x);
    Ends(st, s, h, pk);
    ProbeMeans(st, s, h, pk);
    PanicMeans(st.cfg, h, s.peers[x], pk);
  }

  lemma PanicMeans(cfg: Config, h: History, p: Peer, pk: Packet)
    requires HistoryOk(cfg, h) && CommitOk(cfg, h, p) && pk.req.AppendRequest? && AppendPacketOk(cfg, h, pk)
    requires Panics(p, pk.req)
    requires var log := h.terms[pk.req.term].log;
             || !Agree(p.log, log, pk.req.prevIndex + 1)
             || (p.log <= log && (|p.log| == pk.req.prevIndex || |p.log| == pk.req.LastIndex()))
    ensures pk.req.prevIndex < |p.log| == pk.req.LastIndex() && Agree(p.log, h.terms[pk.req.term].log, pk.req.prevIndex + 1)
    ensures AppendAt(p.log, pk.req.prevIndex, pk.req.entries) == p.log
  {
    var log := h.terms[pk.req.term].log;
    CommittedInLeader(cfg, h, p.log[..p.commitIndex], p.currentTerm, pk.req.term);
    assert Agree(p.log, log, p.commitIndex);
    AgreeDown(p.log, log, pk.req.prevIndex + 1, p.commitIndex);
    assert AppendAt(p.log, pk.req.prevIndex, pk.req.entries) == p.log;
  }
}
