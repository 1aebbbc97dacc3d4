// Two runs in which a follower panics, in any cluster of three peers. In both it
// executes a request that brings an entry together with the news that it is
// committed, and gets the same request once more when the bounce cache no longer
// holds it: once because it crashed after it applied the entry, and once, without
// any crash, because a request of an older connection came late and took its place.
module RaftPanicRun {
  import opened Wrappers
  import opened Sealing
  import opened Quorum
  import opened RaftPeer
  import opened RaftSystem
  import opened RaftInvariant
  import opened RaftSafety

  predicate Trio(st: Setup, a: PeerId, b: PeerId, c: PeerId) {
    a != b && b != c && a != c && st.cfg == Config({a, b, c}, {})
  }

  // What is said in term t, in which a leads with an empty log at first.
  function Ask(t: nat): Request { VoteRequest(t, 0, 0) }
  function Hello(t: nat): Request { AppendRequest(t, 0, 0, 0, []) }
  function News(t: nat): Entry { Entry(t, State(7)) }
  function Bring(t: nat): Request { AppendRequest(t, 0, 0, 0, [News(t)]) }
  function BringCommitted(t: nat): Request { AppendRequest(t, 0, 0, 1, [News(t)]) }
  function Yes(t: nat): Response { AppendResponse(t, true, None) }

  // What a knew of the others in its last leadership.
  datatype Tables = Tables(next: map<PeerId, nat>, match_: map<PeerId, nat>, term: map<PeerId, nat>)

  // a before and after b votes for it.
  function Candidacy(a: PeerId, b: PeerId, c: PeerId, t: nat, m: Tables, toB: Rpc, toC: Rpc): Peer {
    Peer(Candidate, t, Some(a), [], 0, 0, {a}, {a}, m.next, m.match_, m.term, map[b := toB, c := toC], map[], false)
  }

  function Voted(a: PeerId, b: PeerId, c: PeerId, t: nat, m: Tables, toB: Rpc, toC: Rpc): Peer {
    Candidacy(a, b, c, t, m, toB, toC).(voted := {a, b}, granted := {a, b})
  }

  // What a leads with: its log, its commit index and what it knows of b; it knows
  // of c that nothing is stored there yet.
  function Lead(a: PeerId, b: PeerId, c: PeerId, t: nat, log: Log, commit: nat, known: nat, toB: Rpc, toC: Rpc): Peer {
    Peer(Leader, t, Some(a), log, commit, 0, {a, b}, {a, b},
         map[b := known + 1, c := 1], map[b := known, c := 0], map[b := if known == 0 then 0 else t, c := 0],
         map[b := toB, c := toC], map[], false)
  }

  // Peer b or c, as far as the runs need it.
  function Face(p: Peer): Peer {
    p.(voted := {}, granted := {}, nextIndex := map[], matchIndex := map[], matchTerm := map[], rpcs := map[])
  }

  function Behind(role: Role, term: nat, votedFor: Option<PeerId>, log: Log, commit: nat,
                  cache: map<PeerId, CacheEntry>): Peer
  {
    Peer(role, term, votedFor, log, commit, 0, {}, {}, map[], map[], map[], map[], cache, false)
  }

  // ---------- Steps ----------

  // The state is reached without a crash.
  ghost predicate Calmly(st: Setup, s: System, steps: seq<Step>) {
    RunsTo(st, Init(st), steps, s) && NoCrash(steps)
  }

  ghost predicate NoCrash(steps: seq<Step>) { forall i :: 0 <= i < |steps| ==> !steps[i].Crash? }

  ghost predicate Calm(st: Setup, s: System) { exists steps :: Calmly(st, s, steps) }

  // The same, sealed: the lemmas below pass it on without looking inside.
  ghost predicate Sealed(st: Setup, s: System) {
    forall key {:trigger Turns(key)} :: Turns(key) ==> Calm(st, s)
  }

  lemma Unseal(st: Setup, s: System)
    requires Sealed(st, s)
    ensures Calm(st, s)
  {
    assert Turns(TheKey);
  }

  lemma CalmIsReached(st: Setup, s: System)
    requires Sealed(st, s)
    ensures Reached(st, s)
  {
    Unseal(st, s);
    var steps :| Calmly(st, s, steps);
  }

  lemma Onward(st: Setup, s: System, step: Step)
    requires Reached(st, s) && Enabled(st, s, step)
    ensures Reached(st, Next(st, s, step))
  {
    assert Leads(st, Init(st), s);
    LeadsOn(st, Init(st), s, step);
  }

  lemma CalmlyOn(st: Setup, s: System, step: Step)
    requires Sealed(st, s) && Enabled(st, s, step) && !step.Crash?
    ensures Sealed(st, Next(st, s, step))
  {
    Unseal(st, s);
    CalmStep(st, s, step);
  }

  lemma NoCrashMore(steps: seq<Step>, step: Step)
    requires NoCrash(steps) && !step.Crash?
    ensures NoCrash(steps + [step])
  {
  }

  lemma CalmStep(st: Setup, s: System, step: Step)
    requires Calm(st, s) && Enabled(st, s, step) && !step.Crash?
    ensures Calm(st, Next(st, s, step))
  {
    var steps :| Calmly(st, s, steps);
    CalmlyFurther(st, Init(st), s, steps, step);
    assert Calmly(st, Next(st, s, step), steps + [step]);
  }

  lemma CalmlyFurther(st: Setup, start: System, s: System, steps: seq<Step>, step: Step)
    requires RunsTo(st, start, steps, s) && NoCrash(steps) && Enabled(st, s, step) && !step.Crash?
    ensures RunsTo(st, start, steps + [step], Next(st, s, step)) && NoCrash(steps + [step])
  {
    RunsFurther(st, start, steps, s, step);
    NoCrashMore(steps, step);
  }

  // The state after peer x moved to q, as far as the runs need it.
  ghost predicate Moved(st: Setup, s: System, x: PeerId, q: Peer, z: System) {
    && Sealed(st, z) && z.peers == s.peers[x := q] && z.clock == s.clock + 1
    && s.sent <= z.sent && PendingPackets(x, q) <= z.sent && s.answers <= z.answers
  }

  lemma Acts(st: Setup, s: System, step: Step, q: Peer) returns (z: System)
    requires Sealed(st, s) && Enabled(st, s, step) && !step.DeliverRequest? && !step.Crash?
    requires Act(st, s, step).peer == q
    ensures Moved(st, s, Actor(step), q, z) && z.high == s.high
  {
    CalmlyOn(st, s, step);
    z := Next(st, s, step);
  }

  lemma Gets(st: Setup, s: System, pk: Packet, q: Peer, reply: Response) returns (z: System)
    requires Sealed(st, s) && Deliverable(s, pk) && pk.conn.dst in s.peers && !s.peers[pk.conn.dst].panicked
    requires Deliver(st, s.peers[pk.conn.dst], pk, s.clock) == Outcome(q, Some(reply))
    ensures Moved(st, s, pk.conn.dst, q, z) && z.high == s.high[pk.conn := pk.id]
    ensures Answer(pk.conn, pk.id, reply) in z.answers
  {
    CalmlyOn(st, s, DeliverRequest(pk));
    z := Next(st, s, DeliverRequest(pk));
  }

  lemma Hears(st: Setup, s: System, e: Answer, q: Peer) returns (z: System)
    requires Sealed(st, s) && e in s.answers && e.conn.src in s.peers && !s.peers[e.conn.src].panicked
    requires Awaited(s.peers[e.conn.src], e)
    requires e.resp.VoteResponse? == s.peers[e.conn.src].rpcs[e.conn.dst].pending.value.VoteRequest?
    requires Receive(st, e.conn.src, s.peers[e.conn.src], e, s.clock) == q
    ensures Moved(st, s, e.conn.src, q, z) && z.high == s.high
  {
    z := Acts(st, s, DeliverAnswer(e), q);
  }

  // ---------- What each handler does ----------

  lemma Membership(st: Setup, a: PeerId, b: PeerId, c: PeerId)
    requires Trio(st, a, b, c)
    ensures Others(st.cfg, a) == {b, c} && !IsQuorum(st.cfg, {a}) && IsQuorum(st.cfg, {a, b})
    ensures !IsSoleMaster(st.cfg, a) && !IsSoleMaster(st.cfg, c)
  {
    assert b in Others(st.cfg, a) && a in Others(st.cfg, c);
    assert {a} * {a, b, c} == {a} && {a, b} * {a, b, c} == {a, b};
  }

  lemma AAsks(b: PeerId, c: PeerId, toB: Rpc, toC: Rpc, req: Request)
    requires b != c && toB.pending.None? && toC.pending.None?
    ensures SendAll(map[b := toB, c := toC], req)
            == map[b := Rpc(toB.ident, toB.lastId + 1, Some(req)), c := Rpc(toC.ident, toC.lastId + 1, Some(req))]
  {
  }

  lemma Stands(st: Setup, a: PeerId, p: Peer, n: nat)
    requires p.role == Follower && !IsSoleMaster(st.cfg, a) && p.log == []
    ensures OnElectionTimeout(st, a, p, n)
            == p.(role := Candidate, currentTerm := p.currentTerm + 1, votedFor := Some(a), voted := {a}, granted := {a},
                  rpcs := SendAll(p.rpcs, Ask(p.currentTerm + 1)))
  {
  }

  // a follower with an empty log stands for term t.
  lemma AStands(st: Setup, a: PeerId, b: PeerId, c: PeerId, p: Peer, t: nat, m: Tables, toB: Rpc, toC: Rpc, n: nat)
    requires Trio(st, a, b, c) && toB.pending.None? && toC.pending.None?
    requires p == Candidacy(a, b, c, t, m, toB, toC).(role := Follower, votedFor := p.votedFor, voted := p.voted, granted := p.granted)
    ensures OnElectionTimeout(st, a, p, n)
            == Candidacy(a, b, c, t + 1, m, Rpc(toB.ident, toB.lastId + 1, Some(Ask(t + 1))),
                         Rpc(toC.ident, toC.lastId + 1, Some(Ask(t + 1))))
  {
    Membership(st, a, b, c);
    Stands(st, a, p, n);
    AAsks(b, c, toB, toC, Ask(t + 1));
  }

  lemma Constants(b: PeerId, c: PeerId)
    ensures Table({b, c}, 1) == map[b := 1, c := 1]
    ensures Table({b, c}, 0) == map[b := 0, c := 0]
  {
  }

  lemma AResets(b: PeerId, c: PeerId, t: nat, k: Links, oldC: nat)
    requires b != c
    ensures ResetAll(map[b := k.B(0, None), c := Rpc(oldC, k.lc, Some(Ask(t)))], k.ic)
            == map[b := k.B(0, None), c := k.C(0, None)]
  {
  }

  lemma AGreets(b: PeerId, c: PeerId, t: nat, k: Links)
    requires b != c
    ensures SendAll(map[b := k.B(0, None), c := k.C(0, None)], Hello(t))
            == map[b := k.B(1, Some(Hello(t))), c := k.C(1, Some(Hello(t)))]
  {
  }

  lemma Crowned(st: Setup, a: PeerId, b: PeerId, c: PeerId, p: Peer, n: nat)
    requires Others(st.cfg, a) == {b, c} && p.role == Candidate && p.log == [] && p.commitIndex == 0
    ensures Crown(st, a, p, n)
            == p.(role := Leader, nextIndex := Table({b, c}, 1), matchIndex := Table({b, c}, 0), matchTerm := Table({b, c}, 0),
                  rpcs := SendAll(ResetAll(p.rpcs, n), Hello(p.currentTerm)))
  {
  }

  lemma ACrowned(st: Setup, a: PeerId, b: PeerId, c: PeerId, t: nat, m: Tables, k: Links, oldC: nat)
    requires Trio(st, a, b, c) && Others(st.cfg, a) == {b, c}
    ensures Crown(st, a, Voted(a, b, c, t, m, k.B(0, None), Rpc(oldC, k.lc, Some(Ask(t)))), k.ic)
            == Lead(a, b, c, t, [], 0, 0, k.B(1, Some(Hello(t))), k.C(1, Some(Hello(t))))
  {
    Crowned(st, a, b, c, Voted(a, b, c, t, m, k.B(0, None), Rpc(oldC, k.lc, Some(Ask(t)))), k.ic);
    AResets(b, c, t, k, oldC);
    AGreets(b, c, t, k);
    Constants(b, c);
  }

  lemma VoteAdds(a: PeerId, b: PeerId, c: PeerId, t: nat, m: Tables, toB: Rpc, toC: Rpc)
    requires a != b
    ensures Vote(Candidacy(a, b, c, t, m, toB, toC), b, true) == Voted(a, b, c, t, m, toB, toC)
  {
    assert {a} + {b} == {a, b};
  }

  lemma VoteCounts(st: Setup, a: PeerId, p: Peer, b: PeerId, n: nat, q: Peer)
    requires p.role == Candidate && IsQuorum(st.cfg, Vote(p, b, true).granted)
    requires BecomeLeader(st, a, Vote(p, b, true), n) == q
    ensures OnVoteResponse(st, a, p, b, p.currentTerm, p.currentTerm, true, n) == q
  {
  }

  // b's vote makes a the leader, who greets both; its request to c has to be given up.
  lemma OfficeGiven(st: Setup, a: PeerId, b: PeerId, c: PeerId, t: nat, m: Tables, k: Links, oldC: nat)
    requires Trio(st, a, b, c)
    ensures OnVoteResponse(st, a, Candidacy(a, b, c, t, m, k.B(0, None), Rpc(oldC, k.lc, Some(Ask(t)))), b, t, t, true, k.ic)
            == Lead(a, b, c, t, [], 0, 0, k.B(1, Some(Hello(t))), k.C(1, Some(Hello(t))))
  {
    var toC := Rpc(oldC, k.lc, Some(Ask(t)));
    Membership(st, a, b, c);
    var q := Lead(a, b, c, t, [], 0, 0, k.B(1, Some(Hello(t))), k.C(1, Some(Hello(t))));
    ACrowned(st, a, b, c, t, m, k, oldC);
    Settles(st, a, q);
    VoteAdds(a, b, c, t, m, k.B(0, None), toC);
    VoteCounts(st, a, Candidacy(a, b, c, t, m, k.B(0, None), toC), b, k.ic, q);
  }

  lemma OfficeWon(st: Setup, a: PeerId, b: PeerId, c: PeerId, t: nat, m: Tables, k: Links, oldC: nat)
    requires Trio(st, a, b, c)
    ensures var p := Candidacy(a, b, c, t, m, k.B(0, Some(Ask(t))), Rpc(oldC, k.lc, Some(Ask(t))));
            var e := Answer(Conn(a, b, k.ib), k.lb, VoteResponse(t, true));
            && Awaited(p, e) && p.rpcs[b].pending.value.VoteRequest?
            && Receive(st, a, p, e, k.ic) == Lead(a, b, c, t, [], 0, 0, k.B(1, Some(Hello(t))), k.C(1, Some(Hello(t))))
  {
    OfficeGiven(st, a, b, c, t, m, k, oldC);
    Relabelled(b, c, k.B(0, Some(Ask(t))), Rpc(oldC, k.lc, Some(Ask(t))), k.B(0, None));
  }

  // With an empty log there is nothing to add.
  lemma Settles(st: Setup, a: PeerId, p: Peer)
    requires p.log == [] && !IsSoleMaster(st.cfg, a)
    ensures Settle(st, a, p) == p
  {
  }

  // The leader takes b's, then c's acceptance of the greeting.
  lemma GreetingAcceptedByB(st: Setup, a: PeerId, b: PeerId, c: PeerId, t: nat, k: Links, n: nat)
    requires Trio(st, a, b, c)
    ensures Receive(st, a, Lead(a, b, c, t, [], 0, 0, k.B(1, Some(Hello(t))), k.C(1, Some(Hello(t)))),
                    Answer(Conn(a, b, k.ib), k.lb + 1, Yes(t)), n)
            == Lead(a, b, c, t, [], 0, 0, k.B(1, None), k.C(1, Some(Hello(t))))
  {
    Relabelled(b, c, k.B(1, Some(Hello(t))), k.C(1, Some(Hello(t))), k.B(1, None));
    Relabelled(b, c, 0, 0, 0);
    Relabelled(b, c, 1, 1, 1);
  }

  lemma GreetingAcceptedByC(st: Setup, a: PeerId, b: PeerId, c: PeerId, t: nat, k: Links, n: nat)
    requires Trio(st, a, b, c)
    ensures Receive(st, a, Lead(a, b, c, t, [], 0, 0, k.B(1, None), k.C(1, Some(Hello(t)))),
                    Answer(Conn(a, c, k.ic), k.lc + 1, Yes(t)), n)
            == Lead(a, b, c, t, [], 0, 0, k.B(1, None), k.C(1, None))
  {
  }

  // b's acceptance of the entry makes a majority.
  lemma EntryCommitted(st: Setup, a: PeerId, b: PeerId, c: PeerId, t: nat, k: Links, n: nat)
    requires Trio(st, a, b, c) && t > 0
    ensures Receive(st, a, Lead(a, b, c, t, [News(t)], 0, 0, k.B(2, Some(Bring(t))), k.C(1, None)),
                    Answer(Conn(a, b, k.ib), k.lb + 2, Yes(t)), n)
            == Lead(a, b, c, t, [News(t)], 1, 1, k.B(2, None), k.C(1, None))
  {
    EntryHeld(st, a, b, c);
    EntryLearned(st, a, b, c, t, k, n);
    Relabelled(b, c, k.B(2, Some(Bring(t))), k.C(1, None), k.B(2, None));
  }

  lemma EntryHeld(st: Setup, a: PeerId, b: PeerId, c: PeerId)
    requires Trio(st, a, b, c)
    ensures IsQuorum(st.cfg, HoldersOf(a, 1, map[b := 1, c := 0]))
  {
    Membership(st, a, b, c);
    assert HoldersOf(a, 1, map[b := 1, c := 0]) == {a, b};
  }

  lemma Relabelled<T>(b: PeerId, c: PeerId, x: T, y: T, z: T)
    requires b != c
    ensures map[b := x, c := y][b := z] == map[b := z, c := y]
  {
  }

  lemma EntryLearned(st: Setup, a: PeerId, b: PeerId, c: PeerId, t: nat, k: Links, n: nat)
    requires Trio(st, a, b, c) && t > 0 && IsQuorum(st.cfg, HoldersOf(a, 1, map[b := 1, c := 0]))
    ensures OnAppendResponse(st, a, Lead(a, b, c, t, [News(t)], 0, 0, k.B(2, None), k.C(1, None)),
                             b, Bring(t), t, true, None, n)
            == Lead(a, b, c, t, [News(t)], 1, 1, k.B(2, None), k.C(1, None))
  {
    Relabelled(b, c, 0, 0, 1);
    Relabelled(b, c, 0, 0, t);
    Relabelled(b, c, 1, 1, 2);
  }

  lemma EntrySent(a: PeerId, b: PeerId, c: PeerId, t: nat, k: Links)
    requires a != b && b != c && a != c
    ensures var p := Lead(a, b, c, t, [News(t)], 0, 0, k.B(1, None), k.C(1, None));
            CanSendAppend(p, b, 1)
            && SendAppend(p, b, 1) == Lead(a, b, c, t, [News(t)], 0, 0, k.B(2, Some(Bring(t))), k.C(1, None))
    ensures var p := Lead(a, b, c, t, [News(t)], 1, 1, k.B(2, None), k.C(1, None));
            CanSendAppend(p, c, 1)
            && SendAppend(p, c, 1) == Lead(a, b, c, t, [News(t)], 1, 1, k.B(2, None), k.C(2, Some(BringCommitted(t))))
  {
    assert [News(t)][0..1] == [News(t)];
  }

  // ---------- A leadership ----------

  // The connections of a leadership, and the last ids before its first requests.
  datatype Links = Links(ib: nat, lb: nat, ic: nat, lc: nat) {
    function B(n: nat, pending: Option<Request>): Rpc { Rpc(ib, lb + n, pending) }
    function C(n: nat, pending: Option<Request>): Rpc { Rpc(ic, lc + n, pending) }
  }

  // The requests of the leadership that are on the way at one time or another.
  lemma LeaderSends(a: PeerId, b: PeerId, c: PeerId, t: nat, k: Links)
    requires b != c
    ensures var p := Lead(a, b, c, t, [], 0, 0, k.B(1, Some(Hello(t))), k.C(1, Some(Hello(t))));
            && Packet(Conn(a, b, k.ib), k.lb + 1, Hello(t)) in PendingPackets(a, p)
            && Packet(Conn(a, c, k.ic), k.lc + 1, Hello(t)) in PendingPackets(a, p)
    ensures Packet(Conn(a, b, k.ib), k.lb + 2, Bring(t))
            in PendingPackets(a, Lead(a, b, c, t, [News(t)], 0, 0, k.B(2, Some(Bring(t))), k.C(1, None)))
    ensures Packet(Conn(a, c, k.ic), k.lc + 2, BringCommitted(t))
            in PendingPackets(a, Lead(a, b, c, t, [News(t)], 1, 1, k.B(2, None), k.C(2, Some(BringCommitted(t)))))
  {
    InFlight(a, Lead(a, b, c, t, [], 0, 0, k.B(1, Some(Hello(t))), k.C(1, Some(Hello(t)))), b);
    InFlight(a, Lead(a, b, c, t, [], 0, 0, k.B(1, Some(Hello(t))), k.C(1, Some(Hello(t)))), c);
    InFlight(a, Lead(a, b, c, t, [News(t)], 0, 0, k.B(2, Some(Bring(t))), k.C(1, None)), b);
    InFlight(a, Lead(a, b, c, t, [News(t)], 1, 1, k.B(2, None), k.C(2, Some(BringCommitted(t)))), c);
  }

  // What matters of a state: a itself, the faces of b and c, how far the two
  // connections of the leadership got, and a request of another connection that may
  // still arrive.
  ghost predicate At(st: Setup, a: PeerId, b: PeerId, c: PeerId, s: System, k: Links, late: Option<Packet>,
                     pa: Peer, pb: Peer, pc: Peer, toB: nat, toC: nat)
  {
    && a != b && b != c && a != c
    && Sealed(st, s) && {a, b, c} <= s.peers.Keys && s.peers[a] == pa && Face(s.peers[b]) == pb && Face(s.peers[c]) == pc
    && HighOf(s, Conn(a, b, k.ib)) == toB && HighOf(s, Conn(a, c, k.ic)) == toC
    && (late.Some? ==> Deliverable(s, late.value))
  }

  predicate Apart(a: PeerId, b: PeerId, c: PeerId, k: Links, late: Option<Packet>) {
    late.Some? ==> late.value.conn != Conn(a, b, k.ib) && late.value.conn != Conn(a, c, k.ic)
  }

  // A reply that turns a from pa into q.
  lemma Informed(st: Setup, a: PeerId, b: PeerId, c: PeerId, z: System, k: Links, late: Option<Packet>,
                 pa: Peer, pb: Peer, pc: Peer, toB: nat, toC: nat, e: Answer, q: Peer) returns (s: System)
    requires At(st, a, b, c, z, k, late, pa, pb, pc, toB, toC)
    requires e in z.answers && e.conn.src == a && !pa.panicked && Awaited(pa, e)
    requires e.resp.VoteResponse? == pa.rpcs[e.conn.dst].pending.value.VoteRequest?
    requires Receive(st, a, pa, e, z.clock) == q
    ensures At(st, a, b, c, s, k, late, q, pb, pc, toB, toC) && s.clock == z.clock + 1 && s.high == z.high
    ensures z.sent <= s.sent && PendingPackets(a, q) <= s.sent && z.answers <= s.answers
  {
    s := Hears(st, z, e, q);
  }

  // A step of a alone that turns it into q.
  lemma Proceeds(st: Setup, a: PeerId, b: PeerId, c: PeerId, z: System, k: Links, late: Option<Packet>,
                 pa: Peer, pb: Peer, pc: Peer, toB: nat, toC: nat, step: Step, q: Peer) returns (s: System)
    requires At(st, a, b, c, z, k, late, pa, pb, pc, toB, toC)
    requires Actor(step) == a && Enabled(st, z, step) && !step.DeliverRequest? && !step.Crash? && Act(st, z, step).peer == q
    ensures At(st, a, b, c, s, k, late, q, pb, pc, toB, toC) && s.clock == z.clock + 1 && s.high == z.high
    ensures z.sent <= s.sent && PendingPackets(a, q) <= s.sent
  {
    s := Acts(st, z, step, q);
  }

  // A request of the leader arrives at b or c, whose log is empty.
  lemma Accepted(st: Setup, a: PeerId, p: Peer, pk: Packet, n: nat) returns (q: Peer)
    requires Face(p) == Behind(p.role, p.currentTerm, p.votedFor, [], 0, p.cache)
    requires pk.conn.src == a && pk.req.AppendRequest? && pk.req.prevIndex == 0 && pk.req.prevTerm == 0
    requires p.currentTerm <= pk.req.term && pk.req.commit <= |pk.req.entries| && !Bounced(p, pk)
    ensures Deliver(st, p, pk, n) == Outcome(q, Some(Yes(pk.req.term)))
    ensures Face(q) == Behind(Follower, pk.req.term, if p.currentTerm == pk.req.term then p.votedFor else None,
                              pk.req.entries, pk.req.commit,
                              p.cache[a := CacheEntry(pk.conn.ident, pk.id, Some(Yes(pk.req.term)))])
  {
    q := Deliver(st, p, pk, n).peer;
    assert AppendAt([], 0, pk.req.entries) == pk.req.entries;
  }

  // What Accepted makes of a face.
  function Taught(p: Peer, a: PeerId, ident: nat, id: nat, req: Request): Peer
    requires req.AppendRequest?
  {
    Behind(Follower, req.term, if p.currentTerm == req.term then p.votedFor else None, req.entries, req.commit,
           p.cache[a := CacheEntry(ident, id, Some(Yes(req.term)))])
  }

  predicate Teachable(p: Peer, a: PeerId, ident: nat, id: nat, req: Request) {
    && p == Behind(p.role, p.currentTerm, p.votedFor, [], 0, p.cache)
    && req.AppendRequest? && req.prevIndex == 0 && req.prevTerm == 0
    && p.currentTerm <= req.term && req.commit <= |req.entries|
    && (a in p.cache ==> p.cache[a].ident != ident || p.cache[a].id != id)
  }

  lemma Teaches(st: Setup, a: PeerId, z: System, pk: Packet) returns (q: Peer, s: System)
    requires Sealed(st, z) && Deliverable(z, pk) && pk.conn.src == a && pk.conn.dst in z.peers && !z.peers[pk.conn.dst].panicked
    requires Teachable(Face(z.peers[pk.conn.dst]), a, pk.conn.ident, pk.id, pk.req)
    ensures Moved(st, z, pk.conn.dst, q, s) && s.high == z.high[pk.conn := pk.id]
    ensures Answer(pk.conn, pk.id, Yes(pk.req.term)) in s.answers
    ensures Face(q) == Taught(Face(z.peers[pk.conn.dst]), a, pk.conn.ident, pk.id, pk.req)
  {
    q := Accepted(st, a, z.peers[pk.conn.dst], pk, z.clock);
    s := Gets(st, z, pk, q, Yes(pk.req.term));
  }

  lemma ArrivesAtB(st: Setup, a: PeerId, b: PeerId, c: PeerId, z: System, k: Links, late: Option<Packet>,
                   pa: Peer, pb: Peer, pc: Peer, toB: nat, toC: nat, id: nat, req: Request) returns (s: System)
    requires Apart(a, b, c, k, late)
    requires At(st, a, b, c, z, k, late, pa, pb, pc, toB, toC) && toB <= id && Packet(Conn(a, b, k.ib), id, req) in z.sent
    requires Teachable(pb, a, k.ib, id, req)
    ensures At(st, a, b, c, s, k, late, pa, Taught(pb, a, k.ib, id, req), pc, id, toC)
    ensures z.sent <= s.sent && Answer(Conn(a, b, k.ib), id, Yes(req.term)) in s.answers
  {
    var pk := Packet(Conn(a, b, k.ib), id, req);
    var q;
    q, s := Teaches(st, a, z, pk);
  }

  lemma ArrivesAtC(st: Setup, a: PeerId, b: PeerId, c: PeerId, z: System, k: Links, late: Option<Packet>,
                   pa: Peer, pb: Peer, pc: Peer, toB: nat, toC: nat, id: nat, req: Request) returns (s: System)
    requires Apart(a, b, c, k, late)
    requires At(st, a, b, c, z, k, late, pa, pb, pc, toB, toC) && toC <= id && Packet(Conn(a, c, k.ic), id, req) in z.sent
    requires Teachable(pc, a, k.ic, id, req)
    ensures At(st, a, b, c, s, k, late, pa, pb, Taught(pc, a, k.ic, id, req), toB, id)
    ensures z.sent <= s.sent && Answer(Conn(a, c, k.ic), id, Yes(req.term)) in s.answers
    ensures s.clock == z.clock + 1 && s.high == z.high[Conn(a, c, k.ic) := id]
  {
    var pk := Packet(Conn(a, c, k.ic), id, req);
    var q;
    q, s := Teaches(st, a, z, pk);
  }

  // ---------- An election ----------

  lemma BVotes(st: Setup, a: PeerId, p: Peer, t: nat, pk: Packet, n: nat) returns (q: Peer)
    requires Face(p) == Behind(Follower, p.currentTerm, p.votedFor, [], 0, p.cache) && p.currentTerm < t
    requires pk.conn.src == a && pk.req == Ask(t)
    ensures Deliver(st, p, pk, n) == Outcome(q, Some(VoteResponse(t, true)))
    ensures Face(q) == Behind(Follower, t, Some(a), [], 0, p.cache)
  {
    q := OnVoteRequest(st, p, a, Ask(t), n).0;
  }

  // A connection that is made from now on is new, and so are the ids that a peer will
  // use; a follower waits for no reply.
  lemma Newer(st: Setup, s: System, x: PeerId)
    requires ValidSetup(st) && Sealed(st, s) && x in s.peers
    ensures forall conn :: conn in s.high ==> conn.ident < s.clock
    ensures var p := s.peers[x];
            && p.rpcs.Keys == Others(st.cfg, x)
            && (forall f :: f in p.rpcs ==>
                  && p.rpcs[f].ident < s.clock
                  && (p.role == Follower ==> p.rpcs[f].pending.None?)
                  && HighOf(s, Conn(x, f, p.rpcs[f].ident)) <= p.rpcs[f].lastId)
  {
    CalmIsReached(st, s);
    var h := WitnessOf(st, s);
    forall conn | conn in s.high ensures conn.ident < s.clock { assert HighOk(s, conn); }
    assert SocketsOk(st.cfg, s, h, x, s.peers[x]);
    forall f | f in s.peers[x].rpcs
      ensures HighOf(s, Conn(x, f, s.peers[x].rpcs[f].ident)) <= s.peers[x].rpcs[f].lastId
    {
      if Conn(x, f, s.peers[x].rpcs[f].ident) in s.high { assert HighOk(s, Conn(x, f, s.peers[x].rpcs[f].ident)); }
    }
  }

  lemma Supported(st: Setup, a: PeerId, b: PeerId, c: PeerId, z: System, k: Links, late: Option<Packet>,
                  pa: Peer, pb: Peer, pc: Peer, toB: nat, toC: nat, t: nat) returns (s: System)
    requires late.Some? ==> late.value.conn != Conn(a, b, k.ib)
    requires At(st, a, b, c, z, k, late, pa, pb, pc, toB, toC) && toB <= k.lb
    requires pb == Behind(Follower, pb.currentTerm, pb.votedFor, [], 0, pb.cache) && pb.currentTerm < t
    requires Packet(Conn(a, b, k.ib), k.lb, Ask(t)) in z.sent
    ensures At(st, a, b, c, s, k, late, pa, Behind(Follower, t, Some(a), [], 0, pb.cache), pc, k.lb, toC)
    ensures s.clock == z.clock + 1 && Answer(Conn(a, b, k.ib), k.lb, VoteResponse(t, true)) in s.answers
  {
    var pk := Packet(Conn(a, b, k.ib), k.lb, Ask(t));
    var q := BVotes(st, a, z.peers[b], t, pk, z.clock);
    s := Gets(st, z, pk, q, VoteResponse(t, true));
  }

  lemma Wins(st: Setup, a: PeerId, b: PeerId, c: PeerId, z: System, k: Links, late: Option<Packet>,
             pb: Peer, pc: Peer, oldC: nat, t: nat, m: Tables) returns (s: System)
    requires Trio(st, a, b, c) && k.ic == z.clock
    requires At(st, a, b, c, z, k.(ic := oldC), late,
                Candidacy(a, b, c, t, m, k.B(0, Some(Ask(t))), Rpc(oldC, k.lc, Some(Ask(t)))), pb, pc, k.lb, 0)
    requires Answer(Conn(a, b, k.ib), k.lb, VoteResponse(t, true)) in z.answers
    ensures At(st, a, b, c, s, k, late, Lead(a, b, c, t, [], 0, 0, k.B(1, Some(Hello(t))), k.C(1, Some(Hello(t)))), pb, pc, k.lb, 0)
    ensures Packet(Conn(a, b, k.ib), k.lb + 1, Hello(t)) in s.sent && Packet(Conn(a, c, k.ic), k.lc + 1, Hello(t)) in s.sent
    ensures s.clock == z.clock + 1
  {
    var toC := Rpc(oldC, k.lc, Some(Ask(t)));
    var q := Lead(a, b, c, t, [], 0, 0, k.B(1, Some(Hello(t))), k.C(1, Some(Hello(t))));
    OfficeWon(st, a, b, c, t, m, k, oldC);
    Unused(st, a, b, c, z, k, oldC, late, Candidacy(a, b, c, t, m, k.B(0, Some(Ask(t))), toC), pb, pc, k.lb);
    LeaderSends(a, b, c, t, k);
    s := Informed(st, a, b, c, z, k, late, Candidacy(a, b, c, t, m, k.B(0, Some(Ask(t))), toC), pb, pc, k.lb, 0,
                  Answer(Conn(a, b, k.ib), k.lb, VoteResponse(t, true)), q);
  }

  // Nothing came on the new connection yet.
  lemma Unused(st: Setup, a: PeerId, b: PeerId, c: PeerId, z: System, k: Links, oldC: nat, late: Option<Packet>,
               pa: Peer, pb: Peer, pc: Peer, toB: nat)
    requires Trio(st, a, b, c) && k.ic == z.clock && At(st, a, b, c, z, k.(ic := oldC), late, pa, pb, pc, toB, 0)
    ensures At(st, a, b, c, z, k, late, pa, pb, pc, toB, 0)
  {
    Newer(st, z, a);
    assert Conn(a, c, k.ic) !in z.high;
  }

  // a stands in term t and its request waits for b; it leads two steps later. The
  // connection to c is a new one from then on.
  lemma Elected(st: Setup, a: PeerId, b: PeerId, c: PeerId, z: System, k: Links, late: Option<Packet>,
                pb: Peer, pc: Peer, toB: nat, oldC: nat, t: nat, m: Tables) returns (s: System)
    requires Apart(a, b, c, k, late)
    requires Trio(st, a, b, c) && k.ic == z.clock + 1
    requires At(st, a, b, c, z, k.(ic := oldC), late, Candidacy(a, b, c, t, m, k.B(0, Some(Ask(t))), Rpc(oldC, k.lc, Some(Ask(t)))),
                pb, pc, toB, 0) && toB <= k.lb
    requires pb == Behind(Follower, pb.currentTerm, pb.votedFor, [], 0, pb.cache) && pb.currentTerm < t
    requires Packet(Conn(a, b, k.ib), k.lb, Ask(t)) in z.sent
    ensures At(st, a, b, c, s, k, late, Lead(a, b, c, t, [], 0, 0, k.B(1, Some(Hello(t))), k.C(1, Some(Hello(t)))),
               Behind(Follower, t, Some(a), [], 0, pb.cache), pc, k.lb, 0)
    ensures Packet(Conn(a, b, k.ib), k.lb + 1, Hello(t)) in s.sent && Packet(Conn(a, c, k.ic), k.lc + 1, Hello(t)) in s.sent
    ensures s.clock == z.clock + 2
  {
    var pa := Candidacy(a, b, c, t, m, k.B(0, Some(Ask(t))), Rpc(oldC, k.lc, Some(Ask(t))));
    var y := Supported(st, a, b, c, z, k.(ic := oldC), late, pa, pb, pc, toB, 0, t);
    s := Wins(st, a, b, c, y, k, late, Behind(Follower, t, Some(a), [], 0, pb.cache), pc, oldC, t, m);
  }

  // ---------- The entry ----------

  // The leader, all requests answered.
  function Idle(a: PeerId, b: PeerId, c: PeerId, t: nat, k: Links, log: Log): Peer {
    Lead(a, b, c, t, log, 0, 0, k.B(1, None), k.C(1, None))
  }

  // The followers before they are greeted: their logs are empty, and what they
  // remember of a is no request of this leadership.
  predicate Ready(p: Peer, a: PeerId, t: nat, ident: nat, last: nat) {
    && p == Behind(p.role, p.currentTerm, p.votedFor, [], 0, p.cache) && p.currentTerm <= t
    && (a in p.cache ==> p.cache[a].ident != ident || p.cache[a].id <= last)
  }

  lemma ReadyForHello(p: Peer, a: PeerId, t: nat, ident: nat, last: nat)
    requires Ready(p, a, t, ident, last)
    ensures Teachable(p, a, ident, last + 1, Hello(t))
  {
  }

  // And after it.
  function GreetedPeer(p: Peer, a: PeerId, t: nat, ident: nat, last: nat): Peer {
    Taught(p, a, ident, last + 1, Hello(t))
  }

  lemma HearsB(st: Setup, a: PeerId, b: PeerId, c: PeerId, z: System, k: Links, late: Option<Packet>,
               pb: Peer, pc: Peer, t: nat) returns (s: System)
    requires Trio(st, a, b, c) && Answer(Conn(a, b, k.ib), k.lb + 1, Yes(t)) in z.answers
    requires At(st, a, b, c, z, k, late, Lead(a, b, c, t, [], 0, 0, k.B(1, Some(Hello(t))), k.C(1, Some(Hello(t)))), pb, pc, k.lb + 1, 0)
    ensures At(st, a, b, c, s, k, late, Lead(a, b, c, t, [], 0, 0, k.B(1, None), k.C(1, Some(Hello(t)))), pb, pc, k.lb + 1, 0)
    ensures z.sent <= s.sent
  {
    GreetingAcceptedByB(st, a, b, c, t, k, z.clock);
    s := Informed(st, a, b, c, z, k, late, Lead(a, b, c, t, [], 0, 0, k.B(1, Some(Hello(t))), k.C(1, Some(Hello(t)))),
                  pb, pc, k.lb + 1, 0, Answer(Conn(a, b, k.ib), k.lb + 1, Yes(t)),
                  Lead(a, b, c, t, [], 0, 0, k.B(1, None), k.C(1, Some(Hello(t)))));
  }

  lemma GreetedB(st: Setup, a: PeerId, b: PeerId, c: PeerId, z: System, k: Links, late: Option<Packet>,
                 pb: Peer, pc: Peer, t: nat) returns (s: System)
    requires Apart(a, b, c, k, late)
    requires Trio(st, a, b, c) && Ready(pb, a, t, k.ib, k.lb)
    requires At(st, a, b, c, z, k, late, Lead(a, b, c, t, [], 0, 0, k.B(1, Some(Hello(t))), k.C(1, Some(Hello(t)))), pb, pc, k.lb, 0)
    requires Packet(Conn(a, b, k.ib), k.lb + 1, Hello(t)) in z.sent
    ensures At(st, a, b, c, s, k, late, Lead(a, b, c, t, [], 0, 0, k.B(1, None), k.C(1, Some(Hello(t)))),
               GreetedPeer(pb, a, t, k.ib, k.lb), pc, k.lb + 1, 0)
    ensures z.sent <= s.sent
  {
    var l0 := Lead(a, b, c, t, [], 0, 0, k.B(1, Some(Hello(t))), k.C(1, Some(Hello(t))));
    ReadyForHello(pb, a, t, k.ib, k.lb);
    var y := ArrivesAtB(st, a, b, c, z, k, late, l0, pb, pc, k.lb, 0, k.lb + 1, Hello(t));
    s := HearsB(st, a, b, c, y, k, late, GreetedPeer(pb, a, t, k.ib, k.lb), pc, t);
  }

  lemma HearsC(st: Setup, a: PeerId, b: PeerId, c: PeerId, z: System, k: Links, late: Option<Packet>,
               pb: Peer, pc: Peer, t: nat) returns (s: System)
    requires Trio(st, a, b, c) && Answer(Conn(a, c, k.ic), k.lc + 1, Yes(t)) in z.answers
    requires At(st, a, b, c, z, k, late, Lead(a, b, c, t, [], 0, 0, k.B(1, None), k.C(1, Some(Hello(t)))), pb, pc, k.lb + 1, k.lc + 1)
    ensures At(st, a, b, c, s, k, late, Idle(a, b, c, t, k, []), pb, pc, k.lb + 1, k.lc + 1)
  {
    GreetingAcceptedByC(st, a, b, c, t, k, z.clock);
    s := Informed(st, a, b, c, z, k, late, Lead(a, b, c, t, [], 0, 0, k.B(1, None), k.C(1, Some(Hello(t)))), pb, pc,
                  k.lb + 1, k.lc + 1, Answer(Conn(a, c, k.ic), k.lc + 1, Yes(t)), Idle(a, b, c, t, k, []));
  }

  lemma GreetedC(st: Setup, a: PeerId, b: PeerId, c: PeerId, z: System, k: Links, late: Option<Packet>,
                 pb: Peer, pc: Peer, t: nat) returns (s: System)
    requires Apart(a, b, c, k, late)
    requires Trio(st, a, b, c) && Ready(pc, a, t, k.ic, k.lc)
    requires At(st, a, b, c, z, k, late, Lead(a, b, c, t, [], 0, 0, k.B(1, None), k.C(1, Some(Hello(t)))), pb, pc, k.lb + 1, 0)
    requires Packet(Conn(a, c, k.ic), k.lc + 1, Hello(t)) in z.sent
    ensures At(st, a, b, c, s, k, late, Idle(a, b, c, t, k, []), pb, GreetedPeer(pc, a, t, k.ic, k.lc), k.lb + 1, k.lc + 1)
  {
    var l1 := Lead(a, b, c, t, [], 0, 0, k.B(1, None), k.C(1, Some(Hello(t))));
    ReadyForHello(pc, a, t, k.ic, k.lc);
    var y := ArrivesAtC(st, a, b, c, z, k, late, l1, pb, pc, k.lb + 1, 0, k.lc + 1, Hello(t));
    s := HearsC(st, a, b, c, y, k, late, pb, GreetedPeer(pc, a, t, k.ic, k.lc), t);
  }

  lemma AWrites(st: Setup, a: PeerId, b: PeerId, c: PeerId, t: nat, k: Links)
    requires !IsSoleMaster(st.cfg, a)
    ensures ClientAppend(st, a, Idle(a, b, c, t, k, []), 7) == Idle(a, b, c, t, k, [News(t)])
  {
  }

  lemma Written(st: Setup, a: PeerId, b: PeerId, c: PeerId, z: System, k: Links, late: Option<Packet>,
                pb: Peer, pc: Peer, t: nat) returns (s: System)
    requires Trio(st, a, b, c) && At(st, a, b, c, z, k, late, Idle(a, b, c, t, k, []), pb, pc, k.lb + 1, k.lc + 1)
    ensures At(st, a, b, c, s, k, late, Idle(a, b, c, t, k, [News(t)]), pb, pc, k.lb + 1, k.lc + 1)
  {
    Membership(st, a, b, c);
    AWrites(st, a, b, c, t, k);
    s := Proceeds(st, a, b, c, z, k, late, Idle(a, b, c, t, k, []), pb, pc, k.lb + 1, k.lc + 1,
                  ClientUpdate(a, 7), Idle(a, b, c, t, k, [News(t)]));
  }

  // The entry is on its way to b.
  lemma Updated(st: Setup, a: PeerId, b: PeerId, c: PeerId, z: System, k: Links, late: Option<Packet>,
                pb: Peer, pc: Peer, t: nat) returns (s: System)
    requires Trio(st, a, b, c) && At(st, a, b, c, z, k, late, Idle(a, b, c, t, k, [News(t)]), pb, pc, k.lb + 1, k.lc + 1)
    ensures At(st, a, b, c, s, k, late, Lead(a, b, c, t, [News(t)], 0, 0, k.B(2, Some(Bring(t))), k.C(1, None)),
               pb, pc, k.lb + 1, k.lc + 1)
    ensures Packet(Conn(a, b, k.ib), k.lb + 2, Bring(t)) in s.sent
  {
    var l := Lead(a, b, c, t, [News(t)], 0, 0, k.B(2, Some(Bring(t))), k.C(1, None));
    EntrySent(a, b, c, t, k);
    s := Proceeds(st, a, b, c, z, k, late, Idle(a, b, c, t, k, [News(t)]), pb, pc, k.lb + 1, k.lc + 1, Replicate(a, b, 1), l);
    LeaderSends(a, b, c, t, k);
  }

  lemma HearsStored(st: Setup, a: PeerId, b: PeerId, c: PeerId, z: System, k: Links, late: Option<Packet>,
                    pb: Peer, pc: Peer, t: nat) returns (s: System)
    requires Trio(st, a, b, c) && t > 0 && Answer(Conn(a, b, k.ib), k.lb + 2, Yes(t)) in z.answers
    requires At(st, a, b, c, z, k, late, Lead(a, b, c, t, [News(t)], 0, 0, k.B(2, Some(Bring(t))), k.C(1, None)),
                pb, pc, k.lb + 2, k.lc + 1)
    ensures At(st, a, b, c, s, k, late, Lead(a, b, c, t, [News(t)], 1, 1, k.B(2, None), k.C(1, None)), pb, pc, k.lb + 2, k.lc + 1)
  {
    EntryCommitted(st, a, b, c, t, k, z.clock);
    s := Informed(st, a, b, c, z, k, late, Lead(a, b, c, t, [News(t)], 0, 0, k.B(2, Some(Bring(t))), k.C(1, None)),
                  pb, pc, k.lb + 2, k.lc + 1, Answer(Conn(a, b, k.ib), k.lb + 2, Yes(t)),
                  Lead(a, b, c, t, [News(t)], 1, 1, k.B(2, None), k.C(1, None)));
  }

  // b has stored the entry, which commits it.
  lemma Stored(st: Setup, a: PeerId, b: PeerId, c: PeerId, z: System, k: Links, late: Option<Packet>,
               pb: Peer, pc: Peer, t: nat) returns (s: System)
    requires Apart(a, b, c, k, late)
    requires Trio(st, a, b, c) && t > 0
    requires At(st, a, b, c, z, k, late, Lead(a, b, c, t, [News(t)], 0, 0, k.B(2, Some(Bring(t))), k.C(1, None)),
                GreetedPeer(pb, a, t, k.ib, k.lb), pc, k.lb + 1, k.lc + 1)
    requires Packet(Conn(a, b, k.ib), k.lb + 2, Bring(t)) in z.sent
    ensures At(st, a, b, c, s, k, late, Lead(a, b, c, t, [News(t)], 1, 1, k.B(2, None), k.C(1, None)),
               Taught(GreetedPeer(pb, a, t, k.ib, k.lb), a, k.ib, k.lb + 2, Bring(t)), pc, k.lb + 2, k.lc + 1)
  {
    var l0 := Lead(a, b, c, t, [News(t)], 0, 0, k.B(2, Some(Bring(t))), k.C(1, None));
    var rb := GreetedPeer(pb, a, t, k.ib, k.lb);
    var y := ArrivesAtB(st, a, b, c, z, k, late, l0, rb, pc, k.lb + 1, k.lc + 1, k.lb + 2, Bring(t));
    s := HearsStored(st, a, b, c, y, k, late, Taught(rb, a, k.ib, k.lb + 2, Bring(t)), pc, t);
  }

  lemma SentToC(st: Setup, a: PeerId, b: PeerId, c: PeerId, z: System, k: Links, late: Option<Packet>,
                pb: Peer, pc: Peer, t: nat) returns (s: System)
    requires At(st, a, b, c, z, k, late, Lead(a, b, c, t, [News(t)], 1, 1, k.B(2, None), k.C(1, None)), pb, pc, k.lb + 2, k.lc + 1)
    ensures At(st, a, b, c, s, k, late, Lead(a, b, c, t, [News(t)], 1, 1, k.B(2, None), k.C(2, Some(BringCommitted(t)))),
               pb, pc, k.lb + 2, k.lc + 1)
    ensures Packet(Conn(a, c, k.ic), k.lc + 2, BringCommitted(t)) in s.sent
  {
    var l := Lead(a, b, c, t, [News(t)], 1, 1, k.B(2, None), k.C(2, Some(BringCommitted(t))));
    EntrySent(a, b, c, t, k);
    s := Proceeds(st, a, b, c, z, k, late, Lead(a, b, c, t, [News(t)], 1, 1, k.B(2, None), k.C(1, None)), pb, pc,
                  k.lb + 2, k.lc + 1, Replicate(a, c, 1), l);
    LeaderSends(a, b, c, t, k);
  }

  // The entry comes to c together with the news that it is committed.
  lemma Passed(st: Setup, a: PeerId, b: PeerId, c: PeerId, z: System, k: Links, late: Option<Packet>,
               pb: Peer, pc: Peer, t: nat) returns (s: System)
    requires Apart(a, b, c, k, late)
    requires At(st, a, b, c, z, k, late, Lead(a, b, c, t, [News(t)], 1, 1, k.B(2, None), k.C(2, Some(BringCommitted(t)))),
                pb, GreetedPeer(pc, a, t, k.ic, k.lc), k.lb + 2, k.lc + 1)
    requires Packet(Conn(a, c, k.ic), k.lc + 2, BringCommitted(t)) in z.sent
    ensures Sealed(st, s) && c in s.peers && Deliverable(s, Packet(Conn(a, c, k.ic), k.lc + 2, BringCommitted(t)))
    ensures Face(s.peers[c]) == Taught(GreetedPeer(pc, a, t, k.ic, k.lc), a, k.ic, k.lc + 2, BringCommitted(t))
    ensures late.Some? ==> Deliverable(s, late.value)
  {
    s := ArrivesAtC(st, a, b, c, z, k, late, Lead(a, b, c, t, [News(t)], 1, 1, k.B(2, None), k.C(2, Some(BringCommitted(t)))),
                    pb, GreetedPeer(pc, a, t, k.ic, k.lc), k.lb + 2, k.lc + 1, k.lc + 2, BringCommitted(t));
  }

  // From the election to the request that brings the entry to c.
  lemma Brought(st: Setup, a: PeerId, b: PeerId, c: PeerId, z: System, k: Links, late: Option<Packet>,
                pb: Peer, pc: Peer, t: nat) returns (s: System)
    requires Apart(a, b, c, k, late)
    requires Trio(st, a, b, c) && t > 0 && Ready(pb, a, t, k.ib, k.lb) && Ready(pc, a, t, k.ic, k.lc)
    requires At(st, a, b, c, z, k, late, Lead(a, b, c, t, [], 0, 0, k.B(1, Some(Hello(t))), k.C(1, Some(Hello(t)))), pb, pc, k.lb, 0)
    requires Packet(Conn(a, b, k.ib), k.lb + 1, Hello(t)) in z.sent && Packet(Conn(a, c, k.ic), k.lc + 1, Hello(t)) in z.sent
    ensures Sealed(st, s) && c in s.peers && Deliverable(s, Packet(Conn(a, c, k.ic), k.lc + 2, BringCommitted(t)))
    ensures Face(s.peers[c]) == Taught(GreetedPeer(pc, a, t, k.ic, k.lc), a, k.ic, k.lc + 2, BringCommitted(t))
    ensures late.Some? ==> Deliverable(s, late.value)
  {
    var rb, rc := GreetedPeer(pb, a, t, k.ib, k.lb), GreetedPeer(pc, a, t, k.ic, k.lc);
    var z1 := GreetedB(st, a, b, c, z, k, late, pb, pc, t);
    var z2 := GreetedC(st, a, b, c, z1, k, late, rb, pc, t);
    var w := Written(st, a, b, c, z2, k, late, rb, rc, t);
    var z3 := Updated(st, a, b, c, w, k, late, rb, rc, t);
    var z4 := Stored(st, a, b, c, z3, k, late, pb, rc, t);
    var qb := Taught(rb, a, k.ib, k.lb + 2, Bring(t));
    var z5 := SentToC(st, a, b, c, z4, k, late, qb, rc, t);
    s := Passed(st, a, b, c, z5, k, late, qb, pc, t);
  }

  // ---------- After a crash ----------

  const NoTables := Tables(map[], map[], map[])
  const Fresh := Behind(Follower, 0, None, [], 0, map[])
  // The connections of the first leadership.
  const First := Links(0, 1, 3, 1)

  lemma Asked(st: Setup, a: PeerId, b: PeerId, c: PeerId) returns (s: System)
    requires Trio(st, a, b, c)
    ensures At(st, a, b, c, s, First.(ic := 0), None, Candidacy(a, b, c, 1, NoTables, Rpc(0, 1, Some(Ask(1))), Rpc(0, 1, Some(Ask(1)))),
               Fresh, Fresh, 0, 0)
    ensures s.clock == 2 && Packet(Conn(a, b, 0), 1, Ask(1)) in s.sent
  {
    var z := Init(st);
    assert Calmly(st, z, []);
    assert Sealed(st, z);
    var q := Candidacy(a, b, c, 1, NoTables, Rpc(0, 1, Some(Ask(1))), Rpc(0, 1, Some(Ask(1))));
    Newcomer(st, a, b, c);
    AStands(st, a, b, c, NewPeer(st, a), 0, NoTables, Rpc(0, 0, None), Rpc(0, 0, None), 1);
    s := Acts(st, z, Timeout(a), q);
    InFlight(a, q, b);
  }

  lemma Newcomer(st: Setup, a: PeerId, b: PeerId, c: PeerId)
    requires Trio(st, a, b, c)
    ensures NewPeer(st, a).rpcs == map[b := Rpc(0, 0, None), c := Rpc(0, 0, None)]
  {
    Membership(st, a, b, c);
  }

  lemma FirstElected(st: Setup, a: PeerId, b: PeerId, c: PeerId) returns (s: System)
    requires Trio(st, a, b, c)
    ensures At(st, a, b, c, s, First, None, Lead(a, b, c, 1, [], 0, 0, Rpc(0, 2, Some(Hello(1))), Rpc(3, 2, Some(Hello(1)))),
               Behind(Follower, 1, Some(a), [], 0, map[]), Fresh, 1, 0)
    ensures Packet(Conn(a, b, 0), 2, Hello(1)) in s.sent && Packet(Conn(a, c, 3), 2, Hello(1)) in s.sent
    ensures s.clock == 4
  {
    var z := Asked(st, a, b, c);
    s := Elected(st, a, b, c, z, First, None, Fresh, Fresh, 0, 0, 1, NoTables);
  }

  // c applies the entry, crashes, and gets the request again.
  lemma PanicIsReachable(st: Setup, a: PeerId, b: PeerId, c: PeerId) returns (s: System)
    requires Trio(st, a, b, c)
    ensures Reached(st, s) && c in s.peers && s.peers[c].panicked
  {
    var z0 := FirstElected(st, a, b, c);
    var z1 := Brought(st, a, b, c, z0, First, None, Behind(Follower, 1, Some(a), [], 0, map[]), Fresh, 1);
    var pk := Packet(Conn(a, c, 3), 3, BringCommitted(1));
    Membership(st, a, b, c);
    var z2 := Applies(st, c, z1, pk);
    var z3 := Relapses(st, c, z2, pk);
    s := Repeats(st, z3, pk, 1);
  }

  lemma Applies(st: Setup, c: PeerId, z: System, pk: Packet) returns (s: System)
    requires Sealed(st, z) && c in z.peers && Deliverable(z, pk) && !z.peers[c].panicked
    requires z.peers[c].lastApplied == 0 && z.peers[c].commitIndex == 1
    ensures Sealed(st, s) && c in s.peers && s.peers[c] == z.peers[c].(lastApplied := 1) && Deliverable(s, pk)
  {
    s := Acts(st, z, ApplyLog(c, 1), z.peers[c].(lastApplied := 1));
  }

  lemma Relapses(st: Setup, c: PeerId, z: System, pk: Packet) returns (s: System)
    requires Sealed(st, z) && c in z.peers && Deliverable(z, pk) && !IsSoleMaster(st.cfg, c)
    requires z.peers[c].currentTerm == 1 && z.peers[c].lastApplied == 1
    ensures Reached(st, s) && c in s.peers && Deliverable(s, pk)
    ensures s.peers[c].currentTerm == 1 && s.peers[c].commitIndex == 1 && s.peers[c].cache == map[] && !s.peers[c].panicked
  {
    CalmIsReached(st, z);
    Onward(st, z, Crash(c, 1));
    s := Next(st, z, Crash(c, 1));
  }

  lemma Repeats(st: Setup, z: System, pk: Packet, t: nat) returns (s: System)
    requires Reached(st, z) && Deliverable(z, pk) && pk.conn.dst in z.peers && pk.req == BringCommitted(t)
    requires var p := z.peers[pk.conn.dst]; p.currentTerm == t && p.commitIndex == 1 && !p.panicked && !Bounced(p, pk)
    ensures Reached(st, s) && pk.conn.dst in s.peers && s.peers[pk.conn.dst].panicked
    ensures Sealed(st, z) ==> Sealed(st, s)
  {
    Onward(st, z, DeliverRequest(pk));
    if Sealed(st, z) { CalmlyOn(st, z, DeliverRequest(pk)); }
    s := Next(st, z, DeliverRequest(pk));
  }

  // ---------- After a late request ----------

  // c, which took the greeting of term 1, stands for term 2.
  const Rival := VoteRequest(2, 0, 0)

  function Greeting(a: PeerId, c: PeerId): Packet { Packet(Conn(a, c, 3), 2, Hello(1)) }

  function LeadsFirst(a: PeerId, b: PeerId, c: PeerId): Peer {
    Lead(a, b, c, 1, [], 0, 0, Rpc(0, 2, Some(Hello(1))), Rpc(3, 2, Some(Hello(1))))
  }

  function GreetedCache(a: PeerId): map<PeerId, CacheEntry> { map[a := CacheEntry(3, 2, Some(Yes(1)))] }

  lemma CStands(st: Setup, a: PeerId, b: PeerId, c: PeerId, p: Peer, n: nat) returns (q: Peer)
    requires Trio(st, a, b, c) && Face(p) == Behind(Follower, 1, None, [], 0, p.cache)
    requires a in p.rpcs && p.rpcs[a].pending.None?
    ensures OnElectionTimeout(st, c, p, n) == q && Face(q) == Behind(Candidate, 2, Some(c), [], 0, p.cache)
    ensures a in q.rpcs && q.rpcs[a] == Rpc(p.rpcs[a].ident, p.rpcs[a].lastId + 1, Some(Rival))
  {
    Membership(st, a, b, c);
    q := OnElectionTimeout(st, c, p, n);
  }

  // a gives way, and with it both connections, as requests were pending on them.
  function GaveWay(a: PeerId, b: PeerId, c: PeerId, n: nat): Peer {
    LeadsFirst(a, b, c).(role := Follower, currentTerm := 2, votedFor := Some(c),
                         rpcs := map[b := Rpc(n, 2, None), c := Rpc(n, 2, None)])
  }

  lemma AGivesWay(st: Setup, a: PeerId, b: PeerId, c: PeerId, pk: Packet, n: nat)
    requires a != b && b != c && a != c && pk.conn.src == c && pk.req == Rival
    ensures Deliver(st, LeadsFirst(a, b, c), pk, n) == Outcome(GaveWay(a, b, c, n), Some(VoteResponse(2, true)))
  {
    assert ResetAll(LeadsFirst(a, b, c).rpcs, n) == GaveWay(a, b, c, n).rpcs;
  }

  lemma CGreeted(st: Setup, a: PeerId, b: PeerId, c: PeerId) returns (s: System)
    requires Trio(st, a, b, c)
    ensures At(st, a, b, c, s, First, None, LeadsFirst(a, b, c), Behind(Follower, 1, Some(a), [], 0, map[]),
               Behind(Follower, 1, None, [], 0, GreetedCache(a)), 1, 2)
    ensures s.clock == 5 && Greeting(a, c) in s.sent
  {
    var z := FirstElected(st, a, b, c);
    s := ArrivesAtC(st, a, b, c, z, First, None, LeadsFirst(a, b, c), Behind(Follower, 1, Some(a), [], 0, map[]), Fresh,
                    1, 0, 2, Hello(1));
    assert map[][a := CacheEntry(3, 2, Some(Yes(1)))] == GreetedCache(a);
  }

  lemma SocketOfC(st: Setup, a: PeerId, b: PeerId, c: PeerId, z: System)
    requires Trio(st, a, b, c) && Sealed(st, z) && c in z.peers && z.peers[c].role == Follower
    ensures var p := z.peers[c];
            a in p.rpcs && p.rpcs[a].pending.None? && HighOf(z, Conn(c, a, p.rpcs[a].ident)) <= p.rpcs[a].lastId
  {
    Newer(st, z, c);
    assert a in Others(st.cfg, c);
  }

  lemma CChallenges(st: Setup, a: PeerId, b: PeerId, c: PeerId, z: System) returns (s: System, rival: Packet)
    requires Trio(st, a, b, c) && Sealed(st, z) && c in z.peers
    requires Face(z.peers[c]) == Behind(Follower, 1, None, [], 0, GreetedCache(a))
    ensures Sealed(st, s) && s.high == z.high && s.clock == z.clock + 1 && z.sent <= s.sent
    ensures c in s.peers && s.peers == z.peers[c := s.peers[c]]
    ensures Face(s.peers[c]) == Behind(Candidate, 2, Some(c), [], 0, GreetedCache(a))
    ensures rival.conn.src == c && rival.conn.dst == a && rival.req == Rival && Deliverable(s, rival)
  {
    SocketOfC(st, a, b, c, z);
    var q := CStands(st, a, b, c, z.peers[c], z.clock);
    s := Acts(st, z, Timeout(c), q);
    InFlight(c, q, a);
    rival := Packet(Conn(c, a, q.rpcs[a].ident), q.rpcs[a].lastId, Rival);
  }

  // c is greeted, and stands.
  lemma Challenged(st: Setup, a: PeerId, b: PeerId, c: PeerId) returns (s: System, rival: Packet)
    requires Trio(st, a, b, c)
    ensures At(st, a, b, c, s, First, None, LeadsFirst(a, b, c), Behind(Follower, 1, Some(a), [], 0, map[]),
               Behind(Candidate, 2, Some(c), [], 0, GreetedCache(a)), 1, 2)
    ensures s.clock == 6 && Greeting(a, c) in s.sent
    ensures rival.conn.src == c && rival.conn.dst == a && rival.req == Rival && Deliverable(s, rival)
  {
    var z := CGreeted(st, a, b, c);
    s, rival := CChallenges(st, a, b, c, z);
  }

  // The connections of the second leadership.
  const Second := Links(6, 3, 9, 3)

  function FirstTables(b: PeerId, c: PeerId): Tables {
    Tables(map[b := 1, c := 1], map[b := 0, c := 0], map[b := 0, c := 0])
  }

  // a gives way to c.
  lemma Yielded(st: Setup, a: PeerId, b: PeerId, c: PeerId) returns (s: System)
    requires Trio(st, a, b, c)
    ensures At(st, a, b, c, s, Second.(ic := 6), Some(Greeting(a, c)), GaveWay(a, b, c, 6),
               Behind(Follower, 1, Some(a), [], 0, map[]), Behind(Candidate, 2, Some(c), [], 0, GreetedCache(a)), 0, 0)
    ensures s.clock == 7
  {
    var z, rival := Challenged(st, a, b, c);
    Newer(st, z, a);
    AGivesWay(st, a, b, c, rival, 6);
    s := Gets(st, z, rival, GaveWay(a, b, c, 6), VoteResponse(2, true));
    assert Conn(a, b, 6) !in z.high && Conn(a, c, 6) !in z.high;
    assert Greeting(a, c).conn != rival.conn;
  }

  // And stands again itself.
  lemma AskedAgain(st: Setup, a: PeerId, b: PeerId, c: PeerId) returns (s: System)
    requires Trio(st, a, b, c)
    ensures At(st, a, b, c, s, Second.(ic := 6), Some(Greeting(a, c)),
               Candidacy(a, b, c, 3, FirstTables(b, c), Rpc(6, 3, Some(Ask(3))), Rpc(6, 3, Some(Ask(3)))),
               Behind(Follower, 1, Some(a), [], 0, map[]), Behind(Candidate, 2, Some(c), [], 0, GreetedCache(a)), 0, 0)
    ensures s.clock == 8 && Packet(Conn(a, b, 6), 3, Ask(3)) in s.sent
  {
    var z := Yielded(st, a, b, c);
    var q := Candidacy(a, b, c, 3, FirstTables(b, c), Rpc(6, 3, Some(Ask(3))), Rpc(6, 3, Some(Ask(3))));
    AStands(st, a, b, c, GaveWay(a, b, c, 6), 2, FirstTables(b, c), Rpc(6, 2, None), Rpc(6, 2, None), 7);
    s := Proceeds(st, a, b, c, z, Second.(ic := 6), Some(Greeting(a, c)), GaveWay(a, b, c, 6),
                  Behind(Follower, 1, Some(a), [], 0, map[]), Behind(Candidate, 2, Some(c), [], 0, GreetedCache(a)), 0, 0,
                  Timeout(a), q);
    InFlight(a, q, b);
  }

  // The greeting of term 1 comes late and takes the place of the newest request.
  lemma Displaces(st: Setup, z: System, late: Packet, pk: Packet) returns (s: System)
    requires Sealed(st, z) && Deliverable(z, late) && Deliverable(z, pk) && late.conn.dst == pk.conn.dst && pk.conn.dst in z.peers
    requires late.conn.src == pk.conn.src && late.conn != pk.conn && late.req.AppendRequest?
    requires var p := z.peers[pk.conn.dst]; !p.panicked && late.req.term < p.currentTerm && !Bounced(p, late)
    ensures Sealed(st, s) && Deliverable(s, pk) && pk.conn.dst in s.peers && !Bounced(s.peers[pk.conn.dst], pk)
    ensures var p, q := z.peers[pk.conn.dst], s.peers[pk.conn.dst];
            q.currentTerm == p.currentTerm && q.commitIndex == p.commitIndex && q.panicked == p.panicked
  {
    CalmlyOn(st, z, DeliverRequest(late));
    s := Next(st, z, DeliverRequest(late));
  }

  // Without any crash, c panics when the greeting of the first leadership comes between
  // the request that brings the entry and its repetition.
  lemma LatePacketPanics(st: Setup, a: PeerId, b: PeerId, c: PeerId) returns (s: System)
    requires Trio(st, a, b, c)
    ensures Calm(st, s) && c in s.peers && s.peers[c].panicked
  {
    var pb, pc := Behind(Follower, 1, Some(a), [], 0, map[]), Behind(Candidate, 2, Some(c), [], 0, GreetedCache(a));
    var late, pk := Greeting(a, c), Packet(Conn(a, c, 9), 5, BringCommitted(3));
    var z0 := AskedAgain(st, a, b, c);
    var z1 := Elected(st, a, b, c, z0, Second, Some(late), pb, pc, 0, 6, 3, FirstTables(b, c));
    var z2 := Brought(st, a, b, c, z1, Second, Some(late), Behind(Follower, 3, Some(a), [], 0, map[]), pc, 3);
    assert Face(z2.peers[c]).cache == z2.peers[c].cache && Face(z2.peers[c]).currentTerm == 3;
    var z3 := Displaces(st, z2, late, pk);
    CalmIsReached(st, z3);
    s := Repeats(st, z3, pk, 3);
    Unseal(st, s);
  }
}
