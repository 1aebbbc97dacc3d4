// A run in which a leader leaves open what a quorum holds: of four peers, one follower has
// the first of two entries and another one acknowledges both at once. Three peers hold the
// first entry then, but the leader looks at the second one only, which two hold.
module RaftLateCommit {
  import opened Wrappers
  import opened Quorum
  import opened RaftPeer
  import opened RaftSystem
  import opened RaftInvariant
  import opened RaftSteps
  import opened RaftSafety
  import opened RaftElections
  import opened RaftCommit
  import opened RaftProgress

  predicate Quartet(st: Setup, a: PeerId, b: PeerId, c: PeerId, d: PeerId) {
    && a != b && a != c && a != d && b != c && b != d && c != d
    && st.cfg == Config({a, b, c, d}, {})
  }

  lemma QuorumOfFour(st: Setup, a: PeerId, b: PeerId, c: PeerId, d: PeerId)
    requires Quartet(st, a, b, c, d)
    ensures !IsSoleMaster(st.cfg, a)
    ensures IsQuorum(st.cfg, {a, b, c}) && !IsQuorum(st.cfg, {a, b}) && !IsQuorum(st.cfg, {a, c})
    ensures {a} + Ids([b, c]) == {a, b, c}
  {
    assert {a, b, c} * {a, b, c, d} == {a, b, c} && {a, b} * {a, b, c, d} == {a, b} && {a, c} * {a, b, c, d} == {a, c};
    assert b in Others(st.cfg, a);
  }

  // The leader has this log, nothing is committed, and its followers are known to have so
  // much of it.
  predicate Stage(z: System, a: PeerId, term: nat, n: nat, hasB: nat, b: PeerId, hasC: nat, c: PeerId) {
    && Leading(z, a, term) && |z.peers[a].log| == n && z.peers[a].commitIndex == 0 && term > 0
    && (forall k :: 0 <= k < n ==> z.peers[a].log[k].term == term)
    && (forall g :: g in z.peers[a].matchIndex ==>
          z.peers[a].matchIndex[g] == if g == b then hasB else if g == c then hasC else 0)
  }

  lemma StartsReached(st: Setup)
    ensures IsReached(st, Init(st))
  {
    assert IsRun(st, Init(st), []) && After(st, Init(st), []) == Init(st);
  }

  lemma StartsVoting(st: Setup, a: PeerId, b: PeerId, c: PeerId, d: PeerId)
    requires Quartet(st, a, b, c, d)
    ensures var s := Init(st);
            && a in s.peers && s.peers[a].role != Leader && Able(st, s.peers[a]) && s.peers[a].log == [] && s.peers[a].currentTerm == 0
            && Votes(st, s, b, s.peers[a]) && Votes(st, s, c, s.peers[a])
  {
  }

  // a is elected by b and c, from the very beginning.
  lemma Begins(st: Setup, a: PeerId, b: PeerId, c: PeerId, d: PeerId) returns (z: System)
    requires Quartet(st, a, b, c, d)
    ensures Comes(st, Init(st), z) && Stage(z, a, 1, 0, 0, b, 0, c)
    ensures InTouch(z, a, b, 1) && InTouch(z, a, c, 1)
  {
    QuorumOfFour(st, a, b, c, d);
    StartsReached(st);
    StartsVoting(st, a, b, c, d);
    z := ElectedFrom(st, Init(st), a, b, c);
    OnTheWay(st, Init(st), z, a);
    HasCome(st, Init(st), z);
    ArrivedAt(st, Init(st), z, a, b, c);
  }

  lemma ElectedFrom(st: Setup, s: System, a: PeerId, b: PeerId, c: PeerId) returns (z: System)
    requires ValidSetup(st) && IsReached(st, s) && a in s.peers && s.peers[a].role != Leader && Able(st, s.peers[a])
    requires a != b && a != c && b != c && IsQuorum(st.cfg, {a} + Ids([b, c])) && s.peers[a].currentTerm == 0
    requires Votes(st, s, b, s.peers[a]) && Votes(st, s, c, s.peers[a])
    ensures Path(st, s, z, a) && Office(s, z, a, 1, Ids([b, c]))
  {
    z := ComesToLead(st, s, a, [b, c]);
  }

  lemma OnTheWay(st: Setup, s: System, z: System, a: PeerId)
    requires Path(st, s, z, a)
    ensures Comes(st, s, z)
  {
    var steps := Steps(st, s, z, a);
    assert RunsTo(st, s, steps, z);
  }

  lemma ArrivedAt(st: Setup, s: System, z: System, a: PeerId, b: PeerId, c: PeerId)
    requires ValidSetup(st) && Reached(st, z) && a in s.peers && s.peers[a].log == [] && s.peers[a].currentTerm == 0
    requires a != b && a != c && Office(s, z, a, 1, Ids([b, c]))
    ensures Stage(z, a, 1, 0, 0, b, 0, c)
    ensures InTouch(z, a, b, 1) && InTouch(z, a, c, 1)
  {
    Led(st, s, z, a, [b, c]);
    assert b in [b, c] && c in [b, c];
    NothingCommitted(st, z, a);
  }

  lemma NothingCommitted(st: Setup, z: System, a: PeerId)
    requires ValidSetup(st) && Reached(st, z) && a in z.peers && z.peers[a].log == []
    ensures z.peers[a].commitIndex == 0
  {
    var h := WitnessOf(st, z);
    Facts(st, z, h, a);
  }

  // A greeting is answered: nothing is known to be held by then.
  lemma Greeted(st: Setup, s: System, z: System, a: PeerId, f: PeerId, b: PeerId, c: PeerId) returns (u: System)
    requires ValidSetup(st) && Comes(st, s, z) && Stage(z, a, 1, 0, 0, b, 0, c) && InTouch(z, a, f, 1)
    ensures Comes(st, s, u) && Stage(u, a, 1, 0, 0, b, 0, c) && Aside(z, u, a, f) && Joined(u, a, f, 1)
  {
    if Free(z, a, f) {
      u := CatchUp(st, s, z, a, f, 1);
    } else {
      var ok, conflict;
      u, ok, conflict := Exchange(st, s, z, a, f, 1);
    }
  }

  // The follower gets all that the leader has, without making a quorum.
  lemma Brings(st: Setup, s: System, z: System, a: PeerId, f: PeerId, n: nat, b: PeerId, hasB: nat, c: PeerId) returns (u: System)
    requires ValidSetup(st) && Comes(st, s, z) && Stage(z, a, 1, n, hasB, b, 0, c) && b != c && a != f && f in {b, c}
    requires Free(z, a, f) && Up(z, f, 1) && !IsQuorum(st.cfg, {a, f}) && hasB < n
    requires f in z.peers[a].matchIndex
    ensures Comes(st, s, u) && Aside(z, u, a, f) && Joined(u, a, f, 1)
    ensures Stage(u, a, 1, n, if f == b then n else hasB, b, if f == c then n else 0, c)
  {
    u := CatchUp(st, s, z, a, f, 1);
    TwoHold(z.peers[a], u.peers[a], a, f, n, b, hasB, c);
  }

  lemma TwoHold(p: Peer, q: Peer, a: PeerId, f: PeerId, n: nat, b: PeerId, hasB: nat, c: PeerId)
    requires q.matchIndex == p.matchIndex[f := n] && hasB < n && f in {b, c}
    requires forall g :: g in p.matchIndex ==> p.matchIndex[g] == if g == b then hasB else 0
    ensures HoldersOf(a, n, q.matchIndex) == {a, f}
  {
  }

  // One more entry of the leader's own term.
  lemma Adds(st: Setup, s: System, z: System, a: PeerId, n: nat, hasB: nat, b: PeerId, hasC: nat, c: PeerId) returns (u: System)
    requires Comes(st, s, z) && Stage(z, a, 1, n, hasB, b, hasC, c) && !IsSoleMaster(st.cfg, a)
    ensures Comes(st, s, u) && Stage(u, a, 1, n + 1, hasB, b, hasC, c)
    ensures forall f :: InTouch(z, a, f, 1) ==> InTouch(u, a, f, 1)
    ensures forall f :: Free(z, a, f) ==> Free(u, a, f)
    ensures u.peers[a].matchIndex == z.peers[a].matchIndex
  {
    u := Updates(st, s, z, a, 7);
  }

  // The leader's tables have all other peers.
  lemma Known(st: Setup, s: System, z: System, a: PeerId, f: PeerId)
    requires ValidSetup(st) && Comes(st, s, z) && Leading(z, a, 1) && f in Others(st.cfg, a)
    ensures f in z.peers[a].matchIndex
  {
    HasCome(st, s, z);
    var h := WitnessOf(st, z);
    Facts(st, z, h, a);
  }

  // In any cluster of four: a state is reached in which a quorum is known to hold an entry
  // of the leader's term that is not committed.
  lemma HeldButOpen(st: Setup, a: PeerId, b: PeerId, c: PeerId, d: PeerId) returns (z: System)
    requires Quartet(st, a, b, c, d)
    ensures Reached(st, z) && Leading(z, a, 1) && HeldOwn(st.cfg, a, z.peers[a], 1) && z.peers[a].commitIndex == 0
    ensures !CommitsAllHeld(st.cfg, a, z.peers[a])
  {
    QuorumOfFour(st, a, b, c, d);
    z := Gap(st, a, b, c, d);
    Known(st, Init(st), z, a, b);
    Known(st, Init(st), z, a, c);
    HasCome(st, Init(st), z);
    ThreeHold(st.cfg, z, a, b, c);
  }

  lemma ThreeHold(cfg: Config, z: System, a: PeerId, b: PeerId, c: PeerId)
    requires Stage(z, a, 1, 2, 1, b, 2, c) && b in z.peers[a].matchIndex && c in z.peers[a].matchIndex && b != c
    requires IsQuorum(cfg, {a, b, c})
    ensures HeldOwn(cfg, a, z.peers[a], 1) && !CommitsAllHeld(cfg, a, z.peers[a])
  {
    assert HoldersOf(a, 1, z.peers[a].matchIndex) == {a, b, c};
    assert HeldOwn(cfg, a, z.peers[a], 1);
  }

  lemma Gap(st: Setup, a: PeerId, b: PeerId, c: PeerId, d: PeerId) returns (z: System)
    requires Quartet(st, a, b, c, d)
    ensures Comes(st, Init(st), z) && Stage(z, a, 1, 2, 1, b, 2, c)
  {
    var s := Init(st);
    QuorumOfFour(st, a, b, c, d);
    var y := Begins(st, a, b, c, d);
    var v := Greeted(st, s, y, a, b, b, c);
    InTouchStill(y, v, a, b, c, 1);
    var w := Greeted(st, s, v, a, c, b, c);
    InTouchStill(v, w, a, c, b, 1);
    assert Free(w, a, b);
    z := GapFrom(st, s, w, a, b, c);
  }

  lemma GapFrom(st: Setup, s: System, w: System, a: PeerId, b: PeerId, c: PeerId) returns (z: System)
    requires ValidSetup(st) && Comes(st, s, w) && Stage(w, a, 1, 0, 0, b, 0, c) && a != b && a != c && b != c
    requires InTouch(w, a, b, 1) && InTouch(w, a, c, 1) && Free(w, a, b) && Free(w, a, c)
    requires b in Others(st.cfg, a) && c in Others(st.cfg, a)
    requires !IsQuorum(st.cfg, {a, b}) && !IsQuorum(st.cfg, {a, c}) && !IsSoleMaster(st.cfg, a)
    ensures Comes(st, s, z) && Stage(z, a, 1, 2, 1, b, 2, c)
  {
    var p := Adds(st, s, w, a, 0, 0, b, 0, c);
    Known(st, s, p, a, b);
    var q := Brings(st, s, p, a, b, 1, b, 0, c);
    InTouchStill(p, q, a, b, c, 1);
    var r := Adds(st, s, q, a, 1, 1, b, 0, c);
    Known(st, s, r, a, c);
    z := Brings(st, s, r, a, c, 2, b, 1, c);
  }
}
