// The lock over asynchronous callbacks: shared callbacks may overlap, an exclusive one
// runs alone, and all of them start in the order in which they were registered.
module Lock {
  import opened Wrappers

  // A promise that is kept at once, the promise of the callback with a number, or one
  // that waits for two others. Whether a callback fails makes no difference to what
  // waits for it.
  datatype Promise = Kept | Of(callback: nat) | Both(left: Promise, right: Promise)

  predicate Settled(p: Promise, ended: set<nat>) {
    match p
    case Kept => true
    case Of(i) => i in ended
    case Both(l, r) => Settled(l, ended) && Settled(r, ended)
  }

  datatype Kind = Shared | Exclusive

  // A callback runs after its gate is settled.
  datatype Callback = Callback(kind: Kind, gate: Promise)

  // The record that is kept for a scope.
  datatype Record = Record(exclusive: Promise, shared: Option<Promise>)

  // The gate of the callback with number `n`, and the record once it is registered.
  function RegisterShared(lock: Option<Record>, n: nat): (Promise, Record) {
    match lock
    case None => (Kept, Record(Of(n), Some(Kept)))
    case Some(Record(exclusive, None)) => (exclusive, Record(Of(n), Some(exclusive)))
    case Some(Record(exclusive, Some(shared))) => (shared, Record(Both(exclusive, Of(n)), Some(shared)))
  }

  function RegisterExclusive(lock: Option<Record>, n: nat): (Promise, Record) {
    match lock
    case None => (Kept, Record(Of(n), None))
    case Some(Record(exclusive, _)) => (exclusive, Record(Of(n), None))
  }

  function Register(lock: Option<Record>, kind: Kind, n: nat): (Promise, Record) {
    if kind == Shared then RegisterShared(lock, n) else RegisterExclusive(lock, n)
  }

  // ---------- What a callback has to wait for ----------

  // There is an exclusive callback among those from `from` on and before `to`.
  ghost predicate Fenced(callbacks: seq<Callback>, from: nat, to: nat) {
    exists e :: from <= e < to && e < |callbacks| && callbacks[e].kind == Exclusive
  }

  // Callback `k` is before callback `i`, and one of the two or one between them is
  // exclusive.
  ghost predicate Precedes(callbacks: seq<Callback>, k: nat, i: nat) {
    k < i < |callbacks| && (callbacks[i].kind == Exclusive || Fenced(callbacks, k, i))
  }

  ghost predicate Clear(callbacks: seq<Callback>, ended: set<nat>, i: nat) {
    forall k: nat {:trigger Precedes(callbacks, k, i)} :: Precedes(callbacks, k, i) ==> k in ended
  }

  // Nothing ended that had still to wait.
  ghost predicate Closed(callbacks: seq<Callback>, ended: set<nat>) {
    forall i: nat {:trigger Clear(callbacks, ended, i)} ::
      i < |callbacks| && i in ended ==> Clear(callbacks, ended, i)
  }

  ghost predicate AllEnded(callbacks: seq<Callback>, ended: set<nat>) {
    forall i: nat :: i < |callbacks| ==> i in ended
  }

  ghost predicate AllFencedEnded(callbacks: seq<Callback>, ended: set<nat>) {
    forall i: nat {:trigger Fenced(callbacks, i, |callbacks|)} ::
      i < |callbacks| && Fenced(callbacks, i, |callbacks|) ==> i in ended
  }

  ghost predicate LastIsExclusive(callbacks: seq<Callback>) {
    callbacks != [] && callbacks[|callbacks| - 1].kind == Exclusive
  }

  // What the promises of the record stand for, and the gates.
  ghost predicate Stands(callbacks: seq<Callback>, lock: Option<Record>, ended: set<nat>) {
    && (lock.Some? ==> (Settled(lock.value.exclusive, ended) <==> AllEnded(callbacks, ended)))
    && (lock.Some? && lock.value.shared.Some? ==>
          (Settled(lock.value.shared.value, ended) <==> AllFencedEnded(callbacks, ended)))
    && (forall i: nat {:trigger Clear(callbacks, ended, i)} ::
          i < |callbacks| ==> (Settled(callbacks[i].gate, ended) <==> Clear(callbacks, ended, i)))
  }

  ghost predicate Proper(callbacks: seq<Callback>, lock: Option<Record>) {
    && (lock.None? <==> callbacks == [])
    && (lock.Some? ==> (lock.value.shared.None? <==> LastIsExclusive(callbacks)))
    && (forall ended {:trigger Closed(callbacks, ended)} :: Closed(callbacks, ended) ==> Stands(callbacks, lock, ended))
  }

  // ---------- Registering one more ----------

  lemma PrecedesMore(callbacks: seq<Callback>, c: Callback, k: nat, i: nat)
    ensures i < |callbacks| ==> (Precedes(callbacks + [c], k, i) <==> Precedes(callbacks, k, i))
    ensures i == |callbacks| ==>
      (Precedes(callbacks + [c], k, i) <==> k < i && (c.kind == Exclusive || Fenced(callbacks, k, i)))
  {
    var more := callbacks + [c];
    if i <= |callbacks| {
      assert Fenced(more, k, i) <==> Fenced(callbacks, k, i) by {
        if Fenced(more, k, i) {
          var e :| k <= e < i && e < |more| && more[e].kind == Exclusive;
          assert callbacks[e].kind == Exclusive;
        }
        if Fenced(callbacks, k, i) {
          var e :| k <= e < i && e < |callbacks| && callbacks[e].kind == Exclusive;
          assert more[e].kind == Exclusive;
        }
      }
    }
  }

  lemma ClearMore(callbacks: seq<Callback>, c: Callback, ended: set<nat>, i: nat)
    requires i < |callbacks|
    ensures Clear(callbacks + [c], ended, i) <==> Clear(callbacks, ended, i)
  {
    var more := callbacks + [c];
    forall k: nat ensures Precedes(more, k, i) <==> Precedes(callbacks, k, i) { PrecedesMore(callbacks, c, k, i); }
  }

  lemma ClearLast(callbacks: seq<Callback>, c: Callback, ended: set<nat>)
    ensures Clear(callbacks + [c], ended, |callbacks|)
       <==> if c.kind == Exclusive then AllEnded(callbacks, ended) else AllFencedEnded(callbacks, ended)
  {
    var more := callbacks + [c];
    var n := |callbacks|;
    forall k: nat
      ensures Precedes(more, k, n) <==> k < n && (c.kind == Exclusive || Fenced(callbacks, k, n))
    {
      PrecedesMore(callbacks, c, k, n);
    }
    if Clear(more, ended, n) {
      forall k: nat | k < n && (c.kind == Exclusive || Fenced(callbacks, k, n)) ensures k in ended {
        assert Precedes(more, k, n);
      }
    }
  }

  lemma FencedMore(callbacks: seq<Callback>, c: Callback, i: nat)
    requires i <= |callbacks|
    ensures Fenced(callbacks + [c], i, |callbacks| + 1) <==> c.kind == Exclusive || Fenced(callbacks, i, |callbacks|)
  {
    var more := callbacks + [c];
    if c.kind == Exclusive {
      assert more[|callbacks|].kind == Exclusive;
    } else {
      if Fenced(more, i, |more|) {
        var e :| i <= e < |more| && more[e].kind == Exclusive;
        assert callbacks[e].kind == Exclusive;
      }
      if Fenced(callbacks, i, |callbacks|) {
        var e :| i <= e < |callbacks| && callbacks[e].kind == Exclusive;
        assert more[e].kind == Exclusive;
      }
    }
  }

  // After an exclusive callback everything is fenced.
  lemma AllFenced(callbacks: seq<Callback>, ended: set<nat>)
    requires callbacks == [] || LastIsExclusive(callbacks)
    ensures AllFencedEnded(callbacks, ended) <==> AllEnded(callbacks, ended)
  {
    if AllFencedEnded(callbacks, ended) {
      forall i: nat | i < |callbacks| ensures i in ended {
        assert callbacks[|callbacks| - 1].kind == Exclusive;
        assert Fenced(callbacks, i, |callbacks|);
      }
    }
  }

  lemma FencedEndedMore(callbacks: seq<Callback>, c: Callback, ended: set<nat>)
    requires c.kind == Shared
    ensures AllFencedEnded(callbacks + [c], ended) <==> AllFencedEnded(callbacks, ended)
  {
    var more := callbacks + [c];
    forall i: nat | i <= |callbacks|
      ensures Fenced(more, i, |more|) <==> Fenced(callbacks, i, |callbacks|)
    {
      FencedMore(callbacks, c, i);
    }
    assert !Fenced(callbacks, |callbacks|, |callbacks|);
    if AllFencedEnded(more, ended) {
      forall i: nat | i < |callbacks| && Fenced(callbacks, i, |callbacks|) ensures i in ended {
        assert Fenced(more, i, |more|);
      }
    }
  }

  lemma ClosedLess(callbacks: seq<Callback>, c: Callback, ended: set<nat>)
    requires Closed(callbacks + [c], ended)
    ensures Closed(callbacks, ended)
    ensures |callbacks| in ended ==> Clear(callbacks + [c], ended, |callbacks|)
  {
    forall i: nat | i < |callbacks| && i in ended ensures Clear(callbacks, ended, i) {
      ClearMore(callbacks, c, ended, i);
    }
  }

  lemma StandsMore(callbacks: seq<Callback>, lock: Option<Record>, kind: Kind, ended: set<nat>)
    requires Proper(callbacks, lock)
    requires var (gate, _) := Register(lock, kind, |callbacks|); Closed(callbacks + [Callback(kind, gate)], ended)
    ensures var (gate, next) := Register(lock, kind, |callbacks|);
            Stands(callbacks + [Callback(kind, gate)], Some(next), ended)
  {
    var (gate, next) := Register(lock, kind, |callbacks|);
    var c := Callback(kind, gate);
    var more := callbacks + [c];
    ClosedLess(callbacks, c, ended);
    assert Stands(callbacks, lock, ended);
    ClearLast(callbacks, c, ended);
    if callbacks == [] || LastIsExclusive(callbacks) { AllFenced(callbacks, ended); }
    if kind == Shared { FencedEndedMore(callbacks, c, ended); }
    assert AllEnded(more, ended) <==> AllEnded(callbacks, ended) && |callbacks| in ended;
    forall i: nat | i < |more| ensures Settled(more[i].gate, ended) <==> Clear(more, ended, i) {
      if i < |callbacks| { ClearMore(callbacks, c, ended, i); }
    }
  }

  lemma ProperMore(callbacks: seq<Callback>, lock: Option<Record>, kind: Kind)
    requires Proper(callbacks, lock)
    ensures var (gate, next) := Register(lock, kind, |callbacks|);
            Proper(callbacks + [Callback(kind, gate)], Some(next))
  {
    var (gate, _) := Register(lock, kind, |callbacks|);
    forall ended | Closed(callbacks + [Callback(kind, gate)], ended)
      ensures var (gate, next) := Register(lock, kind, |callbacks|);
              Stands(callbacks + [Callback(kind, gate)], Some(next), ended)
    {
      StandsMore(callbacks, lock, kind, ended);
    }
  }

  // ---------- Runs ----------

  datatype Scope = Scope(callbacks: seq<Callback>, lock: Option<Record>, started: set<nat>, ended: set<nat>)

  // A callback may end well or not.
  datatype Step = Call(kind: Kind) | Start(i: nat) | End(i: nat, well: bool)

  predicate CanStart(s: Scope, i: nat) {
    i < |s.callbacks| && i !in s.started && Settled(s.callbacks[i].gate, s.ended)
  }

  predicate Running(s: Scope, i: nat) { i in s.started && i !in s.ended }

  function Called(s: Scope, kind: Kind): Scope {
    var (gate, next) := Register(s.lock, kind, |s.callbacks|);
    s.(callbacks := s.callbacks + [Callback(kind, gate)], lock := Some(next))
  }

  function After(s: Scope, step: Step): Scope {
    match step
    case Call(kind) => Called(s, kind)
    case Start(i) => if CanStart(s, i) then s.(started := s.started + {i}) else s
    case End(i, _) => if Running(s, i) then s.(ended := s.ended + {i}) else s
  }

  function Run(steps: seq<Step>): Scope {
    if steps == [] then Scope([], None, {}, {})
    else After(Run(steps[..|steps| - 1]), steps[|steps| - 1])
  }

  ghost predicate Sound(s: Scope) {
    && Proper(s.callbacks, s.lock)
    && s.ended <= s.started
    && (forall i {:trigger i in s.started} :: i in s.started ==> i < |s.callbacks|)
    && (forall i {:trigger Clear(s.callbacks, s.ended, i)} :: i in s.started ==> Clear(s.callbacks, s.ended, i))
  }

  lemma SoundIsClosed(s: Scope)
    requires Sound(s)
    ensures Closed(s.callbacks, s.ended)
    ensures Stands(s.callbacks, s.lock, s.ended)
  {
  }

  lemma SoundAfter(s: Scope, step: Step)
    requires Sound(s)
    ensures Sound(After(s, step))
  {
    SoundIsClosed(s);
    var t := After(s, step);
    if step.Call? {
      ProperMore(s.callbacks, s.lock, step.kind);
      forall i | i in t.started ensures Clear(t.callbacks, t.ended, i) {
        assert Clear(s.callbacks, s.ended, i);
        ClearMore(s.callbacks, t.callbacks[|s.callbacks|], s.ended, i);
      }
    } else {
      forall i | i in t.started ensures Clear(t.callbacks, t.ended, i) {
        assert Clear(s.callbacks, s.ended, i);
      }
    }
  }

  lemma {:induction false} EveryRun(steps: seq<Step>)
    ensures Sound(Run(steps))
  {
    if steps == [] {
      var s := Run([]);
      forall ended ensures Stands(s.callbacks, s.lock, ended) {}
    } else {
      EveryRun(steps[..|steps| - 1]);
      SoundAfter(Run(steps[..|steps| - 1]), steps[|steps| - 1]);
    }
  }

  // ---------- What the lock is for ----------

  // In every run, when an exclusive callback has started everything registered before it
  // has ended, and nothing registered after it has started unless it ended.
  lemma ExclusiveIsOrdered(steps: seq<Step>, e: nat, other: nat)
    requires var s := Run(steps); e < |s.callbacks| && s.callbacks[e].kind == Exclusive
    ensures var s := Run(steps);
            && (e in s.started && other < e ==> other in s.ended)
            && (other in s.started && e < other ==> e in s.ended)
  {
    EveryRun(steps);
    var s := Run(steps);
    if e in s.started && other < e {
      assert Clear(s.callbacks, s.ended, e) && Precedes(s.callbacks, other, e);
    }
    if other in s.started && e < other {
      assert Fenced(s.callbacks, e, other);
      assert Clear(s.callbacks, s.ended, other) && Precedes(s.callbacks, e, other);
    }
  }

  // In every run, while an exclusive callback runs no other runs.
  lemma ExclusiveRunsAlone(steps: seq<Step>, e: nat, other: nat)
    requires var s := Run(steps); e < |s.callbacks| && s.callbacks[e].kind == Exclusive
    requires Running(Run(steps), e) && Running(Run(steps), other)
    ensures other == e
  {
    ExclusiveIsOrdered(steps, e, other);
  }

  // In every run, a callback that was not started can start exactly when all those before
  // it have ended that are fenced off from it: all of them if it is exclusive, and those
  // up to the last exclusive one if it is shared.
  lemma StartsAsSoonAsAllowed(steps: seq<Step>, i: nat)
    requires i < |Run(steps).callbacks| && i !in Run(steps).started
    ensures var s := Run(steps);
            CanStart(s, i) <==>
              forall k: nat {:trigger Precedes(s.callbacks, k, i)} :: Precedes(s.callbacks, k, i) ==> k in s.ended
  {
    EveryRun(steps);
    var s := Run(steps);
    SoundIsClosed(s);
    assert CanStart(s, i) <==> Clear(s.callbacks, s.ended, i);
  }

  // In every run, of two shared callbacks without an exclusive one between them either
  // both gates are open or none.
  lemma SharedDoNotWait(steps: seq<Step>, i: nat, j: nat)
    requires var s := Run(steps);
             && i < j < |s.callbacks|
             && (forall k :: i <= k <= j ==> s.callbacks[k].kind == Shared)
    requires i !in Run(steps).started && j !in Run(steps).started
    ensures CanStart(Run(steps), i) <==> CanStart(Run(steps), j)
  {
    StartsAsSoonAsAllowed(steps, i);
    StartsAsSoonAsAllowed(steps, j);
    var cs := Run(steps).callbacks;
    forall k: nat ensures Precedes(cs, k, i) <==> Precedes(cs, k, j) {
      if Precedes(cs, k, j) {
        var e :| k <= e < j && e < |cs| && cs[e].kind == Exclusive;
        assert e < i;
      }
    }
  }

  // In every run, while a callback is left, one is running or one can start.
  lemma NeverStuck(steps: seq<Step>, i: nat)
    requires i < |Run(steps).callbacks| && i !in Run(steps).ended
    ensures exists k: nat :: k <= i && (Running(Run(steps), k) || CanStart(Run(steps), k))
  {
    var s := Run(steps);
    if !Running(s, i) {
      if j: nat :| j < i && j !in s.ended {
        NeverStuck(steps, j);
      } else {
        StartsAsSoonAsAllowed(steps, i);
        assert CanStart(s, i);
      }
    }
  }

  // ---------- The class ----------

  // The records of all scopes.
  class Locks {
    var scopes: map<string, Scope>

    constructor ()
      ensures scopes == map[]
    {
      scopes := map[];
    }

    function At(scope: string): Scope
      reads this
    {
      if scope in scopes then scopes[scope] else Scope([], None, {}, {})
    }

    // Registers a callback, gives the promise after which it runs, and leaves the other
    // scopes alone.
    method Shared(scope: string) returns (gate: Promise)
      modifies this
      ensures scopes == old(scopes)[scope := After(old(At(scope)), Call(Kind.Shared))]
      ensures gate == At(scope).callbacks[|old(At(scope)).callbacks|].gate
    {
      var s := At(scope);
      var n := |s.callbacks|;
      var lock := s.lock;
      if lock == None {
        gate := Kept;
        lock := Some(Record(Of(n), Some(Kept)));
      } else if lock.value.shared == None {
        gate := lock.value.exclusive;
        lock := Some(Record(Of(n), Some(gate)));
      } else {
        gate := lock.value.shared.value;
        lock := Some(lock.value.(exclusive := Both(lock.value.exclusive, Of(n))));
      }
      scopes := scopes[scope := s.(callbacks := s.callbacks + [Callback(Kind.Shared, gate)], lock := lock)];
    }

    method Exclusive(scope: string) returns (gate: Promise)
      modifies this
      ensures scopes == old(scopes)[scope := After(old(At(scope)), Call(Kind.Exclusive))]
      ensures gate == At(scope).callbacks[|old(At(scope)).callbacks|].gate
    {
      var s := At(scope);
      var n := |s.callbacks|;
      var lock := s.lock;
      gate := if lock == None then Kept else lock.value.exclusive;
      lock := Some(Record(Of(n), None));
      scopes := scopes[scope := s.(callbacks := s.callbacks + [Callback(Kind.Exclusive, gate)], lock := lock)];
    }
  }
}
