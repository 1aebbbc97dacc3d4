// How a leader makes updates idempotent: an id that is under way is remembered with the
// request, an id in the log is remembered in a cache, and an id that was forgotten by
// the cache is so old that it is refused.
module UpdateRequests {
  import opened Wrappers

  // An identifier starts with the time of its making, in seconds.
  datatype Rid = Rid(seconds: nat, rest: string)

  // `ttl` and `margin` are in milliseconds. A limit on the size of the cache is optional.
  datatype Options = Options(ttl: Option<nat>, margin: nat, cacheMax: Option<nat>)

  // ---------- The two tests of an id against the clock ----------

  predicate Expired(o: Options, now: nat, rid: Rid) {
    o.ttl.Some? && rid.seconds * 1000 < now - o.ttl.value
  }

  datatype Sanity = Fresh | TooOld | TooNew

  function CheckSanity(o: Options, now: nat, rid: Rid): Sanity {
    if o.ttl.None? then Fresh
    else if rid.seconds * 1000 < now - (o.ttl.value - o.margin) then TooOld
    else if rid.seconds * 1000 > now + o.margin then TooNew
    else Fresh
  }

  // ---------- The leader ----------

  // Entries without an id, like checkpoints, are `None`. `writing` are the ids of the
  // updates that wait for the log, in order. The cache keeps ids in the order in which
  // they came.
  datatype Leader = Leader(
    log: seq<Option<Rid>>,
    writing: seq<Rid>,
    waiting: map<Rid, Option<nat>>,
    order: seq<Rid>,
    cache: map<Rid, nat>,
    lastApplied: nat,
    now: nat,
    replies: set<Reply>)

  datatype Reply = Accepted(rid: Rid) | Refused(rid: Rid) | Applied(rid: Rid, index: nat)

  datatype Step = Request(rid: Rid) | Write | Checkpoint | Apply(upTo: nat) | CleanUp | Pass(ms: nat)

  predicate Holds(log: seq<Option<Rid>>, index: nat, rid: Rid) {
    1 <= index <= |log| && log[index - 1] == Some(rid)
  }

  function ReplyTo(o: Options, s: Leader, rid: Rid): Reply {
    if rid in s.waiting then Accepted(rid)
    else if rid in s.cache then (if s.cache[rid] <= s.lastApplied then Applied(rid, s.cache[rid]) else Accepted(rid))
    else if CheckSanity(o, s.now, rid) != Fresh then Refused(rid)
    else Accepted(rid)
  }

  function Requested(o: Options, s: Leader, rid: Rid): Leader {
    var t := s.(replies := s.replies + {ReplyTo(o, s, rid)});
    if rid in s.waiting then t
    else if rid in s.cache then
      if s.cache[rid] <= s.lastApplied then t else t.(waiting := s.waiting[rid := Some(s.cache[rid])])
    else if CheckSanity(o, s.now, rid) != Fresh then t
    else t.(waiting := s.waiting[rid := None], writing := s.writing + [rid])
  }

  // The log remembers an id that it writes, unless the id expired in the meantime.
  function Written(o: Options, s: Leader): Leader {
    if s.writing == [] then s
    else
      var rid := s.writing[0];
      var index := |s.log| + 1;
      var t := s.(log := s.log + [Some(rid)], writing := s.writing[1..]);
      var u := if Expired(o, s.now, rid) then t
               else t.(order := if rid in s.cache then s.order else s.order + [rid], cache := s.cache[rid := index]);
      if index <= s.lastApplied then
        u.(waiting := s.waiting - {rid}, replies := s.replies + {Applied(rid, index)})
      else
        u.(waiting := s.waiting[rid := Some(index)])
  }

  function Served(waiting: map<Rid, Option<nat>>, upTo: nat): set<Rid> {
    set rid | rid in waiting && waiting[rid].Some? && waiting[rid].value <= upTo
  }

  function Answers(waiting: map<Rid, Option<nat>>, rids: set<Rid>): set<Reply>
    requires forall rid :: rid in rids ==> rid in waiting && waiting[rid].Some?
  {
    set rid | rid in rids :: Applied(rid, waiting[rid].value)
  }

  function AppliedUpTo(s: Leader, upTo: nat): Leader {
    if s.lastApplied < upTo <= |s.log| then
      var served := Served(s.waiting, upTo);
      s.(lastApplied := upTo, waiting := s.waiting - served, replies := s.replies + Answers(s.waiting, served))
    else s
  }

  // The cleaner forgets ids from the oldest on, and stops at the first that it keeps.
  function Forgotten(o: Options, now: nat, order: seq<Rid>): nat
    ensures Forgotten(o, now, order) <= |order|
  {
    if order != [] && (Expired(o, now, order[0]) || (o.cacheMax.Some? && |order| > o.cacheMax.value)) then
      1 + Forgotten(o, now, order[1..])
    else 0
  }

  function Cleaned(o: Options, s: Leader): Leader {
    var n := Forgotten(o, s.now, s.order);
    s.(order := s.order[n..], cache := s.cache - (set rid | rid in s.order[..n]))
  }

  function After(o: Options, s: Leader, step: Step): Leader {
    match step
    case Request(rid) => Requested(o, s, rid)
    case Write => Written(o, s)
    case Checkpoint => s.(log := s.log + [None])
    case Apply(upTo) => AppliedUpTo(s, upTo)
    case CleanUp => Cleaned(o, s)
    case Pass(ms) => s.(now := s.now + ms)
  }

  function Run(o: Options, s: Leader, steps: seq<Step>): Leader {
    if steps == [] then s
    else After(o, Run(o, s, steps[..|steps| - 1]), steps[|steps| - 1])
  }

  // ---------- What every step keeps ----------

  ghost predicate CacheIsTrue(s: Leader) {
    && (forall i, j :: 0 <= i < j < |s.order| ==> s.order[i] != s.order[j])
    && (forall rid :: rid in s.order <==> rid in s.cache)
    && (forall rid {:trigger s.cache[rid]} :: rid in s.cache ==> Holds(s.log, s.cache[rid], rid))
  }

  // An id in the log may be forgotten only when it has expired.
  ghost predicate Known(o: Options, s: Leader, i: nat) {
    i < |s.log| && s.log[i].Some? ==>
      s.log[i].value in s.cache || Expired(o, s.now, s.log[i].value)
  }

  ghost predicate LogIsKnown(o: Options, s: Leader) {
    forall i: nat {:trigger Known(o, s, i)} :: Known(o, s, i)
  }

  ghost predicate InLog(log: seq<Option<Rid>>, rid: Rid) { Some(rid) in log }

  // What is being written is new to the log, and a repeated request finds it waiting.
  ghost predicate WritingIsNew(s: Leader) {
    && (forall i, j :: 0 <= i < j < |s.writing| ==> s.writing[i] != s.writing[j])
    && (forall i :: 0 <= i < |s.writing| ==>
          && s.writing[i] in s.waiting && s.waiting[s.writing[i]].None?
          && s.writing[i] !in s.cache && !InLog(s.log, s.writing[i]))
  }

  // Nobody waits for an index that is already applied.
  ghost predicate Awaits(s: Leader, rid: Rid) {
    rid in s.waiting && s.waiting[rid].Some? ==>
      s.waiting[rid].value > s.lastApplied && Holds(s.log, s.waiting[rid].value, rid)
  }

  ghost predicate WaitingIsTrue(s: Leader) {
    forall rid {:trigger Awaits(s, rid)} :: Awaits(s, rid)
  }

  ghost predicate RepliesAreTrue(s: Leader) {
    forall rid, index: nat {:trigger Applied(rid, index) in s.replies} ::
      Applied(rid, index) in s.replies ==> index <= s.lastApplied && Holds(s.log, index, rid)
  }

  ghost predicate Sound(o: Options, s: Leader) {
    && s.lastApplied <= |s.log|
    && CacheIsTrue(s)
    && LogIsKnown(o, s)
    && WritingIsNew(s)
    && WaitingIsTrue(s)
    && RepliesAreTrue(s)
  }

  // The ids that were appended from position `base` on, and no position before.
  ghost predicate NewIdsAreUnique(log: seq<Option<Rid>>, base: nat) {
    forall i, j :: 0 <= i < j < |log| && base <= j && log[i].Some? ==> log[i] != log[j]
  }

  // An id that has expired is refused, as the margin only makes the test stricter.
  lemma ExpiredIsRefused(o: Options, now: nat, rid: Rid)
    requires Expired(o, now, rid)
    ensures CheckSanity(o, now, rid) == TooOld
  {
  }

  // An id that passes all the tests is not in the log.
  lemma AcceptedIsNew(o: Options, s: Leader, rid: Rid)
    requires LogIsKnown(o, s) && rid !in s.cache && CheckSanity(o, s.now, rid) == Fresh
    ensures !InLog(s.log, rid)
  {
    forall i: nat | i < |s.log| ensures s.log[i] != Some(rid) {
      assert Known(o, s, i);
      if s.log[i] == Some(rid) { ExpiredIsRefused(o, s.now, rid); }
    }
  }

  lemma RequestedWriting(o: Options, s: Leader, rid: Rid)
    requires Sound(o, s)
    ensures WritingIsNew(Requested(o, s, rid))
  {
    if rid !in s.cache && CheckSanity(o, s.now, rid) == Fresh { AcceptedIsNew(o, s, rid); }
  }

  lemma RequestedWaiting(o: Options, s: Leader, rid: Rid)
    requires Sound(o, s)
    ensures WaitingIsTrue(Requested(o, s, rid))
  {
    var t := Requested(o, s, rid);
    forall r ensures Awaits(t, r) { assert Awaits(s, r); }
  }

  lemma RequestedReplies(o: Options, s: Leader, rid: Rid)
    requires Sound(o, s)
    ensures RepliesAreTrue(Requested(o, s, rid))
  {
  }

  lemma SoundRequest(o: Options, s: Leader, rid: Rid)
    requires Sound(o, s)
    ensures Sound(o, Requested(o, s, rid))
  {
    RequestedWriting(o, s, rid);
    RequestedWaiting(o, s, rid);
    RequestedReplies(o, s, rid);
    var t := Requested(o, s, rid);
    forall i: nat ensures Known(o, t, i) { assert Known(o, s, i); }
  }

  lemma HoldsLonger(log: seq<Option<Rid>>, entry: Option<Rid>)
    ensures forall index, rid :: Holds(log, index, rid) ==> Holds(log + [entry], index, rid)
  {
  }

  lemma WrittenKnown(o: Options, s: Leader, i: nat)
    requires Sound(o, s) && s.writing != []
    ensures Known(o, Written(o, s), i)
  {
    assert Known(o, s, i);
  }

  lemma WrittenCache(o: Options, s: Leader)
    requires Sound(o, s) && s.writing != []
    ensures CacheIsTrue(Written(o, s))
    ensures WritingIsNew(Written(o, s))
  {
    HoldsLonger(s.log, Some(s.writing[0]));
    assert s.writing[0] !in s.cache;
  }

  lemma SoundWrite(o: Options, s: Leader)
    requires Sound(o, s)
    ensures Sound(o, Written(o, s))
  {
    if s.writing != [] {
      var t := Written(o, s);
      var rid := s.writing[0];
      HoldsLonger(s.log, Some(rid));
      forall i: nat ensures Known(o, t, i) { WrittenKnown(o, s, i); }
      forall r ensures Awaits(t, r) { assert Awaits(s, r); }
      WrittenCache(o, s);
    }
  }

  lemma SoundCheckpoint(o: Options, s: Leader)
    requires Sound(o, s)
    ensures Sound(o, After(o, s, Checkpoint))
  {
    var t := After(o, s, Checkpoint);
    HoldsLonger(s.log, None);
    forall i: nat ensures Known(o, t, i) { assert Known(o, s, i); }
    forall r ensures Awaits(t, r) { assert Awaits(s, r); }
  }

  lemma SoundApply(o: Options, s: Leader, upTo: nat)
    requires Sound(o, s)
    ensures Sound(o, AppliedUpTo(s, upTo))
  {
    var t := AppliedUpTo(s, upTo);
    forall i: nat ensures Known(o, t, i) { assert Known(o, s, i); }
    forall r ensures Awaits(t, r) { assert Awaits(s, r); }
    forall r, index: nat | Applied(r, index) in t.replies
      ensures index <= t.lastApplied && Holds(t.log, index, r)
    {
      assert Awaits(s, r);
    }
  }

  // Without a limit on its size the cache forgets only what has expired.
  lemma {:induction false} ForgottenHasExpired(o: Options, now: nat, order: seq<Rid>, i: nat)
    requires o.cacheMax.None? && i < Forgotten(o, now, order)
    ensures Expired(o, now, order[i])
  {
    if i > 0 { ForgottenHasExpired(o, now, order[1..], i - 1); }
  }

  lemma KnownAfterCleanUp(o: Options, s: Leader, i: nat)
    requires Known(o, s, i) && o.cacheMax.None?
    ensures Known(o, Cleaned(o, s), i)
  {
    var n := Forgotten(o, s.now, s.order);
    if i < |s.log| && s.log[i].Some? && s.log[i].value in s.order[..n] {
      var k: nat :| k < n && s.order[k] == s.log[i].value;
      ForgottenHasExpired(o, s.now, s.order, k);
    }
  }

  lemma CacheAfterCleanUp(o: Options, s: Leader)
    requires CacheIsTrue(s)
    ensures CacheIsTrue(Cleaned(o, s))
  {
    var t := Cleaned(o, s);
    var n := Forgotten(o, s.now, s.order);
    forall rid ensures rid in t.order <==> rid in t.cache {
      assert s.order == s.order[..n] + t.order;
      if rid in t.order {
        var j :| 0 <= j < |t.order| && t.order[j] == rid;
        assert s.order[n + j] == rid;
      }
    }
  }

  lemma SoundCleanUp(o: Options, s: Leader)
    requires Sound(o, s) && o.cacheMax.None?
    ensures Sound(o, Cleaned(o, s))
  {
    var t := Cleaned(o, s);
    CacheAfterCleanUp(o, s);
    forall i: nat ensures Known(o, t, i) {
      assert Known(o, s, i);
      KnownAfterCleanUp(o, s, i);
    }
    forall r ensures Awaits(t, r) { assert Awaits(s, r); }
  }

  lemma SoundAfter(o: Options, s: Leader, step: Step)
    requires Sound(o, s) && o.cacheMax.None?
    ensures Sound(o, After(o, s, step))
  {
    match step
    case Request(rid) => SoundRequest(o, s, rid);
    case Write => SoundWrite(o, s);
    case Checkpoint => SoundCheckpoint(o, s);
    case Apply(upTo) => SoundApply(o, s, upTo);
    case CleanUp => SoundCleanUp(o, s);
    case Pass(ms) =>
      var t := After(o, s, step);
      forall i: nat ensures Known(o, t, i) { assert Known(o, s, i); }
      forall r ensures Awaits(t, r) { assert Awaits(s, r); }
  }

  // ---------- Whole runs ----------

  // A leader at the start of its term: nothing is under way, and the cache holds every
  // id of the log that has not expired.
  ghost predicate Starts(o: Options, s: Leader) {
    && s.writing == [] && s.waiting == map[] && s.replies == {}
    && s.lastApplied <= |s.log| && CacheIsTrue(s) && LogIsKnown(o, s)
  }

  lemma NewIdAfter(o: Options, s: Leader, step: Step, base: nat)
    requires Sound(o, s) && NewIdsAreUnique(s.log, base)
    ensures s.log <= After(o, s, step).log
    ensures NewIdsAreUnique(After(o, s, step).log, base)
  {
    if step.Write? && s.writing != [] {
      assert !InLog(s.log, s.writing[0]);
    }
  }

  lemma {:induction false} EveryRun(o: Options, s: Leader, steps: seq<Step>)
    requires Starts(o, s) && o.cacheMax.None?
    ensures Sound(o, Run(o, s, steps))
    ensures s.log <= Run(o, s, steps).log
    ensures NewIdsAreUnique(Run(o, s, steps).log, |s.log|)
  {
    if steps == [] {
      forall rid ensures Awaits(s, rid) {}
    } else {
      var before := steps[..|steps| - 1];
      EveryRun(o, s, before);
      SoundAfter(o, Run(o, s, before), steps[|steps| - 1]);
      NewIdAfter(o, Run(o, s, before), steps[|steps| - 1], |s.log|);
    }
  }

  // In every run of one leadership, with any mix of requests, retries, writes, applied
  // entries and clean-ups, an id is appended at most once, and never when the log has it.
  lemma AppendedAtMostOnce(o: Options, s: Leader, steps: seq<Step>, i: nat, j: nat)
    requires Starts(o, s) && o.cacheMax.None?
    requires i < j < |Run(o, s, steps).log| && |s.log| <= j
    requires Run(o, s, steps).log[j].Some?
    ensures Run(o, s, steps).log[i] != Run(o, s, steps).log[j]
  {
    EveryRun(o, s, steps);
  }

  // In every run a final success names an applied index that holds the id.
  lemma FinalReplyIsTrue(o: Options, s: Leader, steps: seq<Step>, rid: Rid, index: nat)
    requires Starts(o, s) && o.cacheMax.None?
    requires Applied(rid, index) in Run(o, s, steps).replies
    ensures var t := Run(o, s, steps); index <= t.lastApplied && Holds(t.log, index, rid)
  {
    EveryRun(o, s, steps);
  }

  // In every run nobody is left waiting for an entry that is already applied.
  lemma NobodyWaitsInVain(o: Options, s: Leader, steps: seq<Step>, rid: Rid)
    requires Starts(o, s) && o.cacheMax.None?
    ensures var t := Run(o, s, steps);
            rid in t.waiting && t.waiting[rid].Some? ==>
              t.waiting[rid].value > t.lastApplied && Holds(t.log, t.waiting[rid].value, rid)
  {
    EveryRun(o, s, steps);
    assert Awaits(Run(o, s, steps), rid);
  }

  // An id once in the log is never accepted as new again: a request for it is answered
  // with its index, is waiting for it, or is refused as too old.
  lemma RepeatedRequestIsHarmless(o: Options, s: Leader, steps: seq<Step>, i: nat)
    requires Starts(o, s) && o.cacheMax.None?
    requires i < |Run(o, s, steps).log| && Run(o, s, steps).log[i].Some?
    ensures var t := Run(o, s, steps);
            var rid := t.log[i].value;
            && Requested(o, t, rid).writing == t.writing
            && (rid in t.waiting || rid in t.cache || CheckSanity(o, t.now, rid) == TooOld)
  {
    EveryRun(o, s, steps);
    var t := Run(o, s, steps);
    assert Known(o, t, i);
    if Expired(o, t.now, t.log[i].value) { ExpiredIsRefused(o, t.now, t.log[i].value); }
  }

  // ---------- Who gets an answer ----------

  // An id that is neither waiting nor in the log is accepted, and written after all others
  // that wait for it, if and only if there is no time to live or its second lies between
  // the limits that the clock, the time to live and the margin set; otherwise it is refused
  // and nothing else happens.
  lemma NewIdIsAcceptedIff(o: Options, s: Leader, rid: Rid)
    requires rid !in s.waiting && rid !in s.cache
    ensures var t := Requested(o, s, rid);
            if o.ttl.None? || s.now - (o.ttl.value - o.margin) <= rid.seconds * 1000 <= s.now + o.margin
            then t == s.(waiting := s.waiting[rid := None], writing := s.writing + [rid], replies := s.replies + {Accepted(rid)})
            else t == s.(replies := s.replies + {Refused(rid)})
  {
  }

  lemma StepTakesTime(o: Options, s: Leader, step: Step)
    ensures s.now <= After(o, s, step).now && s.replies <= After(o, s, step).replies
  {
  }

  lemma {:induction false} TimePasses(o: Options, s: Leader, steps: seq<Step>)
    ensures s.now <= Run(o, s, steps).now
  {
    if steps != [] {
      TimePasses(o, s, steps[..|steps| - 1]);
      StepTakesTime(o, Run(o, s, steps[..|steps| - 1]), steps[|steps| - 1]);
    }
  }

  // An id that was accepted as a new one is never refused as long as it is younger than
  // the time to live less the margin, whatever happened in between.
  lemma RetryIsNotRefused(o: Options, s: Leader, rid: Rid, steps: seq<Step>)
    requires rid !in s.waiting && rid !in s.cache && ReplyTo(o, s, rid) == Accepted(rid)
    ensures var t := Run(o, Requested(o, s, rid), steps);
            o.ttl.None? || t.now - rid.seconds * 1000 <= o.ttl.value - o.margin ==> ReplyTo(o, t, rid) != Refused(rid)
  {
    TimePasses(o, Requested(o, s, rid), steps);
  }

  // An accepted request is waiting or has its final reply, and what waits without an index
  // is being written.
  ghost predicate Attended(s: Leader, rid: Rid) {
    && (Accepted(rid) in s.replies ==> rid in s.waiting || exists index: nat :: Applied(rid, index) in s.replies)
    && (rid in s.waiting && s.waiting[rid].None? ==> rid in s.writing)
  }

  lemma AttendedAfter(o: Options, s: Leader, step: Step, rid: Rid)
    requires Attended(s, rid)
    ensures Attended(After(o, s, step), rid)
  {
    StepTakesTime(o, s, step);
    match step
    case Request(r) => AttendedRequested(o, s, r, rid);
    case Write => AttendedWritten(o, s, rid);
    case Apply(upTo) => AttendedApplied(s, upTo, rid);
    case _ =>
  }

  lemma StillApplied(s: Leader, t: Leader, rid: Rid)
    requires s.replies <= t.replies && exists index: nat :: Applied(rid, index) in s.replies
    ensures exists index: nat :: Applied(rid, index) in t.replies
  {
    var index: nat :| Applied(rid, index) in s.replies;
    assert Applied(rid, index) in t.replies;
  }

  lemma AttendedRequested(o: Options, s: Leader, r: Rid, rid: Rid)
    requires Attended(s, rid)
    ensures Attended(Requested(o, s, r), rid)
  {
    if exists index: nat :: Applied(rid, index) in s.replies { StillApplied(s, Requested(o, s, r), rid); }
  }

  lemma AttendedWritten(o: Options, s: Leader, rid: Rid)
    requires Attended(s, rid)
    ensures Attended(Written(o, s), rid)
  {
    var t := Written(o, s);
    if s.writing != [] {
      assert s.writing == [s.writing[0]] + s.writing[1..];
      if exists index: nat :: Applied(rid, index) in s.replies {
        StillApplied(s, t, rid);
      } else if rid == s.writing[0] && |s.log| + 1 <= s.lastApplied {
        assert Applied(rid, |s.log| + 1) in t.replies;
      }
    }
  }

  lemma AttendedApplied(s: Leader, upTo: nat, rid: Rid)
    requires Attended(s, rid)
    ensures Attended(AppliedUpTo(s, upTo), rid)
  {
    var t := AppliedUpTo(s, upTo);
    if exists index: nat :: Applied(rid, index) in s.replies {
      var index: nat :| Applied(rid, index) in s.replies;
      assert Applied(rid, index) in t.replies;
    } else if rid in s.waiting && rid !in t.waiting {
      assert Applied(rid, s.waiting[rid].value) in t.replies;
    }
  }

  lemma {:induction false} EveryoneAttended(o: Options, s: Leader, steps: seq<Step>, rid: Rid)
    requires Starts(o, s)
    ensures Attended(Run(o, s, steps), rid)
  {
    if steps != [] {
      EveryoneAttended(o, s, steps[..|steps| - 1], rid);
      AttendedAfter(o, Run(o, s, steps[..|steps| - 1]), steps[|steps| - 1], rid);
    }
  }

  // In every run, whoever was told that the request is accepted is told its index when that
  // is applied: until then the id is being written, or waits for an index that holds it and
  // is not applied.
  lemma AcceptedIsAnswered(o: Options, s: Leader, steps: seq<Step>, rid: Rid)
    requires Starts(o, s) && o.cacheMax.None? && Accepted(rid) in Run(o, s, steps).replies
    ensures var t := Run(o, s, steps);
            || (exists index: nat :: Applied(rid, index) in t.replies && Holds(t.log, index, rid))
            || rid in t.writing
            || (rid in t.waiting && t.waiting[rid].Some? && t.waiting[rid].value > t.lastApplied
                && Holds(t.log, t.waiting[rid].value, rid))
  {
    EveryRun(o, s, steps);
    EveryoneAttended(o, s, steps, rid);
    assert Awaits(Run(o, s, steps), rid);
    if exists index: nat :: Applied(rid, index) in Run(o, s, steps).replies {
      var index: nat :| Applied(rid, index) in Run(o, s, steps).replies;
      assert Holds(Run(o, s, steps).log, index, rid);
    }
  }

  // What the cleaner forgets: each id from the oldest on that is past its time to live, or
  // that there is no room for; the first one that is kept is neither.
  lemma {:induction false} ForgetsExactly(o: Options, now: nat, order: seq<Rid>, i: nat)
    ensures var n := Forgotten(o, now, order);
            && (i < n ==>
                  || (o.ttl.Some? && order[i].seconds * 1000 < now - o.ttl.value)
                  || (o.cacheMax.Some? && |order| - i > o.cacheMax.value))
            && (n < |order| ==>
                  && (o.ttl.Some? ==> order[n].seconds * 1000 >= now - o.ttl.value)
                  && (o.cacheMax.Some? ==> |order| - n <= o.cacheMax.value))
  {
    if order != [] { ForgetsExactly(o, now, order[1..], if i > 0 then i - 1 else 0); }
  }

  // ---------- A limited cache ----------

  function Tally(n: nat): string { if n == 0 then "" else Tally(n - 1) + "x" }

  lemma {:induction false} TallyLength(n: nat)
    ensures |Tally(n)| == n
  {
    if n > 0 { TallyLength(n - 1); }
  }

  // Different ids, all made at the same time.
  ghost function Id(at: nat, i: nat): Rid { Rid(at, Tally(i)) }

  ghost function Ids(at: nat, n: nat): seq<Rid>
    ensures |Ids(at, n)| == n
    ensures forall i :: 0 <= i < n ==> Ids(at, n)[i] == Id(at, i)
  {
    if n == 0 then [] else Ids(at, n - 1) + [Id(at, n - 1)]
  }

  ghost function Entries(at: nat, n: nat): seq<Option<Rid>>
    ensures |Entries(at, n)| == n
    ensures forall i :: 0 <= i < n ==> Entries(at, n)[i] == Some(Id(at, i))
  {
    if n == 0 then [] else Entries(at, n - 1) + [Some(Id(at, n - 1))]
  }

  ghost function Indexes(at: nat, n: nat): map<Rid, nat>
    ensures forall rid :: rid in Indexes(at, n) <==> rid in Ids(at, n)
    ensures forall i: nat {:trigger Id(at, i)} :: i < n ==> Id(at, i) in Indexes(at, n) && Indexes(at, n)[Id(at, i)] == i + 1
  {
    if n == 0 then map[]
    else
      TallyLength(n - 1);
      assert forall i: nat {:trigger Id(at, i)} :: i < n - 1 ==> Id(at, i) != Id(at, n - 1) by {
        forall i: nat | i < n - 1 ensures Id(at, i) != Id(at, n - 1) { TallyLength(i); }
      }
      assert Ids(at, n) == Ids(at, n - 1) + [Id(at, n - 1)];
      Indexes(at, n - 1)[Id(at, n - 1) := n]
  }

  // A leader whose cache is full of ids that are all of the same moment, as far ahead of
  // its clock as the margin allows.
  ghost function Full(at: nat, max: nat): Leader {
    Leader(Entries(at, max), [], map[], Ids(at, max), Indexes(at, max), 0, at * 999, {})
  }

  lemma FullStarts(o: Options, at: nat, max: nat)
    ensures Starts(o, Full(at, max))
  {
    FullCache(at, max);
    forall i: nat ensures Known(o, Full(at, max), i) { FullKnown(o, at, max, i); }
  }

  lemma FullKnown(o: Options, at: nat, max: nat, i: nat)
    ensures Known(o, Full(at, max), i)
  {
    if i < max { assert Full(at, max).log[i].value == Id(at, i); }
  }

  lemma FullCache(at: nat, max: nat)
    ensures CacheIsTrue(Full(at, max))
  {
    var ids, indexes := Ids(at, max), Indexes(at, max);
    forall i, j | 0 <= i < j < max ensures ids[i] != ids[j] { TallyLength(i); TallyLength(j); }
    forall rid | rid in indexes ensures Holds(Entries(at, max), indexes[rid], rid) {
      var i :| 0 <= i < max && ids[i] == rid;
      assert rid == Id(at, i);
    }
  }

  lemma RunMore(o: Options, s: Leader, steps: seq<Step>, step: Step)
    ensures Run(o, s, steps + [step]) == After(o, Run(o, s, steps), step)
  {
    assert (steps + [step])[..|steps|] == steps;
  }

  // One more id is written and the oldest is pushed out of the cache.
  lemma Overflow(o: Options, s: Leader, rid: Rid)
    requires s.writing == [] && s.waiting == map[] && s.lastApplied == 0
    requires rid !in s.cache && CheckSanity(o, s.now, rid) == Fresh && !Expired(o, s.now, rid)
    requires s.order != [] && o.cacheMax == Some(|s.order|)
    requires forall i :: 0 <= i < |s.order| ==> !Expired(o, s.now, s.order[i])
    ensures var t := Cleaned(o, Written(o, Requested(o, s, rid)));
            && t.log == s.log + [Some(rid)] && t.writing == [] && t.now == s.now
            && t.waiting == map[rid := Some(|s.log| + 1)]
            && s.order[0] !in t.cache
  {
    var u := Written(o, Requested(o, s, rid));
    assert u.order == s.order + [rid];
    assert Forgotten(o, s.now, u.order) == 1 by {
      assert !Expired(o, s.now, u.order[1]);
      assert u.order[1..][0] == u.order[1];
    }
    assert u.order[..1] == [s.order[0]];
  }

  // An id that was forgotten while it was fresh is written again.
  lemma WrittenAgain(o: Options, t: Leader, rid: Rid)
    requires t.writing == [] && rid !in t.waiting && rid !in t.cache
    requires CheckSanity(o, t.now, rid) == Fresh
    ensures Written(o, Requested(o, t, rid)).log == t.log + [Some(rid)]
  {
  }

  lemma ThreeSteps(o: Options, s: Leader, a: Step, b: Step, c: Step)
    ensures Run(o, s, [a, b, c]) == After(o, After(o, After(o, s, a), b), c)
  {
    assert [a, b, c] == [a, b] + [c] && [a, b] == [a] + [b] && [a] == [] + [a];
    RunMore(o, s, [], a);
    RunMore(o, s, [a], b);
    RunMore(o, s, [a, b], c);
  }

  lemma FullMisses(at: nat, max: nat)
    requires max > 0
    ensures Id(at, max) !in Full(at, max).cache && Id(at, 0) != Id(at, max)
  {
    TallyLength(max);
    TallyLength(0);
    if Id(at, max) in Ids(at, max) {
      var i :| 0 <= i < max && Ids(at, max)[i] == Id(at, max);
      TallyLength(i);
    }
  }

  ghost function Retry(rid: Rid, again: Rid): seq<Step> { [Request(rid), Write, CleanUp, Request(again), Write] }

  lemma OverflowAndRetry(o: Options, s: Leader, rid: Rid)
    requires s.writing == [] && s.waiting == map[] && s.lastApplied == 0
    requires rid !in s.cache && CheckSanity(o, s.now, rid) == Fresh && !Expired(o, s.now, rid)
    requires s.order != [] && o.cacheMax == Some(|s.order|)
    requires forall i :: 0 <= i < |s.order| ==> !Expired(o, s.now, s.order[i])
    requires CheckSanity(o, s.now, s.order[0]) == Fresh && s.order[0] != rid
    ensures Run(o, s, Retry(rid, s.order[0])).log == s.log + [Some(rid)] + [Some(s.order[0])]
  {
    Overflow(o, s, rid);
    WrittenAgain(o, Cleaned(o, Written(o, Requested(o, s, rid))), s.order[0]);
    RetryIs(o, s, rid, s.order[0]);
  }

  lemma RetryIs(o: Options, s: Leader, rid: Rid, again: Rid)
    ensures var t := Cleaned(o, Written(o, Requested(o, s, rid)));
            Run(o, s, Retry(rid, again)) == Written(o, Requested(o, t, again))
  {
    ThreeSteps(o, s, Request(rid), Write, CleanUp);
    RunMore(o, s, [Request(rid), Write, CleanUp], Request(again));
    RunMore(o, s, [Request(rid), Write, CleanUp, Request(again)], Write);
    assert [Request(rid), Write, CleanUp] + [Request(again)] == [Request(rid), Write, CleanUp, Request(again)];
    assert Retry(rid, again) == [Request(rid), Write, CleanUp, Request(again)] + [Write];
  }

  lemma LimitedCacheForgets(o: Options, max: nat)
    requires o.cacheMax == Some(max) && max > 0
    ensures var s := Full(o.margin, max);
            && Starts(o, s) && |s.log| == max
            && !NewIdsAreUnique(Run(o, s, Retry(Id(o.margin, max), Id(o.margin, 0))).log, max)
  {
    FullStarts(o, o.margin, max);
    Repeats(o, max);
    var log := Run(o, Full(o.margin, max), Retry(Id(o.margin, max), Id(o.margin, 0))).log;
    assert log[0] == Some(Id(o.margin, 0)) == log[max + 1];
  }

  // The ids of that moment are neither too old nor too new, whatever the options are.
  lemma FreshIds(o: Options, i: nat)
    ensures CheckSanity(o, o.margin * 999, Id(o.margin, i)) == Fresh && !Expired(o, o.margin * 999, Id(o.margin, i))
  {
  }

  lemma Repeats(o: Options, max: nat)
    requires o.cacheMax == Some(max) && max > 0
    ensures Run(o, Full(o.margin, max), Retry(Id(o.margin, max), Id(o.margin, 0))).log
         == Entries(o.margin, max) + [Some(Id(o.margin, max))] + [Some(Id(o.margin, 0))]
  {
    FullMisses(o.margin, max);
    var s := Full(o.margin, max);
    FreshIds(o, max);
    FreshIds(o, 0);
    forall i | 0 <= i < |s.order| ensures !Expired(o, s.now, s.order[i]) { FreshIds(o, i); }
    OverflowAndRetry(o, s, Id(o.margin, max));
  }

  // So ids are appended once in every run exactly when the size of the cache is not
  // limited.
  lemma OnceIffUnlimited(o: Options)
    requires o.cacheMax.Some? ==> o.cacheMax.value > 0
    ensures o.cacheMax.None? <==>
      forall s, steps {:trigger Run(o, s, steps)} :: Starts(o, s) ==> NewIdsAreUnique(Run(o, s, steps).log, |s.log|)
  {
    if o.cacheMax.None? {
      forall s, steps | Starts(o, s) ensures NewIdsAreUnique(Run(o, s, steps).log, |s.log|) {
        EveryRun(o, s, steps);
      }
    } else {
      var s := Full(o.margin, o.cacheMax.value);
      LimitedCacheForgets(o, o.cacheMax.value);
      assert !NewIdsAreUnique(Run(o, s, Retry(Id(o.margin, |s.log|), Id(o.margin, 0))).log, |s.log|);
    }
  }

  // ---------- The class ----------

  // Those served when `rest` was not looked at yet.
  ghost function ServedBut(waiting: map<Rid, Option<nat>>, upTo: nat, rest: set<Rid>): (served: set<Rid>)
    ensures forall rid :: rid in served ==> rid in waiting && waiting[rid].Some?
  {
    Served(waiting, upTo) - rest
  }

  // How far the loop over the waiting requests has come.
  ghost predicate Serving(s: Leader, upTo: nat, rest: set<Rid>, waiting: map<Rid, Option<nat>>, replies: set<Reply>) {
    && rest <= s.waiting.Keys
    && waiting == s.waiting - ServedBut(s.waiting, upTo, rest)
    && replies == s.replies + Answers(s.waiting, ServedBut(s.waiting, upTo, rest))
  }

  lemma ServeOne(s: Leader, upTo: nat, rest: set<Rid>, waiting: map<Rid, Option<nat>>, replies: set<Reply>, rid: Rid)
    requires Serving(s, upTo, rest, waiting, replies) && rid in rest
    ensures rid in waiting
    ensures if waiting[rid].Some? && waiting[rid].value <= upTo then
              Serving(s, upTo, rest - {rid}, waiting - {rid}, replies + {Applied(rid, waiting[rid].value)})
            else Serving(s, upTo, rest - {rid}, waiting, replies)
  {
    var before := ServedBut(s.waiting, upTo, rest);
    var after := ServedBut(s.waiting, upTo, rest - {rid});
    if s.waiting[rid].Some? && s.waiting[rid].value <= upTo {
      assert after == before + {rid};
      assert Answers(s.waiting, after) == Answers(s.waiting, before) + {Applied(rid, s.waiting[rid].value)};
    } else {
      assert after == before;
    }
  }

  lemma ServedAll(s: Leader, upTo: nat, waiting: map<Rid, Option<nat>>, replies: set<Reply>)
    requires s.lastApplied < upTo <= |s.log|
    requires Serving(s, upTo, {}, waiting, replies)
    ensures AppliedUpTo(s, upTo) == s.(lastApplied := upTo, waiting := waiting, replies := replies)
  {
    assert ServedBut(s.waiting, upTo, {}) == Served(s.waiting, upTo);
  }

  // The part of the peer and of its log that takes part.
  class UpdateHandler {
    const options: Options
    var log: seq<Option<Rid>>
    var writing: seq<Rid>
    var waiting: map<Rid, Option<nat>>
    var order: seq<Rid>
    var cache: map<Rid, nat>
    var lastApplied: nat
    var now: nat
    ghost var replies: set<Reply>

    ghost function View(): Leader
      reads this
    {
      Leader(log, writing, waiting, order, cache, lastApplied, now, replies)
    }

    method RequestUpdate(rid: Rid) returns (reply: Reply)
      modifies this
      ensures View() == Requested(options, old(View()), rid) && reply == ReplyTo(options, old(View()), rid)
      ensures rid !in old(waiting) && rid !in old(cache) ==>
                if options.ttl.None? || now - (options.ttl.value - options.margin) <= rid.seconds * 1000 <= now + options.margin
                then reply == Accepted(rid) && writing == old(writing) + [rid] && waiting == old(waiting)[rid := None]
                else reply == Refused(rid) && View() == old(View()).(replies := replies)
    {
      if rid in waiting {
        reply := Accepted(rid);
      } else if rid !in cache {
        if CheckSanity(options, now, rid) != Fresh {
          reply := Refused(rid);
        } else {
          waiting := waiting[rid := None];
          writing := writing + [rid];
          reply := Accepted(rid);
        }
      } else if cache[rid] <= lastApplied {
        reply := Applied(rid, cache[rid]);
      } else {
        waiting := waiting[rid := Some(cache[rid])];
        reply := Accepted(rid);
      }
      replies := replies + {reply};
    }

    // The log has written the oldest entry that waits for it.
    method AppendState()
      requires writing != []
      modifies this
      ensures View() == Written(options, old(View()))
    {
      var rid := writing[0];
      var index := |log| + 1;
      log := log + [Some(rid)];
      writing := writing[1..];
      if !Expired(options, now, rid) {
        if rid !in cache { order := order + [rid]; }
        cache := cache[rid := index];
      }
      if index <= lastApplied {
        waiting := waiting - {rid};
        replies := replies + {Applied(rid, index)};
      } else {
        waiting := waiting[rid := Some(index)];
      }
    }

    method ApplyToStateMachine(commitIndex: nat)
      requires commitIndex <= |log|
      modifies this
      ensures View() == AppliedUpTo(old(View()), commitIndex)
    {
      if lastApplied + 1 > commitIndex { return; }
      ghost var before := View();
      lastApplied := commitIndex;
      var rest := waiting.Keys;
      assert ServedBut(waiting, commitIndex, rest) == {};
      while rest != {}
        modifies this`waiting, this`replies
        invariant Serving(before, commitIndex, rest, waiting, replies)
        decreases |rest|
      {
        var rid :| rid in rest;
        ServeOne(before, commitIndex, rest, waiting, replies, rid);
        if waiting[rid].Some? && waiting[rid].value <= commitIndex {
          replies := replies + {Applied(rid, waiting[rid].value)};
          waiting := waiting - {rid};
        }
        rest := rest - {rid};
      }
      ServedAll(before, commitIndex, waiting, replies);
    }

    method CleanUpCache()
      modifies this`order, this`cache
      ensures View() == Cleaned(options, old(View()))
    {
      ghost var first := order;
      ghost var known := cache;
      ghost var n := Forgotten(options, now, first);
      ghost var k := 0;
      while order != [] && (Expired(options, now, order[0])
                            || (options.cacheMax.Some? && |order| > options.cacheMax.value))
        invariant k <= n && order == first[k..]
        invariant n == k + Forgotten(options, now, order)
        invariant cache == known - (set rid | rid in first[..k])
        decreases |order|
      {
        assert first[..k + 1] == first[..k] + [order[0]];
        cache := cache - {order[0]};
        order := order[1..];
        k := k + 1;
      }
    }
  }
}
