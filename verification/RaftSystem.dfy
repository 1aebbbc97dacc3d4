// The cluster as a step system. Every step is one event at one peer: a timer, a
// request or a reply that arrives, a client's update, the state machine catching
// up, or a crash followed by a restart.
//
// The network is lossy and repeats requests. A packet once sent may be delivered
// any number of times or never; but a connection is FIFO, so the ids delivered on
// one connection never decrease. A reset gives the socket a new connection, and
// packets of an old connection may still arrive long after it is gone.
module RaftSystem {
  import opened Wrappers
  import opened Sealing
  import opened Quorum
  import opened RaftPeer

  datatype Conn = Conn(src: PeerId, dst: PeerId, ident: nat)

  datatype Packet = Packet(conn: Conn, id: nat, req: Request)

  datatype Answer = Answer(conn: Conn, id: nat, resp: Response)

  // `high` is the largest id delivered on a connection so far, `clock` counts the
  // steps and numbers new connections.
  datatype System = System(
    peers: map<PeerId, Peer>,
    sent: set<Packet>,
    answers: set<Answer>,
    high: map<Conn, nat>,
    clock: nat)

  datatype Step =
    | Timeout(me: PeerId)
    | DeliverRequest(packet: Packet)
    | DeliverAnswer(answer: Answer)
    | Replicate(me: PeerId, follower: PeerId, count: nat)
    | ClientUpdate(me: PeerId, data: int)
    | ApplyLog(me: PeerId, upTo: nat)
    | Crash(me: PeerId, applied: nat)

  function HighOf(s: System, conn: Conn): nat {
    if conn in s.high then s.high[conn] else 0
  }

  // FIFO: what may still arrive on the packet's connection.
  predicate Deliverable(s: System, pk: Packet) {
    pk in s.sent && HighOf(s, pk.conn) <= pk.id
  }

  function Actor(step: Step): PeerId {
    match step
    case DeliverRequest(pk) => pk.conn.dst
    case DeliverAnswer(a) => a.conn.src
    case _ => step.me
  }

  // The bounce cache holds this very request.
  predicate Bounced(p: Peer, pk: Packet) {
    && pk.conn.src in p.cache
    && p.cache[pk.conn.src].id == pk.id
    && p.cache[pk.conn.src].ident == pk.conn.ident
  }

  // A reply resolves the pending request of its own connection and id only.
  predicate Awaited(p: Peer, a: Answer) {
    && a.conn.dst in p.rpcs
    && p.rpcs[a.conn.dst].pending.Some?
    && p.rpcs[a.conn.dst].ident == a.conn.ident
    && p.rpcs[a.conn.dst].lastId == a.id
  }

  predicate Enabled(st: Setup, s: System, step: Step) {
    && Actor(step) in s.peers
    && var p := s.peers[Actor(step)];
    && (p.panicked ==> step.Crash?)
    && match step
       case Timeout(_) => p.role != Leader
       case DeliverRequest(pk) => Deliverable(s, pk)
       case DeliverAnswer(a) =>
         a in s.answers && Awaited(p, a)
         && a.resp.VoteResponse? == p.rpcs[a.conn.dst].pending.value.VoteRequest?
       case Replicate(_, f, count) => CanSendAppend(p, f, count)
       case ClientUpdate(_, _) => p.role == Leader
       case ApplyLog(_, upTo) => p.lastApplied < upTo <= p.commitIndex
       case Crash(_, applied) => applied <= p.lastApplied
  }

  // What one peer does in a step: its next state and the reply it sends, if any.
  datatype Outcome = Outcome(peer: Peer, reply: Option<Response>)

  ghost function Deliver(st: Setup, p: Peer, pk: Packet, ident: nat): Outcome {
    match pk.req
    case VoteRequest(_, _, _) =>
      var (q, resp) := OnVoteRequest(st, p, pk.conn.src, pk.req, ident);
      Outcome(q, Some(resp))
    case AppendRequest(_, _, _, _, _) =>
      if Bounced(p, pk) then
        Outcome(p, p.cache[pk.conn.src].lastReplied)
      else
        var (q, resp) := OnAppendRequest(p, pk.req, ident);
        Outcome(q.(cache := q.cache[pk.conn.src := CacheEntry(pk.conn.ident, pk.id, resp)]), resp)
  }

  ghost function Receive(st: Setup, me: PeerId, p: Peer, a: Answer, ident: nat): Peer
    requires Awaited(p, a)
    requires a.resp.VoteResponse? == p.rpcs[a.conn.dst].pending.value.VoteRequest?
  {
    var f := a.conn.dst;
    var sent := p.rpcs[f].pending.value;
    var q := p.(rpcs := p.rpcs[f := p.rpcs[f].(pending := None)]);
    match a.resp
    case VoteResponse(term, granted) => OnVoteResponse(st, me, q, f, sent.term, term, granted, ident)
    case AppendResponse(term, success, conflict) =>
      OnAppendResponse(st, me, q, f, sent, term, success, conflict, ident)
  }

  ghost function Act(st: Setup, s: System, step: Step): Outcome
    requires Enabled(st, s, step)
  {
    var me, p := Actor(step), s.peers[Actor(step)];
    match step
    case Timeout(_) => Outcome(OnElectionTimeout(st, me, p, s.clock), None)
    case DeliverRequest(pk) => Deliver(st, p, pk, s.clock)
    case DeliverAnswer(a) => Outcome(Receive(st, me, p, a, s.clock), None)
    case Replicate(_, f, count) => Outcome(SendAppend(p, f, count), None)
    case ClientUpdate(_, data) => Outcome(ClientAppend(st, me, p, data), None)
    case ApplyLog(_, upTo) => Outcome(p.(lastApplied := upTo), None)
    case Crash(_, applied) => Outcome(Restart(st, me, p, applied, s.clock), None)
  }

  // The packets a peer keeps sending: one for each pending request.
  function PendingPackets(me: PeerId, p: Peer): set<Packet> {
    set f | f in p.rpcs && p.rpcs[f].pending.Some? ::
      Packet(Conn(me, f, p.rpcs[f].ident), p.rpcs[f].lastId, p.rpcs[f].pending.value)
  }

  lemma InFlight(me: PeerId, p: Peer, f: PeerId)
    requires f in p.rpcs && p.rpcs[f].pending.Some?
    ensures Packet(Conn(me, f, p.rpcs[f].ident), p.rpcs[f].lastId, p.rpcs[f].pending.value) in PendingPackets(me, p)
  {
  }

  function Replies(step: Step, reply: Option<Response>): set<Answer> {
    if step.DeliverRequest? && reply.Some?
    then {Answer(step.packet.conn, step.packet.id, reply.value)}
    else {}
  }

  ghost function Next(st: Setup, s: System, step: Step): System
    requires Enabled(st, s, step)
  {
    var me, out := Actor(step), Act(st, s, step);
    System(s.peers[me := out.peer],
           s.sent + PendingPackets(me, out.peer),
           s.answers + Replies(step, out.reply),
           if step.DeliverRequest? then s.high[step.packet.conn := step.packet.id] else s.high,
           s.clock + 1)
  }

  predicate ValidSetup(st: Setup) { st.cfg.Valid() }

  ghost function NewPeers(st: Setup, s: set<PeerId>): (m: map<PeerId, Peer>)
    ensures m.Keys == s && forall x :: x in m ==> m[x] == NewPeer(st, x)
  {
    if s == {} then map[] else var x :| x in s; NewPeers(st, s - {x})[x := NewPeer(st, x)]
  }

  ghost function Init(st: Setup): System {
    System(NewPeers(st, st.cfg.Members()), {}, {}, map[], 1)
  }

  // ---------- Runs ----------

  // A run is a list of steps, each enabled where it is taken.
  ghost predicate IsRun(st: Setup, s: System, steps: seq<Step>)
    decreases |steps|
  {
    steps == [] || (Enabled(st, s, steps[0]) && IsRun(st, Next(st, s, steps[0]), steps[1..]))
  }

  ghost function After(st: Setup, s: System, steps: seq<Step>): System
    requires IsRun(st, s, steps)
    decreases |steps|
  {
    if steps == [] then s else After(st, Next(st, s, steps[0]), steps[1..])
  }

  // A run may go on by any step that is enabled at its end.
  lemma {:induction false} Snoc(st: Setup, s: System, steps: seq<Step>, step: Step)
    requires IsRun(st, s, steps) && Enabled(st, After(st, s, steps), step)
    ensures IsRun(st, s, steps + [step])
    ensures After(st, s, steps + [step]) == Next(st, After(st, s, steps), step)
    decreases |steps|
  {
    if steps == [] {
      assert [step][1..] == [];
    } else {
      Snoc(st, Next(st, s, steps[0]), steps[1..], step);
      Rest(steps, step);
    }
  }

  lemma Rest(steps: seq<Step>, step: Step)
    requires steps != []
    ensures (steps + [step])[0] == steps[0] && (steps + [step])[1..] == steps[1..] + [step]
  {
  }

  // The steps lead from one state to the other.
  ghost predicate RunsTo(st: Setup, s: System, steps: seq<Step>, z: System) {
    IsRun(st, s, steps) && After(st, s, steps) == z
  }

  lemma RunsFurther(st: Setup, s: System, steps: seq<Step>, z: System, step: Step)
    requires RunsTo(st, s, steps, z) && Enabled(st, z, step)
    ensures RunsTo(st, s, steps + [step], Next(st, z, step))
  {
    Snoc(st, s, steps, step);
  }

  // The same, sealed.
  ghost predicate Route(st: Setup, s: System, steps: seq<Step>, z: System) {
    forall key {:trigger Turns(key)} :: Turns(key) ==> RunsTo(st, s, steps, z)
  }

  lemma Cons(st: Setup, s: System, step: Step, rest: seq<Step>, z: System)
    requires Enabled(st, s, step) && Route(st, Next(st, s, step), rest, z)
    ensures Route(st, s, [step] + rest, z)
  {
    assert Turns(TheKey);
    assert ([step] + rest)[1..] == rest;
  }

  lemma Uncons(st: Setup, s: System, steps: seq<Step>, z: System)
    requires steps != [] && Route(st, s, steps, z)
    ensures Enabled(st, s, steps[0]) && Route(st, Next(st, s, steps[0]), steps[1..], z)
  {
    assert Turns(TheKey);
  }

  lemma {:induction false} RoutesJoin(st: Setup, s: System, a: seq<Step>, y: System, b: seq<Step>, z: System)
    requires Route(st, s, a, y) && Route(st, y, b, z)
    ensures Route(st, s, a + b, z)
    decreases |a|
  {
    if a == [] {
      Stays(st, s, a, y);
      assert a + b == b;
    } else {
      Uncons(st, s, a, y);
      RoutesJoin(st, Next(st, s, a[0]), a[1..], y, b, z);
      Cons(st, s, a[0], a[1..] + b, z);
      assert [a[0]] + (a[1..] + b) == a + b;
    }
  }

  lemma Stays(st: Setup, s: System, steps: seq<Step>, z: System)
    requires steps == [] && Route(st, s, steps, z)
    ensures s == z
  {
    assert Turns(TheKey);
  }
}
