// The journal in which a peer keeps its term, its vote and its configuration: a file
// of records, each of which overrides some properties. An update adds a record, or,
// when the file is large or cannot be trusted, replaces it with one full record.
module FilePersistence {

  const THRESHOLD_SIZE_NEW_FILE: nat := 512 * 1024

  type Props = map<string, string>

  // What the file holds: whole records, and the first bytes of a record whose writing
  // was cut short. Bytes that come after a torn record are read as a part of it.
  datatype Piece = Whole(data: Props, bytes: nat) | Torn(bytes: nat)

  type Journal = seq<Piece>

  ghost predicate Clean(file: Journal) { forall i :: 0 <= i < |file| ==> file[i].Whole? }

  // Only the end of the file is torn, so that every whole record can be read.
  ghost predicate Readable(file: Journal) { file == [] || Clean(file[..|file| - 1]) }

  function Bytes(file: Journal): nat {
    if file == [] then 0 else Bytes(file[..|file| - 1]) + file[|file| - 1].bytes
  }

  // The records applied in order over the defaults.
  function Replay(defaults: Props, file: Journal): Props {
    if file == [] then defaults
    else
      var before := Replay(defaults, file[..|file| - 1]);
      match file[|file| - 1]
      case Whole(data, _) => before + data
      case Torn(_) => before
  }

  // The properties that have a default; others are dropped.
  function Validate(defaults: Props, data: Props): Props { data - (data.Keys - defaults.Keys) }

  function Recovered(defaults: Props, file: Journal): Props { Validate(defaults, Replay(defaults, file)) }

  // ---------- A store and what may happen to it ----------

  // The last `unsynced` records were not yet forced to the disk. `live` tells that the
  // open stream appends to the file itself, rather than to a temporary file that never
  // took its name.
  datatype Store = Store(
    file: Journal,
    unsynced: nat,
    up: bool,
    props: Props,
    byteSize: nat,
    live: bool)

  // How an update ends: it is acknowledged, it fails, or the process dies. In the last
  // two cases only the first `landed` bytes of the chunk took effect.
  datatype Fate = Done | Fails(landed: nat) | Dies(landed: nat)

  datatype Event = Update(data: Props, bytes: nat, fate: Fate) | PowerLoss(kept: nat, torn: nat) | Reopen

  // The file once the first `landed` of `bytes` bytes were added to it.
  function Extended(file: Journal, data: Props, bytes: nat, landed: nat): Journal {
    if landed >= bytes then file + [Whole(data, bytes)]
    else if landed > 0 then file + [Torn(landed)]
    else file
  }

  function Appended(defaults: Props, s: Store, given: Props, bytes: nat, fate: Fate): Store {
    var data := Validate(defaults, given);
    match fate
    case Done =>
      s.(file := if s.live then s.file + [Whole(data, bytes)] else s.file, unsynced := 0,
         props := s.props + data, byteSize := s.byteSize + bytes)
    case Fails(landed) =>
      s.(file := if s.live then Extended(s.file, data, bytes, landed) else s.file, unsynced := if landed > 0 then s.unsynced + 1 else s.unsynced,
         props := if landed >= bytes then s.props + data else s.props, byteSize := THRESHOLD_SIZE_NEW_FILE)
    case Dies(landed) =>
      s.(file := if s.live then Extended(s.file, data, bytes, landed) else s.file, unsynced := if landed > 0 then s.unsynced + 1 else s.unsynced, up := false)
  }

  // The full record is written to a temporary file and forced to the disk before that
  // file takes the name of the journal, at once.
  function Rotated(defaults: Props, s: Store, given: Props, bytes: nat, fate: Fate): Store {
    var data := s.props + Validate(defaults, given);
    match fate
    case Done =>
      s.(file := [Whole(data, bytes)], unsynced := 0, props := data, byteSize := bytes, live := true)
    case Fails(landed) =>
      s.(file := if landed >= bytes then [Whole(data, bytes)] else s.file,
         unsynced := if landed >= bytes then 0 else s.unsynced,
         byteSize := THRESHOLD_SIZE_NEW_FILE, live := landed >= bytes)
    case Dies(landed) =>
      s.(file := if landed >= bytes then [Whole(data, bytes)] else s.file,
         unsynced := if landed >= bytes then 0 else s.unsynced, up := false)
  }

  function Updated(defaults: Props, s: Store, data: Props, bytes: nat, fate: Fate): Store {
    if s.byteSize >= THRESHOLD_SIZE_NEW_FILE then Rotated(defaults, s, data, bytes, fate)
    else Appended(defaults, s, data, bytes, fate)
  }

  // The machine stops: of what was not forced to the disk, a first part is left.
  function Lost(s: Store, kept: nat, torn: nat): Store {
    if |s.file| - s.unsynced <= kept < |s.file| then
      s.(file := if torn > 0 then s.file[..kept] + [Torn(torn)] else s.file[..kept], unsynced := 0, up := false)
    else
      s.(unsynced := 0, up := false)
  }

  function Opened(defaults: Props, s: Store): Store {
    s.(up := true, props := Recovered(defaults, s.file), live := true,
       byteSize := if s.file != [] && s.file[|s.file| - 1].Torn? then THRESHOLD_SIZE_NEW_FILE else Bytes(s.file))
  }

  // What does not apply in a state leaves it alone.
  function After(defaults: Props, s: Store, event: Event): Store {
    match event
    case Update(data, bytes, fate) => if s.up && bytes > 0 then Updated(defaults, s, data, bytes, fate) else s
    case PowerLoss(kept, torn) => Lost(s, kept, torn)
    case Reopen => if s.up then s else Opened(defaults, s)
  }

  // ---------- What the callers asked for ----------

  datatype Request = Request(data: Props, acknowledged: bool)

  // Of what was given, the properties that have a default.
  ghost function Known(defaults: Props, data: Props): Props { map k | k in data && k in defaults :: data[k] }

  lemma ValidIsKnown(defaults: Props, data: Props)
    ensures Validate(defaults, data) == Known(defaults, data)
  {
  }

  ghost function Asked(defaults: Props, s: Store, event: Event): seq<Request> {
    match event
    case Update(data, bytes, fate) =>
      if s.up && bytes > 0 then [Request(Known(defaults, data), fate.Done?)] else []
    case _ => []
  }

  // The state that the chosen ones among the requests lead to.
  ghost function Effect(first: Props, asked: seq<Request>, chosen: seq<bool>): Props
    requires |asked| == |chosen|
  {
    if asked == [] then first
    else
      var n := |asked| - 1;
      var before := Effect(first, asked[..n], chosen[..n]);
      if chosen[n] then before + asked[n].data else before
  }

  ghost predicate Explains(first: Props, asked: seq<Request>, chosen: seq<bool>, props: Props) {
    && |chosen| == |asked|
    && (forall i :: 0 <= i < |asked| && asked[i].acknowledged ==> chosen[i])
    && props == Effect(first, asked, chosen)
  }

  // The properties are those that the requests lead to, in order, each of them taken
  // whole or not at all, and every acknowledged one taken.
  ghost predicate Explained(first: Props, asked: seq<Request>, props: Props) {
    exists chosen :: Explains(first, asked, chosen, props)
  }

  lemma Extend(first: Props, asked: seq<Request>, props: Props, r: Request, taken: bool)
    requires Explained(first, asked, props)
    requires r.acknowledged ==> taken
    ensures Explained(first, asked + [r], if taken then props + r.data else props)
  {
    var chosen :| Explains(first, asked, chosen, props);
    assert (asked + [r])[..|asked|] == asked && (chosen + [taken])[..|asked|] == chosen;
    assert Explains(first, asked + [r], chosen + [taken], if taken then props + r.data else props);
  }

  // ---------- Reading back ----------

  lemma ReplayAppend(defaults: Props, file: Journal, piece: Piece)
    ensures Replay(defaults, file + [piece])
         == if piece.Whole? then Replay(defaults, file) + piece.data else Replay(defaults, file)
  {
    assert (file + [piece])[..|file|] == file;
  }

  lemma RecoveredAppend(defaults: Props, file: Journal, data: Props, bytes: nat)
    requires data.Keys <= defaults.Keys
    ensures Recovered(defaults, file + [Whole(data, bytes)]) == Recovered(defaults, file) + data
  {
    ReplayAppend(defaults, file, Whole(data, bytes));
  }

  lemma RecoveredTorn(defaults: Props, file: Journal, bytes: nat)
    ensures Recovered(defaults, file + [Torn(bytes)]) == Recovered(defaults, file)
  {
    ReplayAppend(defaults, file, Torn(bytes));
  }

  // A full record needs nothing before it.
  lemma RecoveredFull(defaults: Props, data: Props, bytes: nat)
    requires data.Keys == defaults.Keys
    ensures Recovered(defaults, [Whole(data, bytes)]) == data
  {
    ReplayAppend(defaults, [], Whole(data, bytes));
    assert [] + [Whole(data, bytes)] == [Whole(data, bytes)];
    assert defaults + data == data;
  }

  lemma {:induction false} RecoveredKeys(defaults: Props, file: Journal)
    ensures defaults.Keys <= Replay(defaults, file).Keys
    ensures Recovered(defaults, file).Keys == defaults.Keys
  {
    if file != [] { RecoveredKeys(defaults, file[..|file| - 1]); }
  }

  // ---------- What every event keeps ----------

  // Appending is only possible to a file that is whole and that says what is in memory.
  ghost predicate Sound(defaults: Props, s: Store) {
    && Readable(s.file)
    && (s.up ==> s.props.Keys == defaults.Keys)
    && (s.up && s.byteSize < THRESHOLD_SIZE_NEW_FILE ==>
          s.live && Clean(s.file) && s.props == Recovered(defaults, s.file) && s.byteSize == Bytes(s.file))
  }

  // Whatever a loss of power may leave of the file is accounted for.
  ghost predicate Survives(defaults: Props, first: Props, asked: seq<Request>, s: Store, kept: nat) {
    kept <= |s.file| && Explained(first, asked, Recovered(defaults, s.file[..kept]))
  }

  ghost predicate Accounted(defaults: Props, first: Props, asked: seq<Request>, s: Store) {
    && (s.up ==> Explained(first, asked, s.props))
    && (forall kept: nat {:trigger Survives(defaults, first, asked, s, kept)} ::
          |s.file| - s.unsynced <= kept <= |s.file| ==> Survives(defaults, first, asked, s, kept))
  }

  lemma SoundAfterRotate(defaults: Props, s: Store, data: Props, bytes: nat, fate: Fate)
    requires Sound(defaults, s) && s.up && bytes > 0
    ensures Sound(defaults, Rotated(defaults, s, data, bytes, fate))
    ensures fate.Done? ==>
      var t := Rotated(defaults, s, data, bytes, fate);
      t.props == s.props + Validate(defaults, data) == Recovered(defaults, t.file) && Clean(t.file)
  {
    RecoveredFull(defaults, s.props + Validate(defaults, data), bytes);
    MoreBytes([], Whole(s.props + Validate(defaults, data), bytes));
  }

  lemma SoundAfterAppend(defaults: Props, s: Store, data: Props, bytes: nat, fate: Fate)
    requires Sound(defaults, s) && s.up && bytes > 0 && s.byteSize < THRESHOLD_SIZE_NEW_FILE
    ensures Sound(defaults, Appended(defaults, s, data, bytes, fate))
    ensures fate.Done? ==>
      var t := Appended(defaults, s, data, bytes, fate);
      t.props == s.props + Validate(defaults, data) == Recovered(defaults, t.file) && Clean(t.file)
  {
    RecoveredAppend(defaults, s.file, Validate(defaults, data), bytes);
    MoreBytes(s.file, Whole(Validate(defaults, data), bytes));
    var t := Appended(defaults, s, data, bytes, fate);
    if |t.file| > |s.file| { assert t.file[..|t.file| - 1] == s.file; }
  }

  lemma SoundAfterUpdate(defaults: Props, s: Store, data: Props, bytes: nat, fate: Fate)
    requires Sound(defaults, s) && s.up && bytes > 0
    ensures Sound(defaults, Updated(defaults, s, data, bytes, fate))
    ensures fate.Done? ==>
      var t := Updated(defaults, s, data, bytes, fate);
      t.props == s.props + Validate(defaults, data) == Recovered(defaults, t.file) && Clean(t.file)
  {
    if s.byteSize >= THRESHOLD_SIZE_NEW_FILE {
      SoundAfterRotate(defaults, s, data, bytes, fate);
    } else {
      SoundAfterAppend(defaults, s, data, bytes, fate);
    }
  }

  lemma SoundAfter(defaults: Props, s: Store, event: Event)
    requires Sound(defaults, s)
    ensures Sound(defaults, After(defaults, s, event))
  {
    match event
    case Update(data, bytes, fate) =>
      if s.up && bytes > 0 { SoundAfterUpdate(defaults, s, data, bytes, fate); }
    case PowerLoss(kept, torn) =>
      var t := Lost(s, kept, torn);
      if t.file != s.file && t.file != [] {
        assert t.file[..|t.file| - 1] == s.file[..|t.file| - 1];
      }
    case Reopen =>
      RecoveredKeys(defaults, s.file);
  }

  // What was already in the file is still accounted for when one more request is not
  // acknowledged.
  lemma StillSurvives(defaults: Props, first: Props, asked: seq<Request>, r: Request, s: Store, t: Store, kept: nat)
    requires Survives(defaults, first, asked, s, kept) && !r.acknowledged
    requires kept <= |t.file| && s.file[..kept] == t.file[..kept]
    ensures Survives(defaults, first, asked + [r], t, kept)
  {
    Extend(first, asked, Recovered(defaults, s.file[..kept]), r, false);
  }

  lemma WholeSurvives(defaults: Props, first: Props, asked: seq<Request>, s: Store)
    ensures Survives(defaults, first, asked, s, |s.file|) <==> Explained(first, asked, Recovered(defaults, s.file))
  {
    assert s.file[..|s.file|] == s.file;
  }

  lemma AccountedAfterUpdate(defaults: Props, first: Props, asked: seq<Request>, s: Store, data: Props, bytes: nat, fate: Fate)
    requires Sound(defaults, s) && Accounted(defaults, first, asked, s) && s.up && bytes > 0
    ensures Accounted(defaults, first, asked + [Request(Validate(defaults, data), fate.Done?)],
                      Updated(defaults, s, data, bytes, fate))
  {
    var valid := Validate(defaults, data);
    var r := Request(valid, fate.Done?);
    var t := Updated(defaults, s, data, bytes, fate);
    Extend(first, asked, s.props, r, true);
    if !fate.Done? { Extend(first, asked, s.props, r, false); }
    RecoveredFull(defaults, s.props + valid, bytes);
    forall kept: nat | |t.file| - t.unsynced <= kept <= |t.file|
      ensures Survives(defaults, first, asked + [r], t, kept)
    {
      if kept == |t.file| && (fate.Done? || t.file != s.file) {
        WholeSurvives(defaults, first, asked + [r], t);
        RecoveredAppend(defaults, s.file, valid, bytes);
        if !fate.Done? && fate.landed < bytes { RecoveredTorn(defaults, s.file, fate.landed); }
      } else {
        WholeSurvives(defaults, first, asked, s);
        assert Survives(defaults, first, asked, s, kept);
        StillSurvives(defaults, first, asked, r, s, t, kept);
      }
    }
  }

  lemma AccountedAfterLoss(defaults: Props, first: Props, asked: seq<Request>, s: Store, kept: nat, torn: nat)
    requires Accounted(defaults, first, asked, s)
    ensures Accounted(defaults, first, asked, Lost(s, kept, torn))
  {
    var t := Lost(s, kept, torn);
    WholeSurvives(defaults, first, asked, t);
    WholeSurvives(defaults, first, asked, s);
    assert Survives(defaults, first, asked, s, |s.file|);
    if t.file != s.file {
      assert Survives(defaults, first, asked, s, kept);
      RecoveredTorn(defaults, s.file[..kept], torn);
    }
  }

  lemma AccountedAfter(defaults: Props, first: Props, asked: seq<Request>, s: Store, event: Event)
    requires Sound(defaults, s) && Accounted(defaults, first, asked, s)
    ensures Accounted(defaults, first, asked + Asked(defaults, s, event), After(defaults, s, event))
  {
    assert asked + [] == asked;
    match event
    case Update(data, bytes, fate) =>
      ValidIsKnown(defaults, data);
      if s.up && bytes > 0 { AccountedAfterUpdate(defaults, first, asked, s, data, bytes, fate); }
    case PowerLoss(kept, torn) =>
      AccountedAfterLoss(defaults, first, asked, s, kept, torn);
    case Reopen =>
      if !s.up {
        var t := Opened(defaults, s);
        WholeSurvives(defaults, first, asked, s);
        assert Survives(defaults, first, asked, s, |s.file|);
        forall kept: nat | |t.file| - t.unsynced <= kept <= |t.file|
          ensures Survives(defaults, first, asked, t, kept)
        {
          assert Survives(defaults, first, asked, s, kept);
        }
      }
  }

  // ---------- Whole runs ----------

  // A store that was never open, over a file that was left by someone.
  function Found(file: Journal): Store { Store(file, 0, false, map[], 0, false) }

  function Run(defaults: Props, file: Journal, events: seq<Event>): Store {
    if events == [] then Found(file)
    else After(defaults, Run(defaults, file, events[..|events| - 1]), events[|events| - 1])
  }

  ghost function AskedIn(defaults: Props, file: Journal, events: seq<Event>): seq<Request> {
    if events == [] then []
    else
      var before := events[..|events| - 1];
      AskedIn(defaults, file, before) + Asked(defaults, Run(defaults, file, before), events[|events| - 1])
  }

  lemma {:induction false} EveryRun(defaults: Props, file: Journal, events: seq<Event>)
    requires Readable(file)
    ensures Sound(defaults, Run(defaults, file, events))
    ensures Accounted(defaults, Recovered(defaults, file), AskedIn(defaults, file, events), Run(defaults, file, events))
  {
    var first := Recovered(defaults, file);
    if events == [] {
      assert Explains(first, [], [], first);
      WholeSurvives(defaults, first, [], Found(file));
    } else {
      var before := events[..|events| - 1];
      EveryRun(defaults, file, before);
      var s := Run(defaults, file, before);
      SoundAfter(defaults, s, events[|events| - 1]);
      AccountedAfter(defaults, first, AskedIn(defaults, file, before), s, events[|events| - 1]);
    }
  }

  // In every run, with any number of failures, deaths and losses of power, reading the
  // file back gives what some of the updates lead to in the order they were asked for,
  // every acknowledged one among them, and the same is true of the state in memory.
  lemma NothingAcknowledgedIsLost(defaults: Props, file: Journal, events: seq<Event>)
    requires Readable(file)
    ensures var s := Run(defaults, file, events);
            var asked := AskedIn(defaults, file, events);
            && Explained(Recovered(defaults, file), asked, Recovered(defaults, s.file))
            && (s.up ==> Explained(Recovered(defaults, file), asked, s.props))
  {
    EveryRun(defaults, file, events);
    var s := Run(defaults, file, events);
    var asked := AskedIn(defaults, file, events);
    WholeSurvives(defaults, Recovered(defaults, file), asked, s);
    assert Survives(defaults, Recovered(defaults, file), asked, s, |s.file|);
  }

  // In every run the file stays readable: whatever comes after a torn record is a new file.
  lemma NothingFollowsATornRecord(defaults: Props, file: Journal, events: seq<Event>)
    requires Readable(file)
    ensures Readable(Run(defaults, file, events).file)
  {
    EveryRun(defaults, file, events);
  }

  // Each property that was given has the value that was given, each other one the value
  // that it had, and there is none that has no default.
  ghost predicate Took(defaults: Props, old_: Props, data: Props, new_: Props) {
    && old_.Keys == defaults.Keys && new_.Keys == defaults.Keys
    && forall k {:trigger new_[k]} :: k in defaults ==> new_[k] == if k in data then data[k] else old_[k]
  }

  lemma ValidIsTaken(defaults: Props, old_: Props, data: Props)
    requires old_.Keys == defaults.Keys
    ensures Took(defaults, old_, data, old_ + Validate(defaults, data))
  {
  }

  // When an update is acknowledged, in any run and whether or not a new file was written
  // for it, memory has taken it over, property by property, and so has the file: what is
  // read when the power is lost and the file is opened again, or when it is just opened
  // again, is the same.
  lemma AcknowledgedIsInTheFile(defaults: Props, file: Journal, events: seq<Event>, data: Props, bytes: nat, kept: nat, torn: nat)
    requires Readable(file) && Run(defaults, file, events).up && bytes > 0
    ensures var before := Run(defaults, file, events);
            var s := After(defaults, before, Update(data, bytes, Done));
            var again := After(defaults, After(defaults, s, PowerLoss(kept, torn)), Reopen);
            && Took(defaults, before.props, data, s.props)
            && (forall k :: k in defaults ==> k in Replay(defaults, s.file) && Replay(defaults, s.file)[k] == s.props[k])
            && again.up && again.props == s.props == Opened(defaults, s).props
  {
    EveryRun(defaults, file, events);
    var before := Run(defaults, file, events);
    SoundAfterUpdate(defaults, before, data, bytes, Done);
    ValidIsTaken(defaults, before.props, data);
    RecoveredIsReplayed(defaults, After(defaults, before, Update(data, bytes, Done)).file);
  }

  lemma RecoveredIsReplayed(defaults: Props, file: Journal)
    ensures forall k :: k in defaults ==>
              k in Replay(defaults, file) && k in Recovered(defaults, file) && Recovered(defaults, file)[k] == Replay(defaults, file)[k]
  {
    RecoveredKeys(defaults, file);
  }

  // An acknowledged update makes the file larger than the threshold by less than its own
  // record, or the file has no other record.
  lemma JournalStaysSmall(defaults: Props, file: Journal, events: seq<Event>, data: Props, bytes: nat)
    requires Readable(file) && Run(defaults, file, events).up && bytes > 0
    ensures var s := After(defaults, Run(defaults, file, events), Update(data, bytes, Done));
            |s.file| == 1 || Bytes(s.file) < 512 * 1024 + bytes
  {
    EveryRun(defaults, file, events);
    var s := Run(defaults, file, events);
    if s.byteSize < THRESHOLD_SIZE_NEW_FILE { MoreBytes(s.file, Whole(Validate(defaults, data), bytes)); }
  }

  lemma MoreBytes(file: Journal, piece: Piece)
    ensures Bytes(file + [piece]) == Bytes(file) + piece.bytes
  {
    assert (file + [piece])[..|file|] == file;
  }

  // An update that a death or a loss of power cuts short leaves the state from before it
  // or the state from after it, if the file said what was in memory when it began.
  lemma BeforeOrAfter(defaults: Props, s: Store, data: Props, bytes: nat, landed: nat, kept: nat, torn: nat)
    requires Sound(defaults, s) && s.up && bytes > 0
    requires s.unsynced == 0 && Recovered(defaults, s.file) == s.props
    ensures var t := After(defaults, s, Update(data, bytes, Dies(landed)));
            var killed := After(defaults, t, Reopen);
            var lost := After(defaults, After(defaults, t, PowerLoss(kept, torn)), Reopen);
            && killed.props in {s.props, s.props + Known(defaults, data)}
            && lost.props in {s.props, s.props + Known(defaults, data)}
  {
    var valid := Validate(defaults, data);
    ValidIsKnown(defaults, data);
    var t := After(defaults, s, Update(data, bytes, Dies(landed)));
    RecoveredFull(defaults, s.props + valid, bytes);
    RecoveredAppend(defaults, s.file, valid, bytes);
    RecoveredTorn(defaults, s.file, landed);
    var u := After(defaults, t, PowerLoss(kept, torn));
    if u.file != t.file {
      assert t.file[..kept] == s.file;
      RecoveredTorn(defaults, s.file, torn);
    }
  }

  // ---------- The class ----------

  // Reads the records of a file one after another over the defaults.
  method ReadAll(defaults: Props, file: Journal) returns (lastData: Props, byteSize: nat, unfinished: bool)
    ensures lastData == Replay(defaults, file) && byteSize == Bytes(file)
    ensures unfinished <==> file != [] && file[|file| - 1].Torn?
  {
    lastData, byteSize, unfinished := defaults, 0, false;
    var i := 0;
    while i < |file|
      invariant 0 <= i <= |file|
      invariant lastData == Replay(defaults, file[..i]) && byteSize == Bytes(file[..i])
      invariant unfinished <==> i > 0 && file[i - 1].Torn?
    {
      assert file[..i + 1][..i] == file[..i];
      if file[i].Whole? { lastData := lastData + file[i].data; }
      unfinished := file[i].Torn?;
      byteSize := byteSize + file[i].bytes;
      i := i + 1;
    }
    assert file[..|file|] == file;
  }

  class FilePersistence {
    const defaults: Props
    var file: Journal
    var unsynced: nat
    var up: bool
    var props: Props
    var byteSize: nat
    var live: bool

    function View(): Store
      reads this
    {
      Store(file, unsynced, up, props, byteSize, live)
    }

    ghost predicate Valid()
      reads this
    {
      Sound(defaults, View())
    }

    constructor (defaults: Props, file: Journal)
      requires Readable(file)
      ensures Valid()
      ensures this.defaults == defaults && View() == Opened(defaults, Found(file))
    {
      var lastData, byteSize, unfinished := ReadAll(defaults, file);
      RecoveredKeys(defaults, file);
      this.defaults := defaults;
      this.file := file;
      this.unsynced := 0;
      this.up := true;
      this.props := Validate(defaults, lastData);
      this.byteSize := if unfinished then THRESHOLD_SIZE_NEW_FILE else byteSize;
      this.live := true;
    }

    // Writes one record, or, past the threshold, a new file. `bytes` is the size of the
    // encoded chunk and `fate` is what becomes of the process and of the writing.
    method Update(data: Props, bytes: nat, fate: Fate) returns (acknowledged: bool)
      requires Valid() && up && bytes > 0
      modifies this
      ensures Valid()
      ensures View() == Updated(defaults, old(View()), data, bytes, fate)
      ensures acknowledged <==> fate == Done
      ensures acknowledged ==> Took(defaults, old(props), data, props)
      ensures acknowledged ==>
                forall k :: k in defaults ==> k in Replay(defaults, file) && Replay(defaults, file)[k] == props[k]
      ensures acknowledged ==> |file| == if old(byteSize) < THRESHOLD_SIZE_NEW_FILE then |old(file)| + 1 else 1
    {
      SoundAfterUpdate(defaults, View(), data, bytes, fate);
      ValidIsTaken(defaults, props, data);
      RecoveredIsReplayed(defaults, Updated(defaults, View(), data, bytes, fate).file);
      if byteSize >= THRESHOLD_SIZE_NEW_FILE {
        acknowledged := Rotate(data, bytes, fate);
        return;
      }
      var valid := Validate(defaults, data);
      acknowledged := fate.Done?;
      var landed := if fate.Done? then bytes else fate.landed;
      assert live && Clean(file);
      file := Extended(file, valid, bytes, landed);
      unsynced := if fate.Done? then 0 else if landed > 0 then unsynced + 1 else unsynced;
      if fate.Dies? {
        up := false;
        return;
      }
      byteSize := byteSize + bytes;
      if landed >= bytes { props := props + valid; }
      if fate.Fails? { byteSize := THRESHOLD_SIZE_NEW_FILE; }
    }

    method Rotate(given: Props, bytes: nat, fate: Fate) returns (acknowledged: bool)
      requires Valid() && up && bytes > 0
      modifies this
      ensures Valid()
      ensures View() == Rotated(defaults, old(View()), given, bytes, fate)
      ensures acknowledged <==> fate == Done
      ensures acknowledged ==> Took(defaults, old(props), given, props) && |file| == 1 && file[0] == Whole(props, bytes)
    {
      ValidIsTaken(defaults, props, given);
      var data := props + Validate(defaults, given);
      RecoveredFull(defaults, data, bytes);
      SoundAfterRotate(defaults, View(), given, bytes, fate);
      acknowledged := fate.Done?;
      if fate.Done? || fate.landed >= bytes {
        file := [Whole(data, bytes)];
        unsynced := 0;
      }
      match fate
      case Done =>
        props, byteSize, live := data, bytes, true;
      case Fails(landed) =>
        byteSize, live := THRESHOLD_SIZE_NEW_FILE, landed >= bytes;
      case Dies(_) =>
        up := false;
    }
  }
}
