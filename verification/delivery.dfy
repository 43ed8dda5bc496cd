/**
  The delivery loop: pulls, per-record tasks, two semaphores, per-key lanes,
  sends with their delivery reports, and rebalances, as one step system. Every
  label is one atomic action of one thread, so a list of labels is an
  interleaving. The ticket of a pull is the index of its task.
*/
module DeliveryModel {
  import opened Base
  import opened LanesModel
  import T = TrackerModel

  datatype Record = Record(at: T.TopicPartition, offset: int, key: Option<Key>)

  /** Where a record's task stands, in the order the task runs. */
  datatype Stage =
    | Turn                     // waiting for the record ahead of it in its lane
    | Slot                     // its turn has come; needs a slot
    | Check                    // about to ask whether the record is still held
    | Decode                   // held; about to be decoded
    | Handle                   // with the handler
    | Load                     // about to read the send counter
    | Mark(sendsBefore: nat)   // about to tell the tracker
    | Out                      // the outcome is known, the slot still held
    | Freed                    // slot dropped
    | Released                 // lane released
    | Dropped                  // lane dropped, waking the record behind
    | Finished                 // place dropped; the task has ended
    | Reaped                   // joined by the pull loop
  {
    function Rank(): (r: nat)
      ensures r <= 12
    {
      match this
      case Turn => 0 case Slot => 1 case Check => 2 case Decode => 3 case Handle => 4
      case Load => 5 case Mark(_) => 6 case Out => 7 case Freed => 8 case Released => 9
      case Dropped => 10 case Finished => 11 case Reaped => 12
    }
  }

  /** `Returned` also covers a record no guest could read, dropped on purpose. */
  datatype Outcome = Open | Skipped | Failed | Returned(sentBefore: nat)

  datatype Task = Task(record: Record, lane: Option<Lane>, hasSlot: bool, stage: Stage, outcome: Outcome) {
    predicate Parked() {
      stage.Turn? && lane.Some? && lane.value.behind.Some?
    }
  }

  /**
    A numbered send: whether its guard still lives, the guard's flag, whether
    the producer's queue has taken the record, and whether its delivery report
    has come. The report may come before the flag is set.
  */
  datatype SendState = SendState(held: bool, queued: bool, taken: bool, called: bool) {
    /** The number has reached the tracker: by the report, or by a drop that found the flag unset. */
    predicate Reported() {
      called || (!held && !queued)
    }
  }

  datatype Loop = NeedPlace | NeedSlot | Pulling | Admitting(record: Record) | Draining | Ended {
    predicate HasPlace() { NeedSlot? || Pulling? || Admitting? }
    predicate HasSlot() { Pulling? || Admitting? }
  }

  datatype Config = Config(slots: nat, places: nat)

  const IN_FLIGHT := 64
  const BACKLOG := 4096
  const RUN_CONFIG := Config(IN_FLIGHT, BACKLOG)

  datatype State = State(
    tracker: T.Spec,
    sends: seq<SendState>,
    lanes: LaneTable,
    tasks: seq<Task>,
    loop: Loop,
    freeSlots: nat,
    freePlaces: nat,
    // history: the task that owns each lane, the ticket of the latest pull of
    // each offset in a partition's current assignment, and the tasks in the
    // order they entered the handler
    owner: seq<nat>,
    latest: map<T.TopicPartition, map<int, nat>>,
    entered: seq<nat>
  )

  datatype Move =
    | TakeTurn | AcquireSlot | CheckHeld | Discard | Enter | ReturnOk | Fail
    | LoadSends | MarkDone | FreeSlot | ReleaseLane | DropLane | Finish

  datatype Label =
    | TakePlace | TakeSlot | Pull(record: Record) | Spawn | EndStream | StreamFails | Reap(task: nat)
    | Step(task: nat, move: Move)
    | Send | Accept(id: nat) | SetQueued(id: nat) | Report(id: nat) | DropSend(id: nat)
    | Revoke(at: T.TopicPartition) | Assign(at: T.TopicPartition)

  function Initial(c: Config): State {
    State(T.INITIAL, [], NO_LANES, [], NeedPlace, c.slots, c.places, [], map[], [])
  }

  // ------------------------------------------------------------------- steps

  /** The sending half of lane `q` is gone. */
  predicate Gone(s: State, q: nat) {
    q < |s.owner| && s.owner[q] < |s.tasks| && s.tasks[s.owner[q]].stage.Rank() >= Dropped.Rank()
  }

  predicate CanMove(s: State, i: nat, move: Move)
    requires i < |s.tasks|
  {
    var t := s.tasks[i];
    match move
    case TakeTurn => t.stage.Turn? && (t.Parked() ==> Gone(s, t.lane.value.behind.value))
    case AcquireSlot => t.stage.Slot? && (t.hasSlot || s.freeSlots > 0)
    case CheckHeld => t.stage.Check?
    case Discard => t.stage.Decode?
    case Enter => t.stage.Decode?
    case ReturnOk => t.stage.Handle?
    case Fail => t.stage.Handle?
    case LoadSends => t.stage.Load?
    case MarkDone => t.stage.Mark?
    case FreeSlot => t.stage.Out?
    case ReleaseLane => t.stage.Freed? && t.lane.Some?
    case DropLane => t.stage.Released? || (t.stage.Freed? && t.lane.None?)
    case Finish => t.stage.Dropped?
  }

  predicate Enabled(s: State, l: Label) {
    !s.loop.Ended? &&
    match l
    case TakePlace => s.loop.NeedPlace? && s.freePlaces > 0
    case TakeSlot => s.loop.NeedSlot? && s.freeSlots > 0
    case Pull(_) => s.loop.Pulling?
    case Spawn => s.loop.Admitting?
    case EndStream => s.loop.Pulling?
    case StreamFails => s.loop.Pulling?
    case Reap(i) => (s.loop.Pulling? || s.loop.Draining?) && i < |s.tasks| && s.tasks[i].stage.Finished?
    case Step(i, move) => i < |s.tasks| && CanMove(s, i, move)
    case Send => true
    case Accept(id) => id < |s.sends| && s.sends[id].held && !s.sends[id].taken
    case SetQueued(id) => id < |s.sends| && s.sends[id].held && s.sends[id].taken
    case Report(id) => id < |s.sends| && s.sends[id].taken && !s.sends[id].called
    // nothing is awaited between the queue's taking the record and the flag
    case DropSend(id) => id < |s.sends| && s.sends[id].held && (s.sends[id].taken ==> s.sends[id].queued)
    case Revoke(_) => true
    case Assign(_) => true
  }

  /** The task itself after a move. */
  function Moved(s: State, i: nat, move: Move): Task
    requires i < |s.tasks| && CanMove(s, i, move)
  {
    var t := s.tasks[i];
    match move
    case TakeTurn => t.(stage := Slot)
    case AcquireSlot => t.(stage := Check, hasSlot := true)
    case CheckHeld =>
      if s.tracker.Holds(t.record.at, t.record.offset, i) then t.(stage := Decode)
      else t.(stage := Out, outcome := Skipped)
    case Discard => t.(stage := Load, outcome := Returned(|s.sends|))
    case Enter => t.(stage := Handle)
    case ReturnOk => t.(stage := Load, outcome := Returned(|s.sends|))
    case Fail => t.(stage := Out, outcome := Failed)
    case LoadSends => t.(stage := Mark(|s.sends|))
    case MarkDone => t.(stage := Out)
    case FreeSlot => t.(stage := Freed, hasSlot := false)
    case ReleaseLane => t.(stage := Released)
    case DropLane => t.(stage := Dropped)
    case Finish => t.(stage := Finished)
  }

  /** What a label asks of the tracker, if anything. */
  function Asks(s: State, l: Label): (e: Option<T.Event>)
    requires Enabled(s, l)
  {
    match l
    case Pull(r) => Some(T.Insert(r.at, r.offset))
    case Step(i, move) =>
      if move.MarkDone? then
        Some(T.Done(s.tasks[i].record.at, s.tasks[i].record.offset, i, s.tasks[i].stage.sendsBefore))
      else None
    case Report(id) => Some(T.Report(id))
    case DropSend(id) => if s.sends[id].queued then None else Some(T.Report(id))
    case Revoke(tp) => Some(T.Revoke(tp))
    case Assign(tp) => Some(T.Assign(tp))
    case _ => None
  }

  ghost function TrackerAfter(s: State, l: Label): T.Spec
    requires Enabled(s, l)
  {
    if Asks(s, l).Some? then T.Next(s.tracker, Asks(s, l).value) else s.tracker
  }

  /** The offsets handed to the consumer to store. */
  ghost function Stores(s: State, l: Label): set<T.Stored>
    requires Enabled(s, l)
  {
    if Asks(s, l).Some? then T.Returned(s.tracker, Asks(s, l).value) else {}
  }

  function LatestAt(s: State, tp: T.TopicPartition): map<int, nat> {
    if tp in s.latest then s.latest[tp] else map[]
  }

  function LatestAfter(s: State, l: Label): map<T.TopicPartition, map<int, nat>> {
    match l
    case Pull(r) =>
      if s.tracker.At(r.at).revoked then s.latest
      else s.latest[r.at := LatestAt(s, r.at)[r.offset := s.tracker.tickets]]
    case Revoke(tp) => s.latest[tp := map[]]
    case _ => s.latest
  }

  function NewTask(s: State, r: Record): Task {
    match r.key
    case None => Task(r, None, true, Turn, Open)
    case Some(key) =>
      var lane := s.lanes.LaneFor(key);
      Task(r, Some(lane), lane.behind.None?, Turn, Open)
  }

  function LetGo(s: State): State {
    s.(freeSlots := s.freeSlots + (if s.loop.HasSlot() then 1 else 0),
       freePlaces := s.freePlaces + (if s.loop.HasPlace() then 1 else 0))
  }

  function LoopAfter(s: State, l: Label): State
    requires Enabled(s, l)
    requires l.TakePlace? || l.TakeSlot? || l.Pull? || l.Spawn? || l.EndStream? || l.StreamFails? || l.Reap?
  {
    match l
    case TakePlace => s.(loop := NeedSlot, freePlaces := s.freePlaces - 1)
    case TakeSlot => s.(loop := Pulling, freeSlots := s.freeSlots - 1)
    case Pull(r) => s.(loop := Admitting(r))
    case Spawn =>
      var r := s.loop.record;
      var task := NewTask(s, r);
      s.(loop := NeedPlace,
         tasks := s.tasks + [task],
         freeSlots := s.freeSlots + (if task.hasSlot then 0 else 1),
         lanes := if r.key.Some? then s.lanes.Enqueued(r.key.value) else s.lanes,
         owner := if r.key.Some? then s.owner + [|s.tasks|] else s.owner)
    case EndStream => LetGo(s).(loop := Draining)
    case StreamFails => LetGo(s).(loop := Ended)
    case Reap(i) =>
      LetGo(s).(tasks := s.tasks[i := s.tasks[i].(stage := Reaped)],
                loop := if s.tasks[i].outcome.Failed? then Ended else if s.loop.Draining? then Draining else NeedPlace)
  }

  function TaskAfter(s: State, i: nat, move: Move): State
    requires i < |s.tasks| && CanMove(s, i, move)
  {
    s.(tasks := s.tasks[i := Moved(s, i, move)],
       freeSlots := if move.AcquireSlot? && !s.tasks[i].hasSlot then s.freeSlots - 1
                    else if move.FreeSlot? then s.freeSlots + 1 else s.freeSlots,
       freePlaces := if move.Finish? then s.freePlaces + 1 else s.freePlaces,
       lanes := if move.ReleaseLane? then s.lanes.Released(s.tasks[i].lane.value) else s.lanes,
       entered := if move.Enter? then s.entered + [i] else s.entered)
  }

  ghost function Apply(s: State, l: Label): State
    requires Enabled(s, l)
  {
    var moved :=
      match l
      case Step(i, move) => TaskAfter(s, i, move)
      case Send => s.(sends := s.sends + [SendState(true, false, false, false)])
      case Accept(id) => s.(sends := s.sends[id := s.sends[id].(taken := true)])
      case SetQueued(id) => s.(sends := s.sends[id := s.sends[id].(queued := true)])
      case Report(id) => s.(sends := s.sends[id := s.sends[id].(called := true)])
      case DropSend(id) => s.(sends := s.sends[id := s.sends[id].(held := false)])
      case Revoke(_) => s
      case Assign(_) => s
      case _ => LoopAfter(s, l);
    moved.(tracker := TrackerAfter(s, l), latest := LatestAfter(s, l))
  }

  // -------------------------------------------------------------------- runs

  ghost predicate IsRun(c: Config, ls: seq<Label>)
    decreases |ls|, 0
  {
    ls == [] || (IsRun(c, ls[..|ls| - 1]) && Enabled(After(c, ls[..|ls| - 1]), ls[|ls| - 1]))
  }

  ghost function After(c: Config, ls: seq<Label>): State
    requires IsRun(c, ls)
    decreases |ls|, 1
  {
    if ls == [] then Initial(c) else Apply(After(c, ls[..|ls| - 1]), ls[|ls| - 1])
  }

  lemma LastStep(c: Config, ls: seq<Label>, l: Label)
    requires IsRun(c, ls + [l])
    ensures IsRun(c, ls) && Enabled(After(c, ls), l) && After(c, ls + [l]) == Apply(After(c, ls), l)
  {
    assert (ls + [l])[..|ls|] == ls;
  }

  lemma Extend(c: Config, ls: seq<Label>, l: Label)
    requires IsRun(c, ls) && Enabled(After(c, ls), l)
    ensures IsRun(c, ls + [l]) && After(c, ls + [l]) == Apply(After(c, ls), l)
  {
    assert (ls + [l])[..|ls|] == ls;
  }

  /** Some run reaches `s`. */
  ghost predicate Reached(c: Config, s: State) {
    exists ls :: IsRun(c, ls) && After(c, ls) == s
  }

  lemma ReachStart(c: Config)
    ensures Reached(c, Initial(c))
  {
    assert IsRun(c, []) && After(c, []) == Initial(c);
  }

  lemma Reach(c: Config, s: State, l: Label)
    requires Reached(c, s) && Enabled(s, l)
    ensures Reached(c, Apply(s, l))
  {
    var ls :| IsRun(c, ls) && After(c, ls) == s;
    Extend(c, ls, l);
  }

  lemma RunTo(c: Config, s: State) returns (ls: seq<Label>)
    requires Reached(c, s)
    ensures IsRun(c, ls) && After(c, ls) == s
  {
    ls :| IsRun(c, ls) && After(c, ls) == s;
  }

  /** A move that the tracker is not told of. */
  lemma ReachMove(c: Config, s: State, i: nat, move: Move) returns (s': State)
    requires Reached(c, s) && !s.loop.Ended? && i < |s.tasks| && CanMove(s, i, move) && !move.MarkDone?
    ensures Reached(c, s') && s' == TaskAfter(s, i, move)
  {
    hide Reached;
    Reach(c, s, Step(i, move));
    s' := Apply(s, Step(i, move));
  }
}
