/** Slots, places and progress of the delivery loop. */
module DeliveryProgress {
  import opened Base
  import opened LanesModel
  import opened DeliveryModel
  import Order = DeliveryOrder
  import T = TrackerModel

  // ------------------------------------------------------------------ counting

  function Sum(tasks: seq<Task>, weight: Task -> nat): nat {
    if tasks == [] then 0 else Sum(tasks[..|tasks| - 1], weight) + weight(tasks[|tasks| - 1])
  }

  lemma {:induction false} SumAt(tasks: seq<Task>, weight: Task -> nat, i: nat, task: Task)
    requires i < |tasks|
    ensures Sum(tasks[i := task], weight) + weight(tasks[i]) == Sum(tasks, weight) + weight(task)
    ensures weight(tasks[i]) <= Sum(tasks, weight)
  {
    var n := |tasks| - 1;
    if i == n {
      assert tasks[i := task][..n] == tasks[..n];
    } else {
      assert tasks[i := task][..n] == tasks[..n][i := task];
      SumAt(tasks[..n], weight, i, task);
    }
  }

  lemma {:induction false} SumLe(tasks: seq<Task>, light: Task -> nat, heavy: Task -> nat)
    requires forall i | 0 <= i < |tasks| :: light(tasks[i]) <= heavy(tasks[i])
    ensures Sum(tasks, light) <= Sum(tasks, heavy)
  {
    if tasks != [] {
      SumLe(tasks[..|tasks| - 1], light, heavy);
    }
  }

  lemma {:induction false} SumPositive(tasks: seq<Task>, weight: Task -> nat) returns (i: nat)
    requires Sum(tasks, weight) > 0
    ensures i < |tasks| && weight(tasks[i]) > 0
  {
    var n := |tasks| - 1;
    if weight(tasks[n]) > 0 {
      i := n;
    } else {
      i := SumPositive(tasks[..n], weight);
    }
  }

  function InSlot(t: Task): nat { if t.hasSlot then 1 else 0 }
  function InPlace(t: Task): nat { if t.stage.Rank() < 11 then 1 else 0 }
  function InHandler(t: Task): nat { if t.stage.Handle? then 1 else 0 }
  function WorkLeft(t: Task): nat { if t.stage.Rank() < 11 then 11 - t.stage.Rank() else 0 }

  function Work(s: State): nat {
    Sum(s.tasks, WorkLeft)
  }

  // ------------------------------------------------------------- the invariant

  /** A record parked behind its key holds no slot; one past the wait holds one until it lets go. */
  predicate SlotOk(t: Task) {
    && (t.Parked() ==> !t.hasSlot)
    && (t.stage.Turn? && !t.Parked() ==> t.hasSlot)
    && (2 <= t.stage.Rank() <= 7 ==> t.hasSlot)
    && (t.stage.Rank() >= 8 ==> !t.hasSlot)
  }

  predicate Inv(c: Config, s: State) {
    && s.freeSlots + (if s.loop.HasSlot() then 1 else 0) + Sum(s.tasks, InSlot) == c.slots
    && s.freePlaces + (if s.loop.HasPlace() then 1 else 0) + Sum(s.tasks, InPlace) == c.places
    && forall i | 0 <= i < |s.tasks| :: SlotOk(s.tasks[i])
  }

  /** What a move takes from or gives back to the semaphores is what the task gains or loses. */
  lemma MoveWeights(s: State, i: nat, move: Move)
    requires i < |s.tasks| && CanMove(s, i, move) && SlotOk(s.tasks[i])
    ensures var t, t', s' := s.tasks[i], Moved(s, i, move), TaskAfter(s, i, move);
            && SlotOk(t')
            && s'.freeSlots + InSlot(t') == s.freeSlots + InSlot(t)
            && s'.freePlaces + InPlace(t') == s.freePlaces + InPlace(t)
            && WorkLeft(t') < WorkLeft(t)
  {
  }

  lemma MoveKeeps(c: Config, s: State, i: nat, move: Move)
    requires Inv(c, s) && Enabled(s, Step(i, move))
    ensures Inv(c, Apply(s, Step(i, move)))
    ensures Work(Apply(s, Step(i, move))) < Work(s) && Apply(s, Step(i, move)).loop == s.loop
  {
    var t' := Moved(s, i, move);
    MoveWeights(s, i, move);
    SumAt(s.tasks, InSlot, i, t');
    SumAt(s.tasks, InPlace, i, t');
    SumAt(s.tasks, WorkLeft, i, t');
  }

  lemma ReapCounts(s: State, i: nat)
    requires Enabled(s, Reap(i))
    ensures var s' := Apply(s, Reap(i));
            && s'.tasks == s.tasks[i := s.tasks[i].(stage := Reaped)]
            && !s'.loop.HasSlot() && !s'.loop.HasPlace()
            && s'.freeSlots == s.freeSlots + (if s.loop.HasSlot() then 1 else 0)
            && s'.freePlaces == s.freePlaces + (if s.loop.HasPlace() then 1 else 0)
  {
    hide TrackerAfter, LatestAfter;
  }

  lemma ReapKeeps(c: Config, s: State, i: nat)
    requires Inv(c, s) && Enabled(s, Reap(i))
    ensures Inv(c, Apply(s, Reap(i)))
    ensures Work(Apply(s, Reap(i))) == Work(s)
  {
    ReapCounts(s, i);
    hide Apply;
    var t' := s.tasks[i].(stage := Reaped);
    assert SlotOk(s.tasks[i]) && SlotOk(t');
    SumAt(s.tasks, InSlot, i, t');
    SumAt(s.tasks, InPlace, i, t');
    SumAt(s.tasks, WorkLeft, i, t');
  }

  lemma SpawnCounts(s: State)
    requires Enabled(s, Spawn)
    ensures var (s', task) := (Apply(s, Spawn), NewTask(s, s.loop.record));
            && s'.tasks == s.tasks + [task] && SlotOk(task) && InPlace(task) == 1
            && !s'.loop.HasSlot() && !s'.loop.HasPlace()
            && s'.freeSlots + InSlot(task) == s.freeSlots + 1
            && s'.freePlaces == s.freePlaces
  {
    hide TrackerAfter, LatestAfter;
  }

  lemma SumSnoc(tasks: seq<Task>, task: Task, weight: Task -> nat)
    ensures Sum(tasks + [task], weight) == Sum(tasks, weight) + weight(task)
  {
    assert (tasks + [task])[..|tasks|] == tasks;
  }

  lemma SpawnKeeps(c: Config, s: State)
    requires Inv(c, s) && Enabled(s, Spawn)
    ensures Inv(c, Apply(s, Spawn))
  {
    SpawnCounts(s);
    hide Apply, NewTask;
    SumSnoc(s.tasks, NewTask(s, s.loop.record), InSlot);
    SumSnoc(s.tasks, NewTask(s, s.loop.record), InPlace);
  }

  lemma InvStep(c: Config, s: State, l: Label)
    requires Inv(c, s) && Enabled(s, l)
    ensures Inv(c, Apply(s, l))
  {
    match l
    case Step(i, move) => MoveKeeps(c, s, i, move);
    case Reap(i) => ReapKeeps(c, s, i);
    case Spawn => SpawnKeeps(c, s);
    case _ =>
  }

  lemma {:induction false} AlwaysInv(c: Config, ls: seq<Label>)
    requires IsRun(c, ls)
    ensures Inv(c, After(c, ls))
    decreases |ls|
  {
    if ls != [] {
      AlwaysInv(c, ls[..|ls| - 1]);
      InvStep(c, After(c, ls[..|ls| - 1]), ls[|ls| - 1]);
    }
  }

  // ------------------------------------------------------------------ theorems

  /**
    Records with the handler never exceed the slots, records admitted and not
    finished never exceed the places, each less what the pull loop itself
    holds, and a record parked behind its key holds no slot.
  */
  lemma WithinBounds(c: Config, ls: seq<Label>)
    requires IsRun(c, ls)
    ensures var s := After(c, ls);
            && Sum(s.tasks, InHandler) + (if s.loop.HasSlot() then 1 else 0) <= c.slots
            && Sum(s.tasks, InPlace) + (if s.loop.HasPlace() then 1 else 0) <= c.places
            && forall i | 0 <= i < |s.tasks| && s.tasks[i].Parked() :: !s.tasks[i].hasSlot
  {
    var s := After(c, ls);
    AlwaysInv(c, ls);
    forall i | 0 <= i < |s.tasks|
      ensures InHandler(s.tasks[i]) <= InSlot(s.tasks[i])
    {
      assert SlotOk(s.tasks[i]);
    }
    SumLe(s.tasks, InHandler, InSlot);
  }

  predicate Unfinished(s: State, i: nat) {
    i < |s.tasks| && s.tasks[i].stage.Rank() < 11
  }

  /** The move a task makes next unless it is waiting for its turn or for a slot. */
  function NextMove(t: Task): Move
    requires t.stage.Rank() < 11
  {
    match t.stage
    case Turn => TakeTurn
    case Slot => AcquireSlot
    case Check => CheckHeld
    case Decode => Enter
    case Handle => ReturnOk
    case Load => LoadSends
    case Mark(_) => MarkDone
    case Out => FreeSlot
    case Freed => if t.lane.Some? then ReleaseLane else DropLane
    case Released => DropLane
    case Dropped => Finish
  }

  /** A task that holds a slot can always move. */
  lemma SlotHolderMoves(s: State, i: nat)
    requires i < |s.tasks| && SlotOk(s.tasks[i]) && s.tasks[i].hasSlot
    ensures s.tasks[i].stage.Rank() < 11 && Enabled(s.(loop := NeedPlace), Step(i, NextMove(s.tasks[i])))
  {
  }

  /** The least unfinished task is never waiting for its turn. */
  lemma LeastMovesOrLacksSlot(s: State, i: nat)
    requires Order.Inv(s) && Unfinished(s, i) && !s.loop.Ended?
    requires forall j | 0 <= j < i :: !Unfinished(s, j)
    ensures
      || Enabled(s, Step(i, NextMove(s.tasks[i])))
      || (s.tasks[i].stage.Slot? && !s.tasks[i].hasSlot && s.freeSlots == 0)
  {
    assert Order.LaneOk(s, i) && Order.BehindOk(s, i);
    if s.tasks[i].Parked() {
      var q := s.tasks[i].lane.value.behind.value;
      assert !Unfinished(s, s.owner[q]);
    }
  }

  lemma {:induction false} LeastUnfinished(s: State, i: nat) returns (least: nat)
    requires Unfinished(s, i)
    ensures least <= i && Unfinished(s, least) && forall j | 0 <= j < least :: !Unfinished(s, j)
  {
    if exists j :: 0 <= j < i && Unfinished(s, j) {
      var j :| 0 <= j < i && Unfinished(s, j);
      least := LeastUnfinished(s, j);
    } else {
      least := i;
    }
  }

  /**
    The pull loop cannot keep the one slot from a record: there are none or
    two slots and more, or there is no place to pull another record into.
  */
  predicate Flows(c: Config) {
    c.slots != 1 || c.places <= 1
  }

  /** With a record unfinished some slot is not with the pull loop. */
  lemma SlotIsShared(c: Config, s: State, i: nat)
    requires Flows(c) && c.slots > 0 && Inv(c, s) && Unfinished(s, i)
    ensures s.freeSlots + Sum(s.tasks, InSlot) > 0
  {
    if c.places <= 1 {
      SumAt(s.tasks, InPlace, i, s.tasks[i]);
    }
  }

  lemma SomeTaskMoves(c: Config, s: State, i: nat) returns (j: nat, move: Move)
    requires Flows(c) && c.slots > 0 && Inv(c, s) && Order.Inv(s) && Unfinished(s, i) && !s.loop.Ended?
    ensures Enabled(s, Step(j, move))
  {
    SlotIsShared(c, s, i);
    j := LeastUnfinished(s, i);
    LeastMovesOrLacksSlot(s, j);
    if !Enabled(s, Step(j, NextMove(s.tasks[j]))) {
      j := SumPositive(s.tasks, InSlot);
      SlotHolderMoves(s, j);
    }
    move := NextMove(s.tasks[j]);
  }

  /** Without slots nothing is ever pulled. */
  lemma {:induction false} NoSlotNoTask(c: Config, ls: seq<Label>)
    requires IsRun(c, ls) && c.slots == 0
    ensures After(c, ls).tasks == []
    decreases |ls|
  {
    if ls != [] {
      NoSlotNoTask(c, ls[..|ls| - 1]);
      AlwaysInv(c, ls[..|ls| - 1]);
    }
  }

  /**
    While the loop flows no reachable state with an unfinished record is
    stuck: some record's own task can move, whatever the stream, the broker
    and the rest of the system do.
  */
  lemma NeverStuck(c: Config, ls: seq<Label>, i: nat) returns (j: nat, move: Move)
    requires IsRun(c, ls) && Flows(c)
    requires Unfinished(After(c, ls), i) && !After(c, ls).loop.Ended?
    ensures Enabled(After(c, ls), Step(j, move))
  {
    if c.slots == 0 {
      NoSlotNoTask(c, ls);
    }
    AlwaysInv(c, ls);
    Order.AlwaysInv(c, ls);
    j, move := SomeTaskMoves(c, After(c, ls), i);
  }

  /** The consumer's own slots and backlog flow. */
  lemma ConsumerNeverStuck(ls: seq<Label>, i: nat) returns (j: nat, move: Move)
    requires IsRun(RUN_CONFIG, ls)
    requires Unfinished(After(RUN_CONFIG, ls), i) && !After(RUN_CONFIG, ls).loop.Ended?
    ensures Enabled(After(RUN_CONFIG, ls), Step(j, move))
    ensures Sum(After(RUN_CONFIG, ls).tasks, InHandler) <= 64 && Sum(After(RUN_CONFIG, ls).tasks, InPlace) <= 4096
  {
    j, move := NeverStuck(RUN_CONFIG, ls, i);
    WithinBounds(RUN_CONFIG, ls);
  }

  /** Only admitting a record adds work, and every task's move takes some away. */
  lemma WorkShrinks(c: Config, ls: seq<Label>, l: Label)
    requires IsRun(c, ls) && Enabled(After(c, ls), l) && !l.Spawn?
    ensures Work(Apply(After(c, ls), l)) <= Work(After(c, ls))
    ensures l.Step? ==> Work(Apply(After(c, ls), l)) < Work(After(c, ls))
  {
    var s := After(c, ls);
    AlwaysInv(c, ls);
    match l
    case Step(i, move) => MoveKeeps(c, s, i, move);
    case Reap(i) => ReapKeeps(c, s, i);
    case _ =>
  }

  ghost predicate OnlyMoves(ls: seq<Label>) {
    forall l | l in ls :: l.Step?
  }

  lemma {:induction false} FinishFrom(c: Config, ls: seq<Label>, s: State) returns (more: seq<Label>)
    requires IsRun(c, ls) && After(c, ls) == s
    requires Flows(c) && c.slots > 0 && Inv(c, s) && Order.Inv(s) && !s.loop.Ended?
    ensures OnlyMoves(more) && IsRun(c, ls + more)
    ensures forall i | 0 <= i < |After(c, ls + more).tasks| :: !Unfinished(After(c, ls + more), i)
    decreases Work(s)
  {
    hide Inv, Order.Inv, Apply, After, IsRun;
    if exists i :: 0 <= i < |s.tasks| && Unfinished(s, i) {
      var i :| 0 <= i < |s.tasks| && Unfinished(s, i);
      var j, move := SomeTaskMoves(c, s, i);
      MoveKeeps(c, s, j, move);
      Order.MoveKeeps(s, j, move);
      Extend(c, ls, Step(j, move));
      var rest := FinishFrom(c, ls + [Step(j, move)], Apply(s, Step(j, move)));
      more := [Step(j, move)] + rest;
      assert (ls + [Step(j, move)]) + rest == ls + more;
    } else {
      more := [];
      assert ls + more == ls;
    }
  }

  /** From every reachable state the tasks alone, with no further pull, can finish every record. */
  lemma AllCanFinish(c: Config, ls: seq<Label>) returns (more: seq<Label>)
    requires IsRun(c, ls) && Flows(c) && !After(c, ls).loop.Ended?
    ensures OnlyMoves(more) && IsRun(c, ls + more)
    ensures forall i | 0 <= i < |After(c, ls + more).tasks| :: !Unfinished(After(c, ls + more), i)
  {
    if c.slots == 0 {
      NoSlotNoTask(c, ls);
      more := [];
      assert ls + more == ls;
    } else {
      AlwaysInv(c, ls);
      Order.AlwaysInv(c, ls);
      more := FinishFrom(c, ls, After(c, ls));
    }
  }

  // ------------------------------------------------------- one slot can stall

  /** A record is unfinished, the loop has not ended, and only the stream, the broker or a sender can act. */
  ghost predicate Stalled(s: State) {
    && !s.loop.Ended? && (exists i :: Unfinished(s, i))
    && forall l | Enabled(s, l) :: !l.Step? && !l.Reap? && !l.TakePlace? && !l.TakeSlot? && !l.Spawn?
  }

  const PARTITION := T.TopicPartition("t", 0)
  const FIRST := Record(PARTITION, 0, Some([]))
  const SECOND := Record(PARTITION, 1, Some([]))

  const FIRST_FREED := Task(FIRST, Some(Lane([], 0, None)), false, Freed, Skipped)
  const FIRST_FINISHED := Task(FIRST, Some(Lane([], 0, None)), false, Finished, Skipped)
  const SECOND_PARKED := Task(SECOND, Some(Lane([], 1, Some(0))), false, Turn, Open)

  /** The first record is pulled from a partition already revoked, and the loop has a place for the second. */
  lemma FirstPulled(c: Config) returns (s: State)
    requires c.slots == 1 && c.places >= 2
    ensures Reached(c, s) && s.loop.NeedSlot? && s.freeSlots == 0 && s.freePlaces == c.places - 2
    ensures s.tasks == [Task(FIRST, Some(Lane([], 0, None)), true, Turn, Open)]
    ensures s.lanes == LaneTable(map[[] := 0], 1) && s.owner == [0]
    ensures s.tracker.At(PARTITION).pending == map[]
  {
    hide Reached, LatestAfter;
    s := Initial(c);
    ReachStart(c);
    Reach(c, s, Revoke(PARTITION));
    s := Apply(s, Revoke(PARTITION));
    Reach(c, s, TakePlace);
    s := Apply(s, TakePlace);
    Reach(c, s, TakeSlot);
    s := Apply(s, TakeSlot);
    Reach(c, s, Pull(FIRST));
    s := Apply(s, Pull(FIRST));
    Reach(c, s, Spawn);
    s := Apply(s, Spawn);
    Reach(c, s, TakePlace);
    s := Apply(s, TakePlace);
  }

  /** The first record is not held, so it is skipped; it has dropped its slot, but not yet its lane. */
  lemma FirstFreed(c: Config) returns (s: State)
    requires c.slots == 1 && c.places >= 2
    ensures Reached(c, s) && s.loop.NeedSlot? && s.freeSlots == 1 && s.freePlaces == c.places - 2
    ensures s.tasks == [FIRST_FREED] && s.lanes == LaneTable(map[[] := 0], 1) && s.owner == [0]
  {
    hide Reached, Apply;
    s := FirstPulled(c);
    s := ReachMove(c, s, 0, TakeTurn);
    s := ReachMove(c, s, 0, AcquireSlot);
    s := ReachMove(c, s, 0, CheckHeld);
    s := ReachMove(c, s, 0, FreeSlot);
  }

  /** The second record is pulled behind the first, which then leaves. */
  lemma SecondPulled(c: Config, s0: State) returns (s: State)
    requires Reached(c, s0) && s0.loop.NeedSlot? && s0.freeSlots == 1
    requires s0.tasks == [FIRST_FREED] && s0.lanes == LaneTable(map[[] := 0], 1) && s0.owner == [0]
    ensures Reached(c, s) && s.loop.NeedPlace? && s.freeSlots == 1 && s.freePlaces == s0.freePlaces + 1
    ensures s.tasks == [FIRST_FINISHED, SECOND_PARKED] && s.owner == [0, 1]
  {
    hide Reached, TrackerAfter, LatestAfter;
    s := s0;
    Reach(c, s, TakeSlot);
    s := Apply(s, TakeSlot);
    Reach(c, s, Pull(SECOND));
    s := Apply(s, Pull(SECOND));
    Reach(c, s, Spawn);
    s := Apply(s, Spawn);
    s := ReachMove(c, s, 0, ReleaseLane);
    s := ReachMove(c, s, 0, DropLane);
    s := ReachMove(c, s, 0, Finish);
  }

  /** The loop reaps the first record and takes the only slot. */
  lemma SecondBehind(c: Config, s0: State) returns (s: State)
    requires Reached(c, s0) && s0.loop.NeedPlace? && s0.freeSlots == 1 && s0.freePlaces >= 1
    requires s0.tasks == [FIRST_FINISHED, SECOND_PARKED] && s0.owner == [0, 1]
    ensures Reached(c, s) && s.loop.Pulling? && s.freeSlots == 0 && s.owner == [0, 1]
    ensures s.tasks == [FIRST_FINISHED.(stage := Reaped), SECOND_PARKED]
  {
    hide Reached, TrackerAfter, LatestAfter;
    s := s0;
    Reach(c, s, TakePlace);
    s := Apply(s, TakePlace);
    Reach(c, s, TakeSlot);
    s := Apply(s, TakeSlot);
    Reach(c, s, Reap(0));
    s := Apply(s, Reap(0));
    Reach(c, s, TakePlace);
    s := Apply(s, TakePlace);
    Reach(c, s, TakeSlot);
    s := Apply(s, TakeSlot);
  }

  lemma StalledState(s: State)
    requires s.loop.Pulling? && s.freeSlots == 0 && |s.tasks| == 2
    requires s.tasks[0].stage.Reaped? && s.tasks[1].stage.Slot? && !s.tasks[1].hasSlot
    ensures Stalled(s)
  {
    assert Unfinished(s, 1);
  }

  /** The loop holds the only slot, waiting on a silent stream, while a record whose turn has come needs it. */
  lemma OneSlotCanStall(c: Config)
    requires c.slots == 1 && c.places >= 2
    ensures exists ls :: IsRun(c, ls) && Stalled(After(c, ls))
  {
    var s := FirstFreed(c);
    s := SecondPulled(c, s);
    s := SecondBehind(c, s);
    s := ReachMove(c, s, 1, TakeTurn);
    var ls :| IsRun(c, ls) && After(c, ls) == s;
    StalledState(s);
  }

  /** Some run stalls exactly when there is one slot and a second place to hold it from. */
  lemma StallsExactlyWhen(c: Config)
    ensures (exists ls :: IsRun(c, ls) && Stalled(After(c, ls))) <==> c.slots == 1 && c.places >= 2
  {
    if c.slots == 1 && c.places >= 2 {
      OneSlotCanStall(c);
    } else {
      forall ls | IsRun(c, ls)
        ensures !Stalled(After(c, ls))
      {
        if Stalled(After(c, ls)) {
          var i :| Unfinished(After(c, ls), i);
          var j, move := NeverStuck(c, ls, i);
        }
      }
    }
  }
}
