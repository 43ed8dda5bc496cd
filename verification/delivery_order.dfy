/** Per-key order over whole runs of the delivery loop. */
module DeliveryOrder {
  import opened Base
  import opened LanesModel
  import opened DeliveryModel

  predicate SameKey(s: State, i: nat, j: nat)
    requires i < |s.tasks| && j < |s.tasks|
  {
    s.tasks[i].record.key.Some? && s.tasks[i].record.key == s.tasks[j].record.key
  }

  /** The task's lane is its own, and names the lane directly ahead of it unless that lane was over. */
  predicate LaneOk(s: State, i: nat)
    requires i < |s.tasks|
  {
    var t := s.tasks[i];
    && t.lane.Some? == t.record.key.Some?
    && (t.lane.Some? ==>
          && t.lane.value.key == t.record.key.value
          && t.lane.value.seqNo < |s.owner| && s.owner[t.lane.value.seqNo] == i)
  }

  predicate BehindOk(s: State, i: nat)
    requires i < |s.tasks|
  {
    var t := s.tasks[i];
    t.lane.Some? ==>
      match t.lane.value.behind
      case None => forall j | 0 <= j < i && SameKey(s, j, i) :: s.tasks[j].stage.Rank() >= Released.Rank()
      case Some(q) =>
        && q < |s.owner| && s.owner[q] < i && SameKey(s, s.owner[q], i)
        && forall j | s.owner[q] < j < i :: !SameKey(s, j, i)
  }

  predicate Owners(s: State) {
    |s.owner| == s.lanes.next && forall q | 0 <= q < |s.owner| ::
      s.owner[q] < |s.tasks| && s.tasks[s.owner[q]].lane.Some? && s.tasks[s.owner[q]].lane.value.seqNo == q
  }

  /** A key's tail is a record of that key that has not released its lane. */
  predicate TailOk(s: State, k: Key)
    requires k in s.lanes.tails
  {
    var q := s.lanes.tails[k];
    && q < |s.owner| && s.owner[q] < |s.tasks|
    && s.tasks[s.owner[q]].record.key == Some(k)
    && s.tasks[s.owner[q]].stage.Rank() < Released.Rank()
  }

  /** A keyed record is at or ahead of its key's tail, or the key has none and the record is out. */
  predicate Tailed(s: State, i: nat)
    requires i < |s.tasks|
  {
    s.tasks[i].record.key.Some? ==>
      var k := s.tasks[i].record.key.value;
      if k in s.lanes.tails then s.lanes.tails[k] < |s.owner| && i <= s.owner[s.lanes.tails[k]]
      else s.tasks[i].stage.Rank() >= Released.Rank()
  }

  predicate TailsOk(s: State) {
    && (forall k | k in s.lanes.tails :: TailOk(s, k))
    && (forall i | 0 <= i < |s.tasks| :: Tailed(s, i))
  }

  /** A record whose turn has come finds every earlier record of its key out of its lane. */
  predicate InTurn(s: State) {
    forall i, j | 0 <= i < j < |s.tasks| && SameKey(s, i, j) && s.tasks[j].stage.Rank() > 0 ::
      s.tasks[i].stage.Rank() >= Released.Rank()
  }

  predicate Entries(s: State) {
    && (forall a | 0 <= a < |s.entered| ::
          s.entered[a] < |s.tasks| && s.tasks[s.entered[a]].stage.Rank() >= Handle.Rank())
    && (forall a, b | 0 <= a < b < |s.entered| && SameKey(s, s.entered[a], s.entered[b]) :: s.entered[a] < s.entered[b])
  }

  predicate Inv(s: State) {
    && Owners(s) && TailsOk(s) && InTurn(s) && Entries(s)
    && forall i | 0 <= i < |s.tasks| :: LaneOk(s, i) && BehindOk(s, i)
  }

  /** The same keys and lanes, with every task at least as far along. */
  predicate Onward(s: State, s': State) {
    && |s.tasks| == |s'.tasks|
    && s'.owner == s.owner
    && forall i | 0 <= i < |s.tasks| ::
         && s'.tasks[i].record == s.tasks[i].record && s'.tasks[i].lane == s.tasks[i].lane
         && s'.tasks[i].stage.Rank() >= s.tasks[i].stage.Rank()
  }

  lemma OnwardKeepsLanes(s: State, s': State)
    requires Onward(s, s') && forall i | 0 <= i < |s.tasks| :: LaneOk(s, i) && BehindOk(s, i)
    ensures forall i | 0 <= i < |s'.tasks| :: LaneOk(s', i) && BehindOk(s', i)
  {
    forall i | 0 <= i < |s'.tasks|
      ensures LaneOk(s', i) && BehindOk(s', i)
    {
      assert LaneOk(s, i) && BehindOk(s, i);
      assert forall j | 0 <= j < i :: SameKey(s', j, i) == SameKey(s, j, i);
    }
  }

  /** A record takes its turn only when the one ahead, and so every earlier one, is out. */
  lemma TurnIsSafe(s: State, i: nat, j: nat)
    requires Inv(s) && j < |s.tasks| && CanMove(s, j, TakeTurn)
    requires i < j && SameKey(s, i, j)
    ensures s.tasks[i].stage.Rank() >= Released.Rank()
  {
    assert LaneOk(s, j) && BehindOk(s, j);
    if s.tasks[j].lane.value.behind.Some? {
      var p := s.owner[s.tasks[j].lane.value.behind.value];
      if i != p {
        assert SameKey(s, i, p);
      }
    }
  }

  lemma InTurnMove(s: State, i: nat, move: Move)
    requires Inv(s) && Enabled(s, Step(i, move))
    ensures InTurn(Apply(s, Step(i, move)))
  {
    hide TrackerAfter, LatestAfter, TailsOk, Owners, LaneOk, BehindOk, Entries;
    MoveRanks(s, i, move);
    var s' := Apply(s, Step(i, move));
    forall a, b | 0 <= a < b < |s'.tasks| && SameKey(s', a, b) && s'.tasks[b].stage.Rank() > 0
      ensures s'.tasks[a].stage.Rank() >= Released.Rank()
    {
      assert SameKey(s, a, b);
      if b == i && move.TakeTurn? {
        TurnIsSafe(s, a, b);
      }
    }
  }

  lemma EntriesMove(s: State, i: nat, move: Move)
    requires Inv(s) && Enabled(s, Step(i, move))
    ensures Entries(Apply(s, Step(i, move)))
  {
    hide TrackerAfter, LatestAfter, TailsOk, Owners, LaneOk, BehindOk;
    var s' := Apply(s, Step(i, move));
    if move.Enter? {
      forall a | 0 <= a < |s.entered| && SameKey(s, s.entered[a], i)
        ensures s.entered[a] < i
      {
        var e := s.entered[a];
        assert e == i || e < i || SameKey(s, i, e);
      }
    }
    forall a, b | 0 <= a < b < |s'.entered| && SameKey(s', s'.entered[a], s'.entered[b])
      ensures s'.entered[a] < s'.entered[b]
    {
      assert SameKey(s, s'.entered[a], s'.entered[b]);
    }
  }

  /** The tail's own release finds every record of the key out. */
  lemma TailRelease(s: State, i: nat)
    requires Inv(s) && Enabled(s, Step(i, ReleaseLane))
    ensures TailsOk(Apply(s, Step(i, ReleaseLane)))
  {
    hide TrackerAfter, LatestAfter, Entries, BehindOk;
    var s' := Apply(s, Step(i, ReleaseLane));
    assert LaneOk(s, i) && Tailed(s, i);
    var key := s.tasks[i].lane.value.key;
    forall k | k in s'.lanes.tails
      ensures TailOk(s', k)
    {
      assert TailOk(s, k);
    }
    forall j | 0 <= j < |s'.tasks|
      ensures Tailed(s', j)
    {
      assert Tailed(s, j);
      if j < i && s.tasks[j].record.key == Some(key) {
        assert SameKey(s, j, i);
      }
    }
  }

  /** Tails survive any step that takes no keyed record out of its lane. */
  lemma TailsKeep(s: State, s': State)
    requires TailsOk(s) && Onward(s, s') && s'.lanes == s.lanes
    requires forall i |
               0 <= i < |s.tasks| && s.tasks[i].record.key.Some? && s.tasks[i].stage.Rank() < Released.Rank() ::
               s'.tasks[i].stage.Rank() < Released.Rank()
    ensures TailsOk(s')
  {
    forall k | k in s'.lanes.tails
      ensures TailOk(s', k)
    {
      assert TailOk(s, k);
    }
    forall j | 0 <= j < |s'.tasks|
      ensures Tailed(s', j)
    {
      assert Tailed(s, j);
    }
  }

  /** Every move goes forward, and only a release takes a task out of its lane. */
  lemma MoveRanks(s: State, i: nat, move: Move)
    requires i < |s.tasks| && CanMove(s, i, move)
    ensures Moved(s, i, move).stage.Rank() > s.tasks[i].stage.Rank()
    ensures s.tasks[i].stage.Rank() < Released.Rank() <= Moved(s, i, move).stage.Rank() ==>
              move.ReleaseLane? || s.tasks[i].lane.None?
    ensures Moved(s, i, move).record == s.tasks[i].record && Moved(s, i, move).lane == s.tasks[i].lane
  {
  }

  lemma TailsMove(s: State, i: nat, move: Move)
    requires TailsOk(s) && Enabled(s, Step(i, move)) && LaneOk(s, i) && !move.ReleaseLane?
    ensures TailsOk(Apply(s, Step(i, move)))
  {
    MoveRanks(s, i, move);
    TailsKeep(s, Apply(s, Step(i, move)));
  }

  lemma MoveGoesOn(s: State, i: nat, move: Move)
    requires Owners(s) && Enabled(s, Step(i, move))
    ensures Onward(s, Apply(s, Step(i, move))) && Owners(Apply(s, Step(i, move)))
  {
    hide TrackerAfter, LatestAfter, Moved;
    MoveRanks(s, i, move);
  }

  lemma TailsStay(s: State, i: nat, move: Move)
    requires Inv(s) && Enabled(s, Step(i, move))
    ensures TailsOk(Apply(s, Step(i, move)))
  {
    if move.ReleaseLane? {
      TailRelease(s, i);
    } else {
      assert LaneOk(s, i);
      hide LaneOk, BehindOk, TailsOk, InTurn, Entries, Owners, Apply;
      TailsMove(s, i, move);
    }
  }

  lemma MoveKeeps(s: State, i: nat, move: Move)
    requires Inv(s) && Enabled(s, Step(i, move))
    ensures Inv(Apply(s, Step(i, move)))
  {
    hide Onward, LaneOk, BehindOk, TailsOk, InTurn, Entries, Owners, Apply, Enabled;
    MoveGoesOn(s, i, move);
    OnwardKeepsLanes(s, Apply(s, Step(i, move)));
    InTurnMove(s, i, move);
    EntriesMove(s, i, move);
    TailsStay(s, i, move);
  }

  /** The new record goes behind the key's tail, or heads its lane if every earlier one is out. */
  lemma SpawnedBehind(s: State)
    requires Inv(s) && Enabled(s, Spawn)
    ensures LaneOk(Apply(s, Spawn), |s.tasks|) && BehindOk(Apply(s, Spawn), |s.tasks|)
  {
    var s' := Apply(s, Spawn);
    var n := |s.tasks|;
    forall j | 0 <= j < n && SameKey(s', j, n) && s'.tasks[n].lane.value.behind.None?
      ensures s'.tasks[j].stage.Rank() >= Released.Rank()
    {
      assert Tailed(s, j);
    }
    if s'.tasks[n].lane.Some? && s'.tasks[n].lane.value.behind.Some? {
      assert TailOk(s, s'.tasks[n].record.key.value);
      var p := s.owner[s'.tasks[n].lane.value.behind.value];
      forall j | p < j < n
        ensures !SameKey(s', j, n)
      {
        assert Tailed(s, j);
      }
    }
  }

  lemma SpawnKeepsOthers(s: State, i: nat)
    requires Inv(s) && Enabled(s, Spawn) && i < |s.tasks|
    ensures LaneOk(Apply(s, Spawn), i) && BehindOk(Apply(s, Spawn), i)
  {
    var s' := Apply(s, Spawn);
    assert LaneOk(s, i) && BehindOk(s, i);
    assert forall j | 0 <= j < i :: SameKey(s', j, i) == SameKey(s, j, i);
  }

  lemma SpawnKeepsTails(s: State)
    requires Inv(s) && Enabled(s, Spawn)
    ensures Owners(Apply(s, Spawn)) && TailsOk(Apply(s, Spawn))
  {
    hide TrackerAfter, LatestAfter, InTurn, Entries, LaneOk, BehindOk;
    var s' := Apply(s, Spawn);
    forall k | k in s'.lanes.tails
      ensures TailOk(s', k)
    {
      if k in s.lanes.tails {
        assert TailOk(s, k);
      }
    }
    forall j | 0 <= j < |s'.tasks|
      ensures Tailed(s', j)
    {
      if j < |s.tasks| {
        assert Tailed(s, j);
      }
    }
  }

  lemma SpawnKeepsTurns(s: State)
    requires Inv(s) && Enabled(s, Spawn)
    ensures InTurn(Apply(s, Spawn)) && Entries(Apply(s, Spawn))
  {
  }

  lemma SpawnKeeps(s: State)
    requires Inv(s) && Enabled(s, Spawn)
    ensures Inv(Apply(s, Spawn))
  {
    SpawnKeepsTails(s);
    SpawnKeepsTurns(s);
    forall i | 0 <= i < |Apply(s, Spawn).tasks|
      ensures LaneOk(Apply(s, Spawn), i) && BehindOk(Apply(s, Spawn), i)
    {
      if i < |s.tasks| {
        SpawnKeepsOthers(s, i);
      } else {
        SpawnedBehind(s);
      }
    }
  }

  lemma InvStep(s: State, l: Label)
    requires Inv(s) && Enabled(s, l)
    ensures Inv(Apply(s, l))
  {
    match l
    case Step(i, move) => MoveKeeps(s, i, move);
    case Spawn => SpawnKeeps(s);
    case _ => QuietKeeps(s, Apply(s, l));
  }

  lemma QuietKeeps(s: State, s': State)
    requires Inv(s) && Onward(s, s') && s'.lanes == s.lanes && s'.entered == s.entered
    requires forall i | 0 <= i < |s.tasks| ::
               s'.tasks[i].stage.Rank() == s.tasks[i].stage.Rank() || s.tasks[i].stage.Finished?
    ensures Inv(s')
  {
    OnwardKeepsLanes(s, s');
    TailsKeep(s, s');
    assert forall i, j | 0 <= i < |s.tasks| && 0 <= j < |s.tasks| :: SameKey(s', i, j) == SameKey(s, i, j);
  }

  lemma {:induction false} AlwaysInv(c: Config, ls: seq<Label>)
    requires IsRun(c, ls)
    ensures Inv(After(c, ls))
    decreases |ls|
  {
    if ls != [] {
      AlwaysInv(c, ls[..|ls| - 1]);
      InvStep(After(c, ls[..|ls| - 1]), ls[|ls| - 1]);
    }
  }

  lemma LaterWaits(s: State, i: nat, j: nat)
    requires Inv(s) && i < j < |s.tasks| && SameKey(s, i, j)
    requires s.tasks[i].stage.Rank() < Released.Rank()
    ensures s.tasks[j].stage.Turn?
  {
  }

  /** Two records sharing a key are never with the handler at once; the later one has not even had its turn. */
  lemma OneAtATime(c: Config, ls: seq<Label>, i: nat, j: nat)
    requires IsRun(c, ls)
    requires i < j < |After(c, ls).tasks| && SameKey(After(c, ls), i, j)
    requires After(c, ls).tasks[i].stage.Rank() < Released.Rank()
    ensures After(c, ls).tasks[j].stage.Turn?
  {
    AlwaysInv(c, ls);
    LaterWaits(After(c, ls), i, j);
  }

  /** Records sharing a key enter the handler in pull order. */
  lemma PullOrder(c: Config, ls: seq<Label>, a: nat, b: nat)
    requires IsRun(c, ls)
    requires a < b < |After(c, ls).entered|
    ensures var s := After(c, ls);
            && s.entered[a] < |s.tasks| && s.entered[b] < |s.tasks|
            && (SameKey(s, s.entered[a], s.entered[b]) ==> s.entered[a] < s.entered[b])
  {
    AlwaysInv(c, ls);
  }
}
