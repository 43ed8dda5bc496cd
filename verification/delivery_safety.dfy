/**
  At-least-once over whole runs: an offset handed to the consumer passes only
  records that are settled, meaning the handler returned (or the record was
  dropped as unreadable) and every send numbered before that has its report.
*/
module DeliverySafety {
  import opened Base
  import opened DeliveryModel
  import T = TrackerModel

  ghost predicate Settled(s: State, t: nat) {
    && t < |s.tasks| && s.tasks[t].outcome.Returned?
    && forall n: nat | n < s.tasks[t].outcome.sentBefore :: n in s.tracker.reported
  }

  // ------------------------------------------------------------ the invariant

  predicate TicketsCount(s: State) {
    s.tracker.tickets == |s.tasks| + (if s.loop.Admitting? then 1 else 0)
  }

  function RecordOf(s: State, t: nat): Record
    requires TicketsCount(s) && t < s.tracker.tickets
  {
    if t < |s.tasks| then s.tasks[t].record else s.loop.record
  }

  /** The tracker was told of task `t`, with a send count that covers its sends. */
  predicate Told(s: State, t: nat, sendsBefore: nat) {
    && t < |s.tasks| && s.tasks[t].outcome.Returned?
    && s.tasks[t].outcome.sentBefore <= sendsBefore <= |s.sends|
  }

  predicate Untold(s: State, t: nat) {
    t < |s.tasks| ==> s.tasks[t].stage.Rank() <= 6 || s.tasks[t].outcome.Failed?
  }

  predicate PendingOk(s: State, tp: T.TopicPartition, k: int)
    requires k in s.tracker.At(tp).pending
  {
    var p := s.tracker.At(tp).pending[k];
    && k in LatestAt(s, tp) && LatestAt(s, tp)[k] == p.ticket
    && (if p.done then Told(s, p.ticket, p.sendsBefore) else Untold(s, p.ticket))
  }

  ghost predicate LatestOk(s: State, tp: T.TopicPartition, k: int)
    requires TicketsCount(s) && k in LatestAt(s, tp)
  {
    var t := LatestAt(s, tp)[k];
    && t < s.tracker.tickets
    && RecordOf(s, t).at == tp && RecordOf(s, t).offset == k
    && (s.tracker.Holds(tp, k, t) || Settled(s, t))
  }

  predicate TaskOk(t: Task, sends: nat) {
    && (t.stage.Rank() <= 4 ==> t.outcome.Open?)
    && (t.stage.Load? ==> t.outcome.Returned? && t.outcome.sentBefore <= sends)
    && (t.stage.Mark? ==> t.outcome.Returned? && t.outcome.sentBefore <= t.stage.sendsBefore <= sends)
  }

  ghost predicate History(s: State) {
    && TicketsCount(s)
    && (forall tp, k | k in s.tracker.At(tp).pending :: PendingOk(s, tp, k))
    && (forall tp, k | k in LatestAt(s, tp) :: LatestOk(s, tp, k))
    && (forall i | 0 <= i < |s.tasks| :: TaskOk(s.tasks[i], |s.sends|))
  }

  /** The flag and the report are only for a record the queue has taken, and a taken one has its flag by the drop. */
  predicate SendOk(send: SendState) {
    && (send.queued || send.called ==> send.taken)
    && (send.taken && !send.held ==> send.queued)
  }

  ghost predicate SendsMatch(s: State) {
    && (forall id | 0 <= id < |s.sends| :: SendOk(s.sends[id]))
    && forall id: nat :: id in s.tracker.reported <==> id < |s.sends| && s.sends[id].Reported()
  }

  ghost predicate Inv(s: State) {
    T.Still(s.tracker) && SendsMatch(s) && History(s)
  }

  // ------------------------------------------------------------- preservation

  /** A sweep removes only records whose removal leaves them settled. */
  lemma SweepSettles(s: State, c: T.Spec, tp: T.TopicPartition, k: int)
    requires k in c.At(tp).pending && k !in c.Sweep().At(tp).pending
    requires Told(s, c.At(tp).pending[k].ticket, c.At(tp).pending[k].sendsBefore)
    requires c.reported <= s.tracker.reported
    ensures Settled(s, c.At(tp).pending[k].ticket)
  {
  }

  lemma SweepShrinks(c: T.Spec, tp: T.TopicPartition, k: int)
    requires k in c.Sweep().At(tp).pending
    ensures k in c.At(tp).pending && c.Sweep().At(tp).pending[k] == c.At(tp).pending[k]
  {
  }

  lemma SweptWasResolved(c: T.Spec, tp: T.TopicPartition, k: int)
    requires k in c.At(tp).pending && k !in c.Sweep().At(tp).pending
    ensures c.At(tp).pending[k].done
  {
  }

  /** The history invariant survives a sweep of the tracker. */
  lemma SweepKeeps(s: State, s': State)
    requires History(s) && s' == s.(tracker := s.tracker.Sweep())
    ensures History(s')
  {
    forall tp, k | k in s'.tracker.At(tp).pending
      ensures PendingOk(s', tp, k)
    {
      SweepShrinks(s.tracker, tp, k);
      assert PendingOk(s, tp, k);
    }
    forall tp, k | k in LatestAt(s', tp)
      ensures LatestOk(s', tp, k)
    {
      assert LatestOk(s, tp, k);
      if s.tracker.Holds(tp, k, LatestAt(s, tp)[k]) && k !in s'.tracker.At(tp).pending {
        assert PendingOk(s, tp, k);
        SweptWasResolved(s.tracker, tp, k);
        SweepSettles(s', s.tracker, tp, k);
      } else if k in s'.tracker.At(tp).pending {
        SweepShrinks(s.tracker, tp, k);
      }
    }
  }

  /** One task moves on without the tracker: nothing it was told is undone. */
  lemma TaskKeeps(s: State, s': State, i: nat)
    requires History(s)
    requires s'.tracker == s.tracker && s'.latest == s.latest && s'.sends == s.sends
    requires s'.loop.Admitting? == s.loop.Admitting? && (s.loop.Admitting? ==> s'.loop == s.loop)
    requires i < |s.tasks| == |s'.tasks|
    requires forall j | 0 <= j < |s.tasks| && j != i :: s'.tasks[j] == s.tasks[j]
    requires s'.tasks[i].record == s.tasks[i].record
    requires s.tasks[i].outcome.Returned? ==> s'.tasks[i].outcome == s.tasks[i].outcome
    requires TaskOk(s'.tasks[i], |s.sends|)
    requires Untold(s, i) && !Untold(s', i) ==> !s.tracker.Holds(s.tasks[i].record.at, s.tasks[i].record.offset, i)
    ensures History(s')
  {
    forall tp, k | k in LatestAt(s', tp)
      ensures LatestOk(s', tp, k)
    {
      assert LatestOk(s, tp, k);
    }
    forall tp, k | k in s'.tracker.At(tp).pending
      ensures PendingOk(s', tp, k)
    {
      assert PendingOk(s, tp, k) && LatestOk(s, tp, k);
    }
  }

  /** The completion of a record reaches the tracker. */
  lemma MarkKeeps(s: State, s': State, i: nat)
    requires History(s) && i < |s.tasks| && s.tasks[i].stage.Mark?
    requires s' == s.(tasks := s.tasks[i := s.tasks[i].(stage := Out)],
                      tracker := s.tracker.Marked(s.tasks[i].record.at, s.tasks[i].record.offset, i,
                                                  s.tasks[i].stage.sendsBefore))
    ensures History(s')
  {
    assert TaskOk(s.tasks[i], |s.sends|);
    forall tp, k | k in LatestAt(s', tp)
      ensures LatestOk(s', tp, k)
    {
      assert LatestOk(s, tp, k);
    }
    forall tp, k | k in s'.tracker.At(tp).pending
      ensures PendingOk(s', tp, k)
    {
      assert k in s.tracker.At(tp).pending;
      assert PendingOk(s, tp, k) && LatestOk(s, tp, k);
    }
  }

  lemma PullKeeps(s: State, r: Record)
    requires History(s) && Enabled(s, Pull(r))
    ensures History(Apply(s, Pull(r)))
  {
    var s' := Apply(s, Pull(r));
    forall tp, k | k in LatestAt(s', tp)
      ensures LatestOk(s', tp, k)
    {
      if k in LatestAt(s, tp) {
        assert LatestOk(s, tp, k);
      }
    }
    forall tp, k | k in s'.tracker.At(tp).pending
      ensures PendingOk(s', tp, k)
    {
      if k in s.tracker.At(tp).pending {
        assert PendingOk(s, tp, k) && LatestOk(s, tp, k);
      }
    }
  }

  lemma SpawnKeeps(s: State)
    requires History(s) && Enabled(s, Spawn)
    ensures History(Apply(s, Spawn))
  {
    var s' := Apply(s, Spawn);
    forall tp, k | k in LatestAt(s', tp)
      ensures LatestOk(s', tp, k)
    {
      assert LatestOk(s, tp, k);
    }
    forall tp, k | k in s'.tracker.At(tp).pending
      ensures PendingOk(s', tp, k)
    {
      assert PendingOk(s, tp, k) && LatestOk(s, tp, k);
    }
  }

  lemma RebalanceKeeps(s: State, l: Label)
    requires History(s) && Enabled(s, l) && (l.Revoke? || l.Assign?)
    ensures History(Apply(s, l))
  {
    var s' := Apply(s, l);
    forall tp, k | k in LatestAt(s', tp)
      ensures LatestOk(s', tp, k)
    {
      assert LatestOk(s, tp, k);
    }
    forall tp, k | k in s'.tracker.At(tp).pending
      ensures PendingOk(s', tp, k)
    {
      assert PendingOk(s, tp, k);
    }
  }

  /** A longer list of sends, or more reports, keeps the history. */
  lemma SendsKeep(s: State, s': State)
    requires History(s)
    requires s' == s.(sends := s'.sends, tracker := s.tracker.(reported := s'.tracker.reported))
    requires |s.sends| <= |s'.sends| && s.tracker.reported <= s'.tracker.reported
    ensures History(s')
  {
    forall tp, k | k in LatestAt(s', tp)
      ensures LatestOk(s', tp, k)
    {
      assert LatestOk(s, tp, k);
    }
    forall tp, k | k in s'.tracker.At(tp).pending
      ensures PendingOk(s', tp, k)
    {
      assert PendingOk(s, tp, k);
    }
  }

  lemma HistoryStep(s: State, l: Label)
    requires History(s) && Enabled(s, l)
    ensures History(Apply(s, l))
  {
    var s' := Apply(s, l);
    match l
    case TakePlace => LoopKeeps(s, s');
    case TakeSlot => LoopKeeps(s, s');
    case EndStream => LoopKeeps(s, s');
    case StreamFails => LoopKeeps(s, s');
    case Pull(r) => PullKeeps(s, r);
    case Spawn => SpawnKeeps(s);
    case Reap(i) => ReapKeeps(s, i);
    case Step(i, move) => MoveKeeps(s, i, move);
    case Send => SendsKeep(s, s');
    case Accept(id) => SendsKeep(s, s');
    case SetQueued(id) => SendsKeep(s, s');
    case Report(id) => ReportKeeps(s, l, id);
    case DropSend(id) =>
      if s.sends[id].queued {
        SendsKeep(s, s');
      } else {
        ReportKeeps(s, l, id);
      }
    case Revoke(_) => RebalanceKeeps(s, l);
    case Assign(_) => RebalanceKeeps(s, l);
  }

  lemma LoopKeeps(s: State, s': State)
    requires History(s)
    requires s' == s.(loop := s'.loop, freeSlots := s'.freeSlots, freePlaces := s'.freePlaces)
    requires !s.loop.Admitting? && !s'.loop.Admitting?
    ensures History(s')
  {
    forall tp, k | k in LatestAt(s', tp)
      ensures LatestOk(s', tp, k)
    {
      assert LatestOk(s, tp, k);
    }
    forall tp, k | k in s'.tracker.At(tp).pending
      ensures PendingOk(s', tp, k)
    {
      assert PendingOk(s, tp, k);
    }
  }

  lemma ReapKeeps(s: State, i: nat)
    requires History(s) && Enabled(s, Reap(i))
    ensures History(Apply(s, Reap(i)))
  {
    TaskKeeps(s, Apply(s, Reap(i)), i);
  }

  lemma MoveKeeps(s: State, i: nat, move: Move)
    requires History(s) && Enabled(s, Step(i, move))
    ensures History(Apply(s, Step(i, move)))
  {
    var s' := Apply(s, Step(i, move));
    assert TaskOk(s.tasks[i], |s.sends|);
    if move.MarkDone? {
      var t := s.tasks[i];
      var marked := s.(tasks := s'.tasks,
                       tracker := s.tracker.Marked(t.record.at, t.record.offset, i, t.stage.sendsBefore));
      MarkKeeps(s, marked, i);
      SweepKeeps(marked, s');
    } else {
      TaskKeeps(s, s', i);
    }
  }

  lemma ReportKeeps(s: State, l: Label, id: nat)
    requires History(s) && Enabled(s, l) && (l == Report(id) || (l == DropSend(id) && !s.sends[id].queued))
    ensures History(Apply(s, l))
  {
    var s' := Apply(s, l);
    var noted := s.(sends := s'.sends, tracker := s.tracker.(reported := s.tracker.reported + {id}));
    SendsKeep(s, noted);
    SweepKeeps(noted, s');
  }

  lemma InvStep(s: State, l: Label)
    requires Inv(s) && Enabled(s, l)
    ensures Inv(Apply(s, l))
  {
    HistoryStep(s, l);
    if Asks(s, l).Some? {
      T.StillStep(s.tracker, Asks(s, l).value);
    }
  }

  lemma {:induction false} AlwaysInv(c: Config, ls: seq<Label>)
    requires IsRun(c, ls)
    ensures Inv(After(c, ls))
    decreases |ls|
  {
    if ls == [] {
      T.AlwaysStill([]);
    } else {
      AlwaysInv(c, ls[..|ls| - 1]);
      InvStep(After(c, ls[..|ls| - 1]), ls[|ls| - 1]);
    }
  }

  // ----------------------------------------------------------------- theorems

  /**
    In every run, an offset handed back for a partition passes no record of the
    current assignment, in the latest pull of its offset, that is not settled.
  */
  lemma AtLeastOnce(c: Config, ls: seq<Label>, l: Label, tp: T.TopicPartition, offset: int)
    requires IsRun(c, ls) && Enabled(After(c, ls), l)
    requires T.Stored(tp, offset) in Stores(After(c, ls), l)
    ensures var s' := Apply(After(c, ls), l);
            forall k | k in LatestAt(s', tp) && k <= offset :: Settled(s', LatestAt(s', tp)[k])
  {
    var s := After(c, ls);
    var s' := Apply(s, l);
    AlwaysInv(c, ls);
    InvStep(s, l);
    T.NothingAtOrBelow(s.tracker, Asks(s, l).value, tp, offset);
    forall k | k in LatestAt(s', tp) && k <= offset
      ensures Settled(s', LatestAt(s', tp)[k])
    {
      assert LatestOk(s', tp, k);
    }
  }

  /** The pull at position `a` was taken in, and its partition has not been revoked since. */
  ghost predicate CurrentPull(c: Config, ls: seq<Label>, a: nat)
    requires IsRun(c, ls) && a < |ls|
  {
    && ls[a].Pull? && IsRun(c, ls[..a]) && !After(c, ls[..a]).tracker.At(ls[a].record.at).revoked
    && forall b | a < b < |ls| :: ls[b] != Revoke(ls[a].record.at)
  }

  /** The pull at position `b` is of the same offset as the one at `a`. */
  predicate SameOffset(ls: seq<Label>, a: nat, b: nat)
    requires a < |ls| && b < |ls| && ls[a].Pull?
  {
    ls[b].Pull? && ls[b].record.at == ls[a].record.at && ls[b].record.offset == ls[a].record.offset
  }

  /** The pull at position `a` is of the current assignment, and the latest of its offset. */
  ghost predicate LatestPull(c: Config, ls: seq<Label>, a: nat)
    requires IsRun(c, ls) && a < |ls|
  {
    CurrentPull(c, ls, a) && forall b | a < b < |ls| :: !SameOffset(ls, a, b)
  }

  /** The record is the latest pull of its offset, under this ticket. */
  predicate Remembered(s: State, r: Record, t: nat) {
    && r.offset in LatestAt(s, r.at) && LatestAt(s, r.at)[r.offset] == t
    && TicketsCount(s) && t < s.tracker.tickets && RecordOf(s, t) == r
  }

  lemma RememberedStep(s: State, l: Label, r: Record, t: nat)
    requires Enabled(s, l) && Remembered(s, r, t) && TicketsCount(Apply(s, l))
    requires l != Revoke(r.at) && (l.Pull? ==> l.record.at != r.at || l.record.offset != r.offset)
    ensures Remembered(Apply(s, l), r, t)
  {
  }

  lemma PullIsRemembered(s: State, r: Record)
    requires Enabled(s, Pull(r)) && !s.tracker.At(r.at).revoked && TicketsCount(s) && TicketsCount(Apply(s, Pull(r)))
    ensures Remembered(Apply(s, Pull(r)), r, s.tracker.tickets)
  {
  }

  lemma {:induction false} LatestPullIsRemembered(c: Config, ls: seq<Label>, a: nat)
    requires IsRun(c, ls) && a < |ls| && LatestPull(c, ls, a)
    ensures Remembered(After(c, ls), ls[a].record, After(c, ls[..a]).tracker.tickets)
    decreases |ls|
  {
    hide IsRun, After, Apply, Enabled, Remembered;
    var before, l := ls[..|ls| - 1], ls[|ls| - 1];
    assert ls == before + [l];
    LastStep(c, before, l);
    AlwaysInv(c, before);
    AlwaysInv(c, ls);
    if a < |before| {
      assert before[..a] == ls[..a] && !SameOffset(ls, a, |before|);
      forall b | a < b < |before| ensures !SameOffset(before, a, b) {
        assert !SameOffset(ls, a, b);
      }
      LatestPullIsRemembered(c, before, a);
      RememberedStep(After(c, before), l, ls[a].record, After(c, ls[..a]).tracker.tickets);
    } else {
      assert before == ls[..a];
      PullIsRemembered(After(c, before), ls[a].record);
    }
  }

  /** The same over the run itself: whatever was pulled at or below a stored offset is settled. */
  lemma NoPulledRecordIsPassed(c: Config, ls: seq<Label>, l: Label, tp: T.TopicPartition, offset: int, a: nat)
    requires IsRun(c, ls) && Enabled(After(c, ls), l)
    requires T.Stored(tp, offset) in Stores(After(c, ls), l)
    requires a < |ls| && LatestPull(c, ls, a) && ls[a].record.at == tp && ls[a].record.offset <= offset
    ensures var s', t := Apply(After(c, ls), l), After(c, ls[..a]).tracker.tickets;
            Settled(s', t) && s'.tasks[t].record == ls[a].record
  {
    LatestPullIsRemembered(c, ls, a);
    AtLeastOnce(c, ls, l, tp, offset);
    assert LatestAt(Apply(After(c, ls), l), tp) == LatestAt(After(c, ls), tp);
  }

  lemma {:induction false} PrefixIsRun(c: Config, ls: seq<Label>, n: nat)
    requires IsRun(c, ls) && n <= |ls|
    ensures IsRun(c, ls[..n])
    decreases |ls|
  {
    if n == |ls| {
      assert ls[..n] == ls;
    } else {
      PrefixIsRun(c, ls[..|ls| - 1], n);
      assert ls[..|ls| - 1][..n] == ls[..n];
    }
  }

  /** Only a revoke makes a partition revoked. */
  lemma {:induction false} StaysAssigned(c: Config, ls: seq<Label>, a: nat, n: nat)
    requires IsRun(c, ls) && a < n <= |ls| && CurrentPull(c, ls, a)
    ensures IsRun(c, ls[..n]) && !After(c, ls[..n]).tracker.At(ls[a].record.at).revoked
    decreases n
  {
    hide IsRun, After, Apply, Enabled;
    var before, l := ls[..n - 1], ls[n - 1];
    PrefixIsRun(c, ls, n);
    assert ls[..n] == before + [l];
    LastStep(c, before, l);
    if a < n - 1 {
      StaysAssigned(c, ls, a, n - 1);
    }
    RevokedStep(After(c, before), l, ls[a].record.at);
  }

  /** A pull of the current assignment is the latest of its offset, or a later one is. */
  lemma {:induction false} LatestOfItsOffset(c: Config, ls: seq<Label>, a: nat) returns (b: nat)
    requires IsRun(c, ls) && a < |ls| && CurrentPull(c, ls, a)
    ensures a <= b < |ls| && SameOffset(ls, a, b) && LatestPull(c, ls, b)
    decreases |ls| - a
  {
    if exists later :: a < later < |ls| && SameOffset(ls, a, later) {
      var later :| a < later < |ls| && SameOffset(ls, a, later);
      StaysAssigned(c, ls, a, later);
      b := LatestOfItsOffset(c, ls, later);
    } else {
      b := a;
    }
  }

  /** In these labels the partition was revoked and has not been assigned since. */
  ghost predicate RevokedIn(ls: seq<Label>, tp: T.TopicPartition) {
    exists i :: 0 <= i < |ls| && ls[i] == Revoke(tp) && forall j | i < j < |ls| :: ls[j] != Assign(tp)
  }

  lemma RevokedInSnoc(ls: seq<Label>, l: Label, tp: T.TopicPartition)
    ensures RevokedIn(ls + [l], tp) <==> l == Revoke(tp) || (RevokedIn(ls, tp) && l != Assign(tp))
  {
    var all := ls + [l];
    assert forall i | 0 <= i < |ls| :: all[i] == ls[i];
    if RevokedIn(all, tp) {
      var i :| 0 <= i < |all| && all[i] == Revoke(tp) && forall j | i < j < |all| :: all[j] != Assign(tp);
      if i < |ls| {
        assert ls[i] == Revoke(tp) && all[|ls|] != Assign(tp);
        assert forall j | i < j < |ls| :: ls[j] == all[j];
      }
    }
    if l == Revoke(tp) {
      assert all[|ls|] == Revoke(tp);
    } else if RevokedIn(ls, tp) && l != Assign(tp) {
      var i :| 0 <= i < |ls| && ls[i] == Revoke(tp) && forall j | i < j < |ls| :: ls[j] != Assign(tp);
      assert all[i] == Revoke(tp) && forall j | i < j < |all| :: all[j] == if j < |ls| then ls[j] else l;
    }
  }

  lemma RevokedStep(s: State, l: Label, tp: T.TopicPartition)
    requires Enabled(s, l)
    ensures Apply(s, l).tracker.At(tp).revoked <==> l == Revoke(tp) || (s.tracker.At(tp).revoked && l != Assign(tp))
  {
    hide LatestAfter, LoopAfter, TaskAfter, T.Next;
    if Asks(s, l).Some? {
      T.RevokedStep(s.tracker, Asks(s, l).value, tp);
    }
  }

  /** In every run a partition is revoked exactly if its last rebalance was a revoke. */
  lemma {:induction false} RevokedByTheLast(c: Config, ls: seq<Label>, tp: T.TopicPartition)
    requires IsRun(c, ls)
    ensures After(c, ls).tracker.At(tp).revoked <==> RevokedIn(ls, tp)
    decreases |ls|
  {
    if ls != [] {
      hide IsRun, After, Apply, Enabled, RevokedIn;
      var before, l := ls[..|ls| - 1], ls[|ls| - 1];
      assert ls == before + [l];
      LastStep(c, before, l);
      RevokedByTheLast(c, before, tp);
      RevokedInSnoc(before, l, tp);
      RevokedStep(After(c, before), l, tp);
    }
  }

  /**
    A record pulled while its partition is assigned, neither revoked nor pulled
    again since, is let through to its handler when its turn comes.
  */
  lemma PulledReachesItsHandler(c: Config, ls: seq<Label>, a: nat)
    requires IsRun(c, ls) && a < |ls| && ls[a].Pull? && !RevokedIn(ls[..a], ls[a].record.at)
    requires forall b | a < b < |ls| :: ls[b] != Revoke(ls[a].record.at) && !SameOffset(ls, a, b)
    ensures IsRun(c, ls[..a])
    ensures var (s, t) := (After(c, ls), After(c, ls[..a]).tracker.tickets);
            t < |s.tasks| && s.tasks[t].stage.Check? ==>
              s.tasks[t].record == ls[a].record && CanMove(s, t, CheckHeld) && Moved(s, t, CheckHeld).stage.Decode?
  {
    PrefixIsRun(c, ls, a);
    RevokedByTheLast(c, ls[..a], ls[a].record.at);
    assert LatestPull(c, ls, a);
    LatestPullIsRemembered(c, ls, a);
    AlwaysInv(c, ls);
    var s, t := After(c, ls), After(c, ls[..a]).tracker.tickets;
    if t < |s.tasks| && s.tasks[t].stage.Check? {
      HeldAtTheCheck(s, ls[a].record, t);
    }
  }

  lemma HeldAtTheCheck(s: State, r: Record, t: nat)
    requires Inv(s) && Remembered(s, r, t) && t < |s.tasks| && s.tasks[t].stage.Check?
    ensures s.tasks[t].record == r && Moved(s, t, CheckHeld).stage.Decode?
  {
    assert LatestOk(s, r.at, r.offset) && TaskOk(s.tasks[t], |s.sends|);
  }

  /**
    Every pull of the current assignment at or below a stored offset is
    settled, or was pulled again, and then the last pull of its offset is.
  */
  lemma SettledOrPulledAgain(c: Config, ls: seq<Label>, l: Label, tp: T.TopicPartition, offset: int, a: nat)
    returns (b: nat)
    requires IsRun(c, ls) && Enabled(After(c, ls), l)
    requires T.Stored(tp, offset) in Stores(After(c, ls), l)
    requires a < |ls| && CurrentPull(c, ls, a) && ls[a].record.at == tp && ls[a].record.offset <= offset
    ensures a <= b < |ls| && SameOffset(ls, a, b) && LatestPull(c, ls, b)
    ensures Settled(Apply(After(c, ls), l), After(c, ls[..b]).tracker.tickets)
  {
    b := LatestOfItsOffset(c, ls, a);
    NoPulledRecordIsPassed(c, ls, l, tp, offset, b);
  }

  /** No offset is pulled twice within an assignment. */
  ghost predicate PulledOnce(c: Config, ls: seq<Label>)
    requires IsRun(c, ls)
  {
    forall a, b | 0 <= a < b < |ls| && CurrentPull(c, ls, a) :: !SameOffset(ls, a, b)
  }

  /** Where no offset is pulled twice, a stored offset passes no unsettled pull of the current assignment at all. */
  lemma PulledOnceIsSettled(c: Config, ls: seq<Label>, l: Label, tp: T.TopicPartition, offset: int, a: nat)
    requires IsRun(c, ls) && Enabled(After(c, ls), l) && PulledOnce(c, ls)
    requires T.Stored(tp, offset) in Stores(After(c, ls), l)
    requires a < |ls| && CurrentPull(c, ls, a) && ls[a].record.at == tp && ls[a].record.offset <= offset
    ensures Settled(Apply(After(c, ls), l), After(c, ls[..a]).tracker.tickets)
  {
    var b := SettledOrPulledAgain(c, ls, l, tp, offset, a);
  }

  // ------------------------------------------------- an offset pulled again

  const PULLED := Record(T.TopicPartition("t", 0), 0, None)

  /** The record is with the handler, and the loop is back for another. */
  lemma PulledAndEntered(s0: State) returns (s: State)
    requires Reached(RUN_CONFIG, s0) && s0.loop.NeedPlace? && s0.freeSlots >= 1 && s0.freePlaces >= 1
    requires s0.tracker.tickets == |s0.tasks| && !s0.tracker.At(PULLED.at).revoked
    ensures Reached(RUN_CONFIG, s) && s.loop.NeedPlace?
    ensures s.freeSlots == s0.freeSlots - 1 && s.freePlaces == s0.freePlaces - 1
    ensures s.tracker == s0.tracker.Insert(PULLED.at, PULLED.offset) && s.sends == s0.sends
    ensures s.tasks == s0.tasks + [Task(PULLED, None, true, Handle, Open)]
  {
    hide Reached, LatestAfter;
    var i := |s0.tasks|;
    s := s0;
    Reach(RUN_CONFIG, s, TakePlace);
    s := Apply(s, TakePlace);
    Reach(RUN_CONFIG, s, TakeSlot);
    s := Apply(s, TakeSlot);
    Reach(RUN_CONFIG, s, Pull(PULLED));
    s := Apply(s, Pull(PULLED));
    Reach(RUN_CONFIG, s, Spawn);
    s := Apply(s, Spawn);
    s := ReachMove(RUN_CONFIG, s, i, TakeTurn);
    s := ReachMove(RUN_CONFIG, s, i, AcquireSlot);
    s := ReachMove(RUN_CONFIG, s, i, CheckHeld);
    s := ReachMove(RUN_CONFIG, s, i, Enter);
  }

  /** The first pull with the handler, the second about to be completed. */
  lemma PulledTwice() returns (s: State)
    ensures Reached(RUN_CONFIG, s) && s.loop.NeedPlace?
    ensures s.tracker == T.INITIAL.Insert(PULLED.at, PULLED.offset).Insert(PULLED.at, PULLED.offset)
    ensures s.tasks == [Task(PULLED, None, true, Handle, Open), Task(PULLED, None, true, Mark(0), Returned(0))]
  {
    hide Reached, Apply;
    s := Initial(RUN_CONFIG);
    ReachStart(RUN_CONFIG);
    s := PulledAndEntered(s);
    s := PulledAndEntered(s);
    s := ReachMove(RUN_CONFIG, s, 1, ReturnOk);
    s := ReachMove(RUN_CONFIG, s, 1, LoadSends);
  }

  /**
    A run in which a record is pulled twice within an assignment: the second
    pull's completion stores the offset while the first is with the handler.
  */
  lemma PulledAgainIsPassed()
    ensures exists ls ::
              && IsRun(RUN_CONFIG, ls)
              && var s := After(RUN_CONFIG, ls);
              && |s.tasks| == 2 && s.tasks[0].record == s.tasks[1].record == PULLED
              && Enabled(s, Step(1, MarkDone)) && T.Stored(PULLED.at, PULLED.offset) in Stores(s, Step(1, MarkDone))
              && s.tasks[0].stage.Handle? && !Settled(Apply(s, Step(1, MarkDone)), 0)
  {
    var s := PulledTwice();
    T.LoneCompletionIsStored(s.tracker, PULLED.at, PULLED.offset, 1, 0);
    hide TrackerAfter, LatestAfter;
    assert Apply(s, Step(1, MarkDone)).tasks[0] == s.tasks[0];
    var ls := RunTo(RUN_CONFIG, s);
    assert IsRun(RUN_CONFIG, ls) && After(RUN_CONFIG, ls) == s;
  }

  // ---------------------------------------------------------- sends and reports

  /** The watermark is the least send without a report; once all are reported it is the send counter. */
  lemma AllReportedReachesCounter(c: Config, ls: seq<Label>)
    requires IsRun(c, ls)
    requires forall id | 0 <= id < |After(c, ls).sends| :: After(c, ls).sends[id].Reported()
    ensures T.Watermark(After(c, ls).tracker.reported) == |After(c, ls).sends|
  {
    AlwaysInv(c, ls);
    T.WatermarkUnique(After(c, ls).tracker.reported, |After(c, ls).sends|);
  }

  /** How often a run reports this send number to the tracker. */
  ghost function Reports(c: Config, ls: seq<Label>, id: nat): nat
    requires IsRun(c, ls)
    decreases |ls|
  {
    if ls == [] then 0
    else
      var (before, l) := (ls[..|ls| - 1], ls[|ls| - 1]);
      Reports(c, before, id) + if Asks(After(c, before), l) == Some(T.Report(id)) then 1 else 0
  }

  predicate Ended(s: State, id: nat) {
    id < |s.sends| && s.sends[id].Reported()
  }

  /** The guard's flag keeps its drop and the delivery report from both reporting. */
  lemma ReportStep(s: State, l: Label, id: nat)
    requires Enabled(s, l) && SendsMatch(s)
    ensures Ended(s, id) ==> Asks(s, l) != Some(T.Report(id))
    ensures Ended(Apply(s, l), id) <==> Ended(s, id) || Asks(s, l) == Some(T.Report(id))
  {
    hide TrackerAfter, LatestAfter;
  }

  lemma ReportsSnoc(c: Config, ls: seq<Label>, l: Label, id: nat)
    requires IsRun(c, ls + [l])
    ensures IsRun(c, ls) && Enabled(After(c, ls), l)
    ensures Reports(c, ls + [l], id)
            == Reports(c, ls, id) + if Asks(After(c, ls), l) == Some(T.Report(id)) then 1 else 0
  {
    LastStep(c, ls, l);
    hide IsRun, After, Apply, Asks;
    assert (ls + [l])[..|ls|] == ls;
  }

  lemma {:induction false} ReportsOfEnded(c: Config, ls: seq<Label>, id: nat)
    requires IsRun(c, ls)
    ensures Reports(c, ls, id) == if Ended(After(c, ls), id) then 1 else 0
    decreases |ls|
  {
    if ls != [] {
      hide IsRun, After, Apply, Enabled, Ended, Asks, Reports;
      var before, l := ls[..|ls| - 1], ls[|ls| - 1];
      assert ls == before + [l];
      LastStep(c, before, l);
      ReportsSnoc(c, before, l, id);
      AlwaysInv(c, before);
      ReportsOfEnded(c, before, id);
      ReportStep(After(c, before), l, id);
    }
  }

  lemma CanEnd(s: State, id: nat)
    requires id < |s.sends| && SendOk(s.sends[id]) && !Ended(s, id) && !s.loop.Ended?
    ensures Enabled(s, Report(id)) || (Enabled(s, DropSend(id)) && Asks(s, DropSend(id)) == Some(T.Report(id)))
  {
  }

  /**
    A send number is reported exactly once when its send has ended, by its
    delivery report or by its drop, and not at all before; and while the loop
    runs a send that has not ended can.
  */
  lemma ReportedExactlyOnce(c: Config, ls: seq<Label>, id: nat)
    requires IsRun(c, ls)
    ensures var s := After(c, ls);
            && Reports(c, ls, id) == (if Ended(s, id) then 1 else 0)
            && (id in s.tracker.reported <==> Ended(s, id))
            && (id < |s.sends| && !Ended(s, id) && !s.loop.Ended? ==>
                  || Enabled(s, Report(id))
                  || (Enabled(s, DropSend(id)) && Asks(s, DropSend(id)) == Some(T.Report(id))))
  {
    AlwaysInv(c, ls);
    ReportsOfEnded(c, ls, id);
    if id < |After(c, ls).sends| && !Ended(After(c, ls), id) && !After(c, ls).loop.Ended? {
      CanEnd(After(c, ls), id);
    }
    hide IsRun, After, Reports, History, T.Still, Enabled, Asks;
  }

  /** Once every task is past its completion, none failed and every send is reported, nothing is pending. */
  lemma QuietAtTheEnd(c: Config, ls: seq<Label>)
    requires IsRun(c, ls) && !After(c, ls).loop.Admitting?
    requires forall i | 0 <= i < |After(c, ls).tasks| ::
               After(c, ls).tasks[i].stage.Rank() > 6 && !After(c, ls).tasks[i].outcome.Failed?
    requires forall id | 0 <= id < |After(c, ls).sends| :: After(c, ls).sends[id].Reported()
    ensures forall tp :: After(c, ls).tracker.At(tp).pending == map[]
  {
    var s := After(c, ls);
    AlwaysInv(c, ls);
    AllReportedReachesCounter(c, ls);
    var delivered := T.Watermark(s.tracker.reported);
    forall tp
      ensures s.tracker.At(tp).pending == map[]
    {
      var p := s.tracker.At(tp).pending;
      forall k | k in p
        ensures p[k].Resolved(delivered)
      {
        assert PendingOk(s, tp, k) && LatestOk(s, tp, k);
      }
      assert T.Leading(p, delivered) == p.Keys;
    }
  }
}
