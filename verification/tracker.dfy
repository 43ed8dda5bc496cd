/**
  Which Kafka offsets a consumer may store. Records finish out of order, a
  record counts as resolved only once the sends issued before its completion
  have delivery reports, and a rebalance empties a partition.

  `Spec` is the simple form: a set of reported sends whose least missing number
  is the watermark, and a sweep of every partition after each change.
  `Tracker` is the working form: a counter with a set of early reports, a sweep
  of one partition after a completion, and no sweep unless the counter moved.
*/
module TrackerModel {
  import opened Base

  datatype TopicPartition = TopicPartition(topic: string, partition: int)

  datatype Stored = Stored(at: TopicPartition, offset: int)

  datatype Pending = Pending(ticket: nat, done: bool, sendsBefore: nat) {
    predicate Resolved(delivered: nat) {
      done && sendsBefore <= delivered
    }
  }

  datatype Partition = Partition(revoked: bool, pending: map<int, Pending>)

  const FRESH := Partition(false, map[])

  // ---------------------------------------------------------------- watermark

  /** The least send number at or above `from` that is not in `open`. */
  ghost function LeastFrom(open: set<nat>, from: nat): (n: nat)
    ensures from <= n && n !in open
    ensures forall m: nat | from <= m < n :: m in open
    decreases open
  {
    if from !in open then from else LeastFrom(open - {from}, from + 1)
  }

  /** The delivery watermark: the least send number without a report. */
  ghost function Watermark(reported: set<nat>): (n: nat)
    ensures n !in reported
    ensures forall m: nat | m < n :: m in reported
  {
    LeastFrom(reported, 0)
  }

  lemma WatermarkUnique(reported: set<nat>, n: nat)
    requires n !in reported
    requires forall m: nat | m < n :: m in reported
    ensures Watermark(reported) == n
  {
  }

  lemma WatermarkGrows(reported: set<nat>, more: set<nat>)
    requires reported <= more
    ensures Watermark(reported) <= Watermark(more)
  {
  }

  // ------------------------------------------------------- resolving a prefix

  /** The pending offsets that are resolved together with every lower one. */
  ghost function Leading(pending: map<int, Pending>, delivered: nat): set<int> {
    set k | k in pending && forall j | j in pending && j <= k :: pending[j].Resolved(delivered)
  }

  ghost predicate Greatest(s: set<int>, m: int) {
    m in s && forall k | k in s :: k <= m
  }

  ghost predicate Quiet(partition: Partition, delivered: nat) {
    Leading(partition.pending, delivered) == {}
  }

  ghost predicate Quiescent(parts: map<TopicPartition, Partition>, delivered: nat) {
    forall tp | tp in parts :: Quiet(parts[tp], delivered)
  }

  ghost function Settle(partition: Partition, delivered: nat): Partition {
    partition.(pending := partition.pending - Leading(partition.pending, delivered))
  }

  ghost function SettleAt(parts: map<TopicPartition, Partition>, at: set<TopicPartition>, delivered: nat)
    : map<TopicPartition, Partition>
  {
    map tp | tp in parts :: if tp in at then Settle(parts[tp], delivered) else parts[tp]
  }

  /** What a scan of the partitions `at` hands back: each one's last leading offset. */
  ghost function Scan(parts: map<TopicPartition, Partition>, at: set<TopicPartition>, delivered: nat): set<Stored> {
    set tp, k | tp in parts && tp in at && k in parts[tp].pending
                && Greatest(Leading(parts[tp].pending, delivered), k) :: Stored(tp, k)
  }

  lemma SettledIsQuiet(partition: Partition, delivered: nat)
    ensures Quiet(Settle(partition, delivered), delivered)
  {
    var p, rest := partition.pending, Settle(partition, delivered).pending;
    forall k | k in rest
      ensures k !in Leading(rest, delivered)
    {
      var j :| j in p && j <= k && !p[j].Resolved(delivered);
      assert j in rest;
    }
  }

  lemma QuietSettles(partition: Partition, delivered: nat)
    requires Quiet(partition, delivered)
    ensures Settle(partition, delivered) == partition
  {
  }

  /** A partition that is quiet contributes nothing to a scan and is unchanged by it. */
  lemma ScanWhereLoud(parts: map<TopicPartition, Partition>, at: set<TopicPartition>, all: set<TopicPartition>,
                      delivered: nat)
    requires at <= all
    requires forall tp | tp in parts && tp !in at :: Quiet(parts[tp], delivered)
    ensures SettleAt(parts, at, delivered) == SettleAt(parts, all, delivered)
    ensures Scan(parts, at, delivered) == Scan(parts, all, delivered)
  {
    forall tp | tp in parts && tp !in at
      ensures Settle(parts[tp], delivered) == parts[tp]
    {
      QuietSettles(parts[tp], delivered);
    }
  }

  lemma SettleAllIsQuiescent(parts: map<TopicPartition, Partition>, delivered: nat)
    ensures Quiescent(SettleAt(parts, parts.Keys, delivered), delivered)
  {
    forall tp | tp in parts
      ensures Quiet(Settle(parts[tp], delivered), delivered)
    {
      SettledIsQuiet(parts[tp], delivered);
    }
  }

  // -------------------------------------------------------- the simple form

  datatype Spec = Spec(parts: map<TopicPartition, Partition>, reported: set<nat>, tickets: nat) {
    function At(tp: TopicPartition): Partition {
      if tp in parts then parts[tp] else FRESH
    }

    predicate Holds(tp: TopicPartition, offset: int, ticket: nat) {
      offset in At(tp).pending && At(tp).pending[offset].ticket == ticket
    }

    ghost function Sweep(): Spec {
      this.(parts := SettleAt(parts, parts.Keys, Watermark(reported)))
    }

    ghost function Swept(): set<Stored> {
      Scan(parts, parts.Keys, Watermark(reported))
    }

    /** The completion noted, before any sweep. */
    function Marked(tp: TopicPartition, offset: int, ticket: nat, sendsBefore: nat): Spec {
      if Holds(tp, offset, ticket) then
        var p := At(tp);
        this.(parts := parts[tp := p.(pending := p.pending[offset := Pending(ticket, true, sendsBefore)])])
      else this
    }

    function Insert(tp: TopicPartition, offset: int): Spec {
      var p := At(tp);
      var p' := if p.revoked then p else p.(pending := p.pending[offset := Pending(tickets, false, 0)]);
      this.(parts := parts[tp := p'], tickets := tickets + 1)
    }

    function Revoke(tp: TopicPartition): Spec {
      this.(parts := parts[tp := Partition(true, map[])])
    }

    function Assign(tp: TopicPartition): Spec {
      this.(parts := parts[tp := At(tp).(revoked := false)])
    }
  }

  const INITIAL := Spec(map[], {}, 0)

  datatype Event =
    | Insert(at: TopicPartition, offset: int)
    | Done(at: TopicPartition, offset: int, ticket: nat, sendsBefore: nat)
    | Report(id: nat)
    | Revoke(at: TopicPartition)
    | Assign(at: TopicPartition)

  /** The state an event leaves before the sweep. */
  ghost function Changed(s: Spec, e: Event): Spec {
    match e
    case Insert(tp, offset) => s.Insert(tp, offset)
    case Done(tp, offset, ticket, sendsBefore) => s.Marked(tp, offset, ticket, sendsBefore)
    case Report(id) => s.(reported := s.reported + {id})
    case Revoke(tp) => s.Revoke(tp)
    case Assign(tp) => s.Assign(tp)
  }

  predicate Sweeps(e: Event) {
    e.Done? || e.Report?
  }

  ghost function Next(s: Spec, e: Event): Spec {
    if Sweeps(e) then Changed(s, e).Sweep() else Changed(s, e)
  }

  ghost function Returned(s: Spec, e: Event): set<Stored> {
    if Sweeps(e) then Changed(s, e).Swept() else {}
  }

  ghost function Run(es: seq<Event>): Spec {
    if es == [] then INITIAL else Next(Run(es[..|es| - 1]), es[|es| - 1])
  }

  ghost predicate Still(s: Spec) {
    Quiescent(s.parts, Watermark(s.reported))
  }

  // ------------------------------------------------ what every event keeps

  /** An offset handed back leaves no pending record at or below it. */
  lemma NothingAtOrBelow(s: Spec, e: Event, tp: TopicPartition, offset: int)
    requires Stored(tp, offset) in Returned(s, e)
    ensures offset in Changed(s, e).At(tp).pending
    ensures forall k | k in Next(s, e).At(tp).pending :: offset < k
  {
  }

  lemma StillStep(s: Spec, e: Event)
    requires Still(s)
    ensures Still(Next(s, e))
  {
    var delivered := Watermark(s.reported);
    if Sweeps(e) {
      var c := Changed(s, e);
      SettleAllIsQuiescent(c.parts, Watermark(c.reported));
    } else {
      var tp := e.at;
      var before, after := s.At(tp).pending, Next(s, e).At(tp).pending;
      forall k | k in after
        ensures k !in Leading(after, delivered)
      {
        if k in before {
          assert k !in Leading(before, delivered);
          var j :| j in before && j <= k && !before[j].Resolved(delivered);
          assert j in after && !after[j].Resolved(delivered);
        }
      }
    }
  }

  /** In every reachable state no partition's lowest pending record is resolved. */
  lemma {:induction false} AlwaysStill(es: seq<Event>)
    ensures Still(Run(es))
  {
    if es != [] {
      AlwaysStill(es[..|es| - 1]);
      StillStep(Run(es[..|es| - 1]), es[|es| - 1]);
    }
  }

  /** So scanning the completed record's own partition is scanning them all. */
  lemma OwnPartitionSuffices(es: seq<Event>, tp: TopicPartition, offset: int, ticket: nat, sendsBefore: nat)
    ensures var s := Run(es);
            var e := Done(tp, offset, ticket, sendsBefore);
            var c := Changed(s, e);
            var delivered := Watermark(s.reported);
            && Next(s, e).parts == SettleAt(c.parts, {tp}, delivered)
            && Returned(s, e) == Scan(c.parts, {tp}, delivered)
  {
    AlwaysStill(es);
    var c := Run(es).Marked(tp, offset, ticket, sendsBefore);
    var delivered := Watermark(c.reported);
    ScanWhereLoud(c.parts, {tp}, c.parts.Keys + {tp}, delivered);
    ScanWhereLoud(c.parts, c.parts.Keys, c.parts.Keys + {tp}, delivered);
  }

  lemma StillSweepIsIdle(s: Spec)
    requires Still(s)
    ensures s.Sweep() == s && s.Swept() == {}
  {
    var delivered := Watermark(s.reported);
    ScanWhereLoud(s.parts, {}, s.parts.Keys, delivered);
    assert SettleAt(s.parts, {}, delivered) == s.parts;
    assert Scan(s.parts, {}, delivered) == {};
  }

  // ------------------------------------------------------- stale completions

  ghost predicate Absent(s: Spec, tp: TopicPartition, ticket: nat) {
    && ticket < s.tickets
    && forall k | k in s.At(tp).pending :: s.At(tp).pending[k].ticket != ticket
  }

  lemma AbsentStep(s: Spec, e: Event, tp: TopicPartition, ticket: nat)
    requires Absent(s, tp, ticket)
    ensures Absent(Next(s, e), tp, ticket)
  {
    var c := Changed(s, e);
    forall k | k in c.At(tp).pending
      ensures c.At(tp).pending[k].ticket != ticket
    {
      if k in s.At(tp).pending {
        assert s.At(tp).pending[k].ticket != ticket;
      }
    }
    forall k | k in Next(s, e).At(tp).pending
      ensures k in c.At(tp).pending && Next(s, e).At(tp).pending[k] == c.At(tp).pending[k]
    {
    }
  }

  lemma {:induction false} AbsentFrom(es: seq<Event>, more: seq<Event>, tp: TopicPartition, ticket: nat)
    requires Absent(Run(es), tp, ticket)
    ensures Absent(Run(es + more), tp, ticket)
  {
    if more == [] {
      assert es + more == es;
    } else {
      var init := more[..|more| - 1];
      AbsentFrom(es, init, tp, ticket);
      assert (es + more)[..|es + more| - 1] == es + init;
      AbsentStep(Run(es + init), more[|more| - 1], tp, ticket);
    }
  }

  /**
    A completion whose ticket was issued before a revoke changes nothing and
    hands nothing back, whatever came since, the same offset pulled again
    included.
  */
  lemma StaleCompletionIsIdle(before: seq<Event>, tp: TopicPartition, since: seq<Event>,
                              offset: int, ticket: nat, sendsBefore: nat)
    requires ticket < Run(before).tickets
    ensures var s := Run(before + [Revoke(tp)] + since);
            var e := Done(tp, offset, ticket, sendsBefore);
            Next(s, e) == s && Returned(s, e) == {}
  {
    var revoked := before + [Revoke(tp)];
    assert revoked[..|revoked| - 1] == before;
    assert Absent(Run(revoked), tp, ticket);
    AbsentFrom(revoked, since, tp, ticket);
    AlwaysStill(revoked + since);
    StillSweepIsIdle(Run(revoked + since));
  }

  /** Along every run the watermark never drops. */
  lemma {:induction false} WatermarkNeverDrops(es: seq<Event>, more: seq<Event>)
    ensures Watermark(Run(es).reported) <= Watermark(Run(es + more).reported)
  {
    if more == [] {
      assert es + more == es;
    } else {
      var init, e := more[..|more| - 1], more[|more| - 1];
      WatermarkNeverDrops(es, init);
      assert (es + more)[..|es + more| - 1] == es + init;
      assert Run(es + more) == Next(Run(es + init), e);
      WatermarkGrows(Run(es + init).reported, Run(es + more).reported);
    }
  }

  // --------------------------------------------------- revokes and assignments

  /** In these events the partition was revoked and has not been assigned since. */
  ghost predicate RevokedIn(es: seq<Event>, tp: TopicPartition) {
    exists i :: 0 <= i < |es| && es[i] == Revoke(tp) && forall j | i < j < |es| :: es[j] != Assign(tp)
  }

  lemma RevokedInSnoc(es: seq<Event>, e: Event, tp: TopicPartition)
    ensures RevokedIn(es + [e], tp) <==> e == Revoke(tp) || (RevokedIn(es, tp) && e != Assign(tp))
  {
    var all := es + [e];
    assert forall i | 0 <= i < |es| :: all[i] == es[i];
    if RevokedIn(all, tp) {
      var i :| 0 <= i < |all| && all[i] == Revoke(tp) && forall j | i < j < |all| :: all[j] != Assign(tp);
      if i < |es| {
        assert es[i] == Revoke(tp) && all[|es|] != Assign(tp);
        assert forall j | i < j < |es| :: es[j] == all[j];
      }
    }
    if e == Revoke(tp) {
      assert all[|es|] == Revoke(tp);
    } else if RevokedIn(es, tp) && e != Assign(tp) {
      var i :| 0 <= i < |es| && es[i] == Revoke(tp) && forall j | i < j < |es| :: es[j] != Assign(tp);
      assert all[i] == Revoke(tp) && forall j | i < j < |all| :: all[j] == if j < |es| then es[j] else e;
    }
  }

  lemma RevokedStep(s: Spec, e: Event, tp: TopicPartition)
    ensures Next(s, e).At(tp).revoked <==> e == Revoke(tp) || (s.At(tp).revoked && e != Assign(tp))
  {
  }

  /** A partition is revoked exactly if the last revoke or assignment of it was a revoke. */
  lemma {:induction false} RevokedByTheLast(es: seq<Event>, tp: TopicPartition)
    ensures Run(es).At(tp).revoked <==> RevokedIn(es, tp)
  {
    if es != [] {
      var before, e := es[..|es| - 1], es[|es| - 1];
      assert es == before + [e];
      RevokedByTheLast(before, tp);
      RevokedInSnoc(before, e, tp);
      RevokedStep(Run(before), e, tp);
    }
  }

  /** An assignment changes nothing that is pending, reported or handed out, and hands nothing back. */
  lemma AssignKeepsPending(s: Spec, tp: TopicPartition, other: TopicPartition)
    ensures Next(s, Assign(tp)).At(other).pending == s.At(other).pending
    ensures Next(s, Assign(tp)).reported == s.reported && Next(s, Assign(tp)).tickets == s.tickets
    ensures Returned(s, Assign(tp)) == {}
  {
  }

  /** A pull of a partition whose last rebalance was no revoke is pending under its own ticket. */
  lemma PullIsHeld(es: seq<Event>, tp: TopicPartition, offset: int)
    requires !RevokedIn(es, tp)
    ensures Run(es + [Insert(tp, offset)]).Holds(tp, offset, Run(es).tickets)
    ensures Run(es + [Insert(tp, offset)]).At(tp).pending - {offset} == Run(es).At(tp).pending - {offset}
  {
    RevokedByTheLast(es, tp);
    assert (es + [Insert(tp, offset)])[..|es|] == es;
  }

  lemma {:induction false} HasGreatest(s: set<int>) returns (m: int)
    requires s != {}
    ensures Greatest(s, m)
    decreases s
  {
    var x := Pick(s);
    var rest := s - {x};
    assert s == rest + {x};
    if rest == {} {
      m := x;
    } else {
      m := HasGreatest(rest);
      if x > m {
        m := x;
      }
    }
  }

  /** A pending record resolved with every lower one is stored past at once: it or a later offset is handed back. */
  lemma ResolvedIsStored(s: Spec, e: Event, tp: TopicPartition, offset: int) returns (stored: int)
    requires Sweeps(e) && offset in Changed(s, e).At(tp).pending
    requires var c := Changed(s, e);
             forall k | k in c.At(tp).pending && k <= offset :: c.At(tp).pending[k].Resolved(Watermark(c.reported))
    ensures offset <= stored && Stored(tp, stored) in Returned(s, e) && stored in Changed(s, e).At(tp).pending
  {
    var c := Changed(s, e);
    var leading := Leading(c.At(tp).pending, Watermark(c.reported));
    assert offset in leading;
    stored := HasGreatest(leading);
  }

  /** The completion of a record pulled since the partition was assigned, all before it reported, hands it back. */
  lemma PulledIsStored(es: seq<Event>, tp: TopicPartition, offset: int, sendsBefore: nat)
    requires !RevokedIn(es, tp) && Run(es).At(tp).pending.Keys <= {offset}
    requires forall n: nat | n < sendsBefore :: n in Run(es).reported
    ensures var s := Run(es + [Insert(tp, offset)]);
            Stored(tp, offset) in Returned(s, Done(tp, offset, Run(es).tickets, sendsBefore))
  {
    PullIsHeld(es, tp, offset);
    var s := Run(es + [Insert(tp, offset)]);
    assert s == Next(Run(es), Insert(tp, offset)) by {
      assert (es + [Insert(tp, offset)])[..|es|] == es;
    }
    LoneCompletionIsStored(s, tp, offset, Run(es).tickets, sendsBefore);
  }

  /** With nothing else pending in the partition and its sends reported, a completion hands its offset back. */
  lemma LoneCompletionIsStored(s: Spec, tp: TopicPartition, offset: int, ticket: nat, sendsBefore: nat)
    requires s.Holds(tp, offset, ticket) && s.At(tp).pending.Keys == {offset}
    requires forall n: nat | n < sendsBefore :: n in s.reported
    ensures Stored(tp, offset) in Returned(s, Done(tp, offset, ticket, sendsBefore))
  {
    var e := Done(tp, offset, ticket, sendsBefore);
    assert sendsBefore <= Watermark(s.reported);
    assert Changed(s, e).At(tp).pending.Keys == {offset};
    var stored := ResolvedIsStored(s, e, tp, offset);
  }

  // ------------------------------------------- returned offsets only increase

  predicate NoRevoke(es: seq<Event>, tp: TopicPartition, from: nat, to: nat)
    requires from <= to <= |es|
  {
    forall i | from <= i < to :: es[i] != Revoke(tp)
  }

  /** A pull at position `i` that the tracker took in: its partition was not revoked. */
  ghost predicate Accepted(es: seq<Event>, tp: TopicPartition, i: nat)
    requires i < |es|
  {
    es[i].Insert? && es[i].at == tp && !Run(es[..i]).At(tp).revoked
  }

  /** Within one assignment the accepted pulls of a partition ascend. */
  ghost predicate Ascending(es: seq<Event>, tp: TopicPartition) {
    forall i, j | 0 <= i < j < |es| && Accepted(es, tp, i) && Accepted(es, tp, j) && NoRevoke(es, tp, i, j) ::
      es[i].offset < es[j].offset
  }

  lemma NextPendingFromChanged(s: Spec, e: Event, tp: TopicPartition, k: int)
    requires k in Next(s, e).At(tp).pending
    ensures k in Changed(s, e).At(tp).pending
  {
  }

  /** Whatever is pending after `n` events was pulled in the current assignment. */
  lemma {:induction false} PendingWasPulled(es: seq<Event>, n: nat, tp: TopicPartition, k: int) returns (i: nat)
    requires n <= |es|
    requires k in Run(es[..n]).At(tp).pending
    ensures i < n && Accepted(es, tp, i) && es[i].offset == k && NoRevoke(es, tp, i, n)
  {
    assert n > 0;
    var s, e := Run(es[..n - 1]), es[n - 1];
    assert es[..n][..n - 1] == es[..n - 1];
    NextPendingFromChanged(s, e, tp, k);
    if k in s.At(tp).pending && !(e == Revoke(tp)) {
      i := PendingWasPulled(es, n - 1, tp, k);
    } else {
      i := n - 1;
    }
  }

  lemma StoredWasPulled(es: seq<Event>, tp: TopicPartition, i: nat, offset: int) returns (pulled: nat)
    requires i < |es|
    requires Stored(tp, offset) in Returned(Run(es[..i]), es[i])
    ensures pulled < i && Accepted(es, tp, pulled) && es[pulled].offset == offset
    ensures NoRevoke(es, tp, pulled, i + 1)
  {
    NothingAtOrBelow(Run(es[..i]), es[i], tp, offset);
    assert offset in Run(es[..i]).At(tp).pending;
    pulled := PendingWasPulled(es, i, tp, offset);
  }

  /** A pull after `offset` was handed back, in the same assignment, is of a higher offset. */
  lemma LaterPullIsAbove(es: seq<Event>, tp: TopicPartition, i: nat, j: nat, offset: int)
    requires Ascending(es, tp)
    requires i < j < |es| && NoRevoke(es, tp, i + 1, j) && Accepted(es, tp, j)
    requires Stored(tp, offset) in Returned(Run(es[..i]), es[i])
    ensures offset < es[j].offset
  {
    hide Returned, Run;
    var pulled := StoredWasPulled(es, tp, i, offset);
    assert NoRevoke(es, tp, pulled, j);
  }

  lemma StaysAboveStep(es: seq<Event>, tp: TopicPartition, i: nat, j: nat, offset: int, k: int)
    requires Ascending(es, tp)
    requires i < j < |es| && NoRevoke(es, tp, i + 1, j)
    requires Stored(tp, offset) in Returned(Run(es[..i]), es[i])
    requires forall k | k in Run(es[..j]).At(tp).pending :: offset < k
    requires k in Next(Run(es[..j]), es[j]).At(tp).pending
    ensures offset < k
  {
    hide Ascending, Returned, Run;
    NextPendingFromChanged(Run(es[..j]), es[j], tp, k);
    hide Next;
    if k !in Run(es[..j]).At(tp).pending {
      LaterPullIsAbove(es, tp, i, j, offset);
    }
  }

  /** Once `offset` has been handed back, everything pending later in the assignment lies above it. */
  lemma {:induction false} StaysAbove(es: seq<Event>, tp: TopicPartition, i: nat, j: nat, offset: int)
    requires Ascending(es, tp)
    requires i < j <= |es| && NoRevoke(es, tp, i + 1, j)
    requires Stored(tp, offset) in Returned(Run(es[..i]), es[i])
    ensures forall k | k in Run(es[..j]).At(tp).pending :: offset < k
  {
    hide Ascending, Returned;
    var s, e := Run(es[..j - 1]), es[j - 1];
    assert es[..j][..j - 1] == es[..j - 1];
    assert Run(es[..j]) == Next(s, e);
    hide Next, Run;
    if j == i + 1 {
      NothingAtOrBelow(s, e, tp, offset);
    } else {
      StaysAbove(es, tp, i, j - 1, offset);
      forall k | k in Next(s, e).At(tp).pending
        ensures offset < k
      {
        StaysAboveStep(es, tp, i, j - 1, offset, k);
      }
    }
  }

  /** With pulls ascending, the offsets handed back within an assignment strictly increase. */
  lemma StoredOffsetsIncrease(es: seq<Event>, tp: TopicPartition, i: nat, j: nat, first: int, second: int)
    requires Ascending(es, tp)
    requires i < j < |es| && NoRevoke(es, tp, i + 1, j)
    requires Stored(tp, first) in Returned(Run(es[..i]), es[i])
    requires Stored(tp, second) in Returned(Run(es[..j]), es[j])
    ensures first < second
  {
    StaysAbove(es, tp, i, j, first);
    NothingAtOrBelow(Run(es[..j]), es[j], tp, second);
    assert second in Run(es[..j]).At(tp).pending;
  }

  /** Once every pending record is done and every send it waited on reported, nothing is pending. */
  lemma Drained(es: seq<Event>, sends: nat)
    requires forall n: nat | n < sends :: n in Run(es).reported
    requires forall tp, k | tp in Run(es).parts && k in Run(es).parts[tp].pending ::
               Run(es).parts[tp].pending[k].Resolved(sends)
    ensures forall tp | tp in Run(es).parts :: Run(es).parts[tp].pending == map[]
  {
    AlwaysStill(es);
    var s := Run(es);
    var delivered := Watermark(s.reported);
    assert sends <= delivered;
    forall tp | tp in s.parts
      ensures s.parts[tp].pending == map[]
    {
      var p := s.parts[tp].pending;
      assert forall k | k in p :: k in Leading(p, delivered);
    }
  }

  // --------------------------------------------------------- the working form

  ghost predicate Least(s: set<int>, m: int) {
    m in s && forall k | k in s :: m <= k
  }

  lemma {:induction false} HasLeast(s: set<int>) returns (m: int)
    requires s != {}
    ensures Least(s, m)
    decreases s
  {
    var x := Pick(s);
    var rest := s - {x};
    assert s == rest + {x};
    if rest == {} {
      m := x;
    } else {
      m := HasLeast(rest);
      if x < m {
        m := x;
      }
    }
  }

  /** What is left above the last resolved record, its lowest record unresolved, is what is not leading. */
  lemma LeadingIs(all: map<int, Pending>, left: set<int>, last: Option<int>, delivered: nat)
    requires left <= all.Keys && forall k | k in all :: k in left <==> last.None? || last.value < k
    requires forall k | k in all && k !in left :: all[k].Resolved(delivered)
    requires left != {} ==> exists k :: Least(left, k) && !all[k].Resolved(delivered)
    ensures Leading(all, delivered) == all.Keys - left
  {
    forall k: int
      ensures k in Leading(all, delivered) <==> k in all.Keys - left
    {
      if k in left {
        var first :| Least(left, first) && !all[first].Resolved(delivered);
        assert first in all && first <= k;
      } else if k in all {
        assert forall j | j in all && j <= k :: j !in left;
      }
    }
  }

  lemma LeadingIsRemoved(all: map<int, Pending>, left: map<int, Pending>, last: Option<int>, delivered: nat)
    requires left.Keys <= all.Keys && forall k | k in left :: left[k] == all[k]
    requires forall k | k in all :: k in left <==> last.None? || last.value < k
    requires forall k | k in all && k !in left :: all[k].Resolved(delivered)
    requires left != map[] ==> exists k :: Least(left.Keys, k) && !left[k].Resolved(delivered)
    ensures left == all - Leading(all, delivered)
    ensures Leading(all, delivered) == all.Keys - left.Keys
  {
    hide Leading;
    LeadingIs(all, left.Keys, last, delivered);
    var rest := all - Leading(all, delivered);
    assert left.Keys == rest.Keys;
    assert forall k | k in left :: left[k] == rest[k];
  }

  method FirstEntry(pending: map<int, Pending>) returns (first: int)
    requires pending != map[]
    ensures Least(pending.Keys, first)
  {
    assert pending.Keys != {};
    ghost var least := HasLeast(pending.Keys);
    first :| first in pending.Keys && forall k | k in pending.Keys :: first <= k;
  }

  /** The leading resolved records leave; the last of them is the new resolved offset. */
  method Resolve(partition: Partition, delivered: nat) returns (rest: Partition, last: Option<int>)
    ensures rest == Settle(partition, delivered)
    ensures last.None? ==> Quiet(partition, delivered)
    ensures last.Some? ==> Greatest(Leading(partition.pending, delivered), last.value)
  {
    ghost var all := partition.pending;
    var pending := partition.pending;
    last := None;
    while pending != map[]
      invariant pending.Keys <= all.Keys && forall k | k in pending :: pending[k] == all[k]
      invariant last.None? ==> pending == all
      invariant last.Some? ==> last.value in all && forall k | k in all :: k in pending <==> last.value < k
      invariant forall k | k in all && k !in pending :: all[k].Resolved(delivered)
      decreases pending.Keys
    {
      var first := FirstEntry(pending);
      if !pending[first].Resolved(delivered) {
        break;
      }
      last := Some(first);
      pending := pending - {first};
    }
    LeadingIsRemoved(all, pending, last, delivered);
    rest := Partition(partition.revoked, pending);
  }

  ghost function AsSet(stored: seq<Stored>): set<Stored> {
    set x | x in stored
  }

  ghost predicate OnePerPartition(stored: seq<Stored>) {
    forall i, j | 0 <= i < j < |stored| :: stored[i].at != stored[j].at
  }

  class Tracker {
    var topics: map<TopicPartition, Partition>
    // every send numbered below this has a delivery report
    var delivered: nat
    var outOfOrder: set<nat>
    var tickets: nat
    ghost var reported: set<nat>

    ghost function Abstract(): Spec
      reads this
    {
      Spec(topics, reported, tickets)
    }

    /** The counter and the early reports are exactly the watermark's two parts. */
    ghost predicate Valid()
      reads this
    {
      && delivered == Watermark(reported)
      && outOfOrder == (set id | id in reported && delivered < id)
      && Quiescent(topics, delivered)
    }

    constructor ()
      ensures Valid() && Abstract() == INITIAL
    {
      topics, delivered, outOfOrder, tickets, reported := map[], 0, {}, 0, {};
    }

    method Insert(tp: TopicPartition, offset: int) returns (ticket: nat)
      requires Valid()
      modifies this
      ensures Valid() && ticket == old(tickets)
      ensures Abstract() == Next(old(Abstract()), Event.Insert(tp, offset))
    {
      StillStep(Abstract(), Event.Insert(tp, offset));
      ticket := tickets;
      tickets := tickets + 1;
      var state := if tp in topics then topics[tp] else FRESH;
      if !state.revoked {
        state := state.(pending := state.pending[offset := Pending(ticket, false, 0)]);
      }
      topics := topics[tp := state];
    }

    function Holds(tp: TopicPartition, offset: int, ticket: nat): (held: bool)
      reads this
      ensures held <==> Abstract().Holds(tp, offset, ticket)
    {
      tp in topics && offset in topics[tp].pending && topics[tp].pending[offset].ticket == ticket
    }

    /** Only the record's own partition is scanned; the result is a full sweep's. */
    method Done(tp: TopicPartition, offset: int, ticket: nat, sendsBefore: nat) returns (stored: Option<Stored>)
      requires Valid()
      modifies this`topics
      ensures Valid()
      ensures Abstract() == Next(old(Abstract()), Event.Done(tp, offset, ticket, sendsBefore))
      ensures (if stored.Some? then {stored.value} else {})
              == Returned(old(Abstract()), Event.Done(tp, offset, ticket, sendsBefore))
    {
      ghost var s := Abstract();
      StillStep(s, Event.Done(tp, offset, ticket, sendsBefore));
      if !Holds(tp, offset, ticket) {
        StillSweepIsIdle(s);
        return None;
      }
      var state := topics[tp];
      state := state.(pending := state.pending[offset := Pending(ticket, true, sendsBefore)]);
      ghost var marked := topics[tp := state];
      ScanWhereLoud(marked, {tp}, marked.Keys, delivered);
      var rest, last := Resolve(state, delivered);
      topics := topics[tp := rest];
      assert topics == SettleAt(marked, {tp}, delivered);
      stored := if last.Some? then Some(Stored(tp, last.value)) else None;
      assert Scan(marked, {tp}, delivered) == if stored.Some? then {stored.value} else {} by {
        if last.Some? {
          assert last.value in state.pending;
        }
      }
    }

    method Revoke(tp: TopicPartition)
      requires Valid()
      modifies this`topics
      ensures Valid() && Abstract() == Next(old(Abstract()), Event.Revoke(tp))
    {
      StillStep(Abstract(), Event.Revoke(tp));
      topics := topics[tp := Partition(true, map[])];
    }

    method Assign(tp: TopicPartition)
      requires Valid()
      modifies this`topics
      ensures Valid() && Abstract() == Next(old(Abstract()), Event.Assign(tp))
    {
      StillStep(Abstract(), Event.Assign(tp));
      var state := if tp in topics then topics[tp] else FRESH;
      topics := topics[tp := state.(revoked := false)];
    }

    /** The counter passes its own number and every early report that follows it. */
    method Advance()
      requires delivered == Watermark(reported)
      requires outOfOrder == (set id | id in reported && delivered < id)
      modifies this`delivered, this`outOfOrder, this`reported
      ensures reported == old(reported) + {old(delivered)}
      ensures delivered == Watermark(reported)
      ensures outOfOrder == (set id | id in reported && delivered < id)
    {
      ghost var all := reported + {delivered};
      reported := all;
      delivered := delivered + 1;
      while delivered in outOfOrder
        invariant reported == all
        invariant forall m: nat | m < delivered :: m in reported
        invariant outOfOrder == (set id | id in reported && delivered <= id)
        decreases outOfOrder
      {
        outOfOrder := outOfOrder - {delivered};
        delivered := delivered + 1;
      }
      WatermarkUnique(reported, delivered);
    }

    method ResolveAll() returns (stored: seq<Stored>)
      modifies this`topics
      ensures topics == SettleAt(old(topics), old(topics).Keys, delivered)
      ensures AsSet(stored) == Scan(old(topics), old(topics).Keys, delivered)
      ensures OnePerPartition(stored)
    {
      ghost var parts, done := topics, {};
      var todo := topics.Keys;
      stored := [];
      while todo != {}
        invariant done + todo == parts.Keys && done !! todo
        invariant topics == SettleAt(parts, done, delivered)
        invariant AsSet(stored) == Scan(parts, done, delivered)
        invariant OnePerPartition(stored) && forall x | x in stored :: x.at in done
        decreases todo
      {
        var tp :| tp in todo;
        var rest, last := Resolve(topics[tp], delivered);
        topics := topics[tp := rest];
        ghost var sofar := stored;
        if last.Some? {
          stored := stored + [Stored(tp, last.value)];
          assert last.value in parts[tp].pending;
        }
        assert Scan(parts, done + {tp}, delivered) ==
               Scan(parts, done, delivered) + if last.Some? then {Stored(tp, last.value)} else {};
        assert AsSet(stored) == AsSet(sofar) + if last.Some? then {Stored(tp, last.value)} else {};
        done, todo := done + {tp}, todo - {tp};
      }
      assert done == parts.Keys;
    }

    /** Nothing is scanned unless the counter moves; the result is a full sweep's all the same. */
    method NoteDelivered(id: nat) returns (stored: seq<Stored>)
      requires Valid()
      modifies this
      ensures Valid()
      ensures Abstract() == Next(old(Abstract()), Event.Report(id))
      ensures AsSet(stored) == Returned(old(Abstract()), Event.Report(id)) && OnePerPartition(stored)
    {
      ghost var s := Abstract();
      StillStep(s, Event.Report(id));
      if id != delivered {
        reported := reported + {id};
        WatermarkUnique(reported, delivered);
        StillSweepIsIdle(s.(reported := reported));
        if id > delivered {
          outOfOrder := outOfOrder + {id};
        }
        assert s.reported + {id} == reported;
        return [];
      }
      Advance();
      stored := ResolveAll();
    }
  }
}
