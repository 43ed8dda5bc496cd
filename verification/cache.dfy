/**
  The schema registry's single-flight cache. A caller that misses starts a
  fetch and leaves it in the entry map; callers that miss while it runs share
  it; every caller that sees the outcome settles the entry, unless the entry
  has moved on. Callers may be dropped at any point.
*/
module CacheModel {
  import opened Base

  datatype Entry<+V> = Ready(value: V) | Fetching(fetch: nat)

  // ---------------------------------------------------- the two locked sections

  /** What a caller finds in the map: a value, a fetch to share, or neither. */
  datatype Found<+V> = Hit(value: V) | Share(fetch: nat) | Miss

  function Look<K, V>(entries: map<K, Entry<V>>, key: K): Found<V> {
    if key !in entries then Miss
    else match entries[key]
      case Ready(v) => Hit(v)
      case Fetching(f) => Share(f)
  }

  /** A finished fetch settles its entry only if the entry still names that very fetch. */
  function Settle<K, V, E>(entries: map<K, Entry<V>>, key: K, fetch: nat, outcome: Result<V, E>): map<K, Entry<V>> {
    if key in entries && entries[key] == Fetching(fetch) then
      match outcome
      case Ok(v) => entries[key := Ready(v)]
      case Err(_) => entries - {key}
    else entries
  }

  class Cache<K(==), V(==)> {
    var entries: map<K, Entry<V>>

    constructor ()
      ensures entries == map[]
    {
      entries := map[];
    }

    /** The first section; `own` names the caller's own fetch, kept only on a miss. */
    method Enter(key: K, own: nat) returns (found: Found<V>)
      modifies this
      ensures found == Look(old(entries), key)
      ensures entries == if found.Miss? then old(entries)[key := Fetching(own)] else old(entries)
    {
      if key in entries {
        match entries[key]
        case Ready(v) => return Hit(v);
        case Fetching(f) => return Share(f);
      }
      entries := entries[key := Fetching(own)];
      found := Miss;
    }

    /** The second section. */
    method Leave<E>(key: K, fetch: nat, outcome: Result<V, E>)
      modifies this
      ensures entries == Settle(old(entries), key, fetch, outcome)
    {
      if key in entries && entries[key] == Fetching(fetch) {
        match outcome
        case Ok(v) => entries := entries[key := Ready(v)];
        case Err(_) => entries := entries - {key};
      }
    }
  }

  // ----------------------------------------------------------------- the system

  type Key = nat
  type Value = nat
  type Failure = nat
  type Outcome = Result<Value, Failure>

  /** A shared fetch: running, or settled with an outcome every sharer gets. */
  datatype Fetch = Fetch(key: Key, outcome: Option<Outcome>)

  datatype Caller =
    | Calling(key: Key)
    | Waiting(key: Key, fetch: nat)
    | Returned(key: Key, own: Option<nat>, result: Outcome)
    | Gone

  datatype State = State(entries: map<Key, Entry<Value>>, fetches: seq<Fetch>, callers: seq<Caller>)

  datatype Label =
    | Call(key: Key)
    | Enter(caller: nat)
    | Complete(fetch: nat, outcome: Outcome)
    | Leave(caller: nat)
    | Drop(caller: nat)

  const START := State(map[], [], [])

  predicate Enabled(s: State, l: Label) {
    match l
    case Call(_) => true
    case Enter(c) => c < |s.callers| && s.callers[c].Calling?
    // a shared fetch runs only while some caller polls it
    case Complete(f, _) =>
      && f < |s.fetches| && s.fetches[f].outcome.None?
      && exists c :: 0 <= c < |s.callers| && s.callers[c] == Waiting(s.fetches[f].key, f)
    case Leave(c) =>
      && c < |s.callers| && s.callers[c].Waiting?
      && s.callers[c].fetch < |s.fetches| && s.fetches[s.callers[c].fetch].outcome.Some?
    case Drop(c) => c < |s.callers| && (s.callers[c].Calling? || s.callers[c].Waiting?)
  }

  function Apply(s: State, l: Label): State
    requires Enabled(s, l)
  {
    match l
    case Call(key) => s.(callers := s.callers + [Calling(key)])
    case Enter(c) =>
      var key := s.callers[c].key;
      (match Look(s.entries, key)
       case Hit(v) => s.(callers := s.callers[c := Returned(key, None, Ok(v))])
       case Share(f) => s.(callers := s.callers[c := Waiting(key, f)])
       case Miss =>
         var f := |s.fetches|;
         s.(entries := s.entries[key := Fetching(f)],
            fetches := s.fetches + [Fetch(key, None)],
            callers := s.callers[c := Waiting(key, f)]))
    case Complete(f, outcome) => s.(fetches := s.fetches[f := s.fetches[f].(outcome := Some(outcome))])
    case Leave(c) =>
      var w := s.callers[c];
      var outcome := s.fetches[w.fetch].outcome.value;
      s.(entries := Settle(s.entries, w.key, w.fetch, outcome),
         callers := s.callers[c := Returned(w.key, Some(w.fetch), outcome)])
    case Drop(c) => s.(callers := s.callers[c := Gone])
  }

  predicate IsRun(ls: seq<Label>)
    decreases |ls|, 0
  {
    ls == [] || (IsRun(ls[..|ls| - 1]) && Enabled(After(ls[..|ls| - 1]), ls[|ls| - 1]))
  }

  function After(ls: seq<Label>): State
    requires IsRun(ls)
    decreases |ls|, 1
  {
    if ls == [] then START else Apply(After(ls[..|ls| - 1]), ls[|ls| - 1])
  }

  // ------------------------------------------------------------- the invariant

  predicate FailedFetch(f: Fetch) { f.outcome.Some? && f.outcome.value.Err? }
  predicate Succeeded(f: Fetch, v: Value) { f.outcome == Some(Ok(v)) }

  /** Every fetch of the key but `keep` has failed. */
  predicate OthersFailed(s: State, key: Key, keep: nat) {
    forall f | 0 <= f < |s.fetches| && s.fetches[f].key == key && f != keep :: FailedFetch(s.fetches[f])
  }

  /** The entry tells of the key's one fetch that has not failed, if there is one. */
  predicate KeyOk(s: State, key: Key) {
    if key !in s.entries then OthersFailed(s, key, |s.fetches|)
    else match s.entries[key]
      case Fetching(f) => f < |s.fetches| && s.fetches[f].key == key && OthersFailed(s, key, f)
      case Ready(v) =>
        exists f ::
          0 <= f < |s.fetches| && s.fetches[f].key == key && Succeeded(s.fetches[f], v) && OthersFailed(s, key, f)
  }

  predicate CallerOk(s: State, c: Caller) {
    match c
    case Waiting(key, f) => f < |s.fetches| && s.fetches[f].key == key
    case Returned(key, Some(f), result) =>
      f < |s.fetches| && s.fetches[f].key == key && s.fetches[f].outcome == Some(result)
    case Returned(key, None, result) =>
      result.Ok? && exists f :: 0 <= f < |s.fetches| && s.fetches[f].key == key && Succeeded(s.fetches[f], result.value)
    case _ => true
  }

  ghost predicate Inv(s: State) {
    && (forall key: Key :: KeyOk(s, key))
    && forall c | 0 <= c < |s.callers| :: CallerOk(s, s.callers[c])
  }

  lemma EnterKeeps(s: State, c: nat)
    requires Inv(s) && Enabled(s, Enter(c))
    ensures Inv(Apply(s, Enter(c)))
  {
    var s' := Apply(s, Enter(c));
    var mine := s.callers[c].key;
    assert KeyOk(s, mine);
    forall key: Key
      ensures KeyOk(s', key)
    {
      assert KeyOk(s, key);
      if key in s.entries && s.entries[key].Ready? {
        var f :| 0 <= f < |s.fetches| && s.fetches[f].key == key && Succeeded(s.fetches[f], s.entries[key].value)
                 && OthersFailed(s, key, f);
        assert s'.fetches[f] == s.fetches[f] && OthersFailed(s', key, f);
      }
    }
    forall d | 0 <= d < |s'.callers|
      ensures CallerOk(s', s'.callers[d])
    {
      assert CallerOk(s, s.callers[d]);
      assert forall f | 0 <= f < |s.fetches| :: s'.fetches[f] == s.fetches[f];
    }
  }

  lemma CompleteKeeps(s: State, f: nat, outcome: Outcome)
    requires Inv(s) && Enabled(s, Complete(f, outcome))
    ensures Inv(Apply(s, Complete(f, outcome)))
  {
    var s' := Apply(s, Complete(f, outcome));
    forall key: Key
      ensures KeyOk(s', key)
    {
      assert KeyOk(s, key);
      if key in s.entries && s.entries[key].Ready? {
        var g :| 0 <= g < |s.fetches| && s.fetches[g].key == key && Succeeded(s.fetches[g], s.entries[key].value)
                 && OthersFailed(s, key, g);
        assert s'.fetches[g] == s.fetches[g] && OthersFailed(s', key, g);
      }
    }
    forall d | 0 <= d < |s'.callers|
      ensures CallerOk(s', s'.callers[d])
    {
      assert CallerOk(s, s.callers[d]);
      assert forall g | 0 <= g < |s.fetches| && s.fetches[g].outcome.Some? :: s'.fetches[g] == s.fetches[g];
    }
  }

  lemma LeaveKeeps(s: State, c: nat)
    requires Inv(s) && Enabled(s, Leave(c))
    ensures Inv(Apply(s, Leave(c)))
  {
    var s' := Apply(s, Leave(c));
    assert CallerOk(s, s.callers[c]);
    forall key: Key
      ensures KeyOk(s', key)
    {
      assert KeyOk(s, key);
      forall f | OthersFailed(s, key, f)
        ensures OthersFailed(s', key, f)
      {
      }
    }
  }

  lemma InvStep(s: State, l: Label)
    requires Inv(s) && Enabled(s, l)
    ensures Inv(Apply(s, l))
  {
    match l
    case Enter(c) => EnterKeeps(s, c);
    case Complete(f, outcome) => CompleteKeeps(s, f, outcome);
    case Leave(c) => LeaveKeeps(s, c);
    case Call(_) => CallersKeep(s, Apply(s, l));
    case Drop(_) => CallersKeep(s, Apply(s, l));
  }

  lemma CallersKeep(s: State, s': State)
    requires Inv(s) && s'.entries == s.entries && s'.fetches == s.fetches
    requires forall c | 0 <= c < |s'.callers| ::
               s'.callers[c].Calling? || s'.callers[c].Gone? || (c < |s.callers| && s'.callers[c] == s.callers[c])
    ensures Inv(s')
  {
    forall key: Key
      ensures KeyOk(s', key)
    {
      assert KeyOk(s, key);
      forall f | OthersFailed(s, key, f)
        ensures OthersFailed(s', key, f)
      {
      }
    }
    forall d | 0 <= d < |s'.callers|
      ensures CallerOk(s', s'.callers[d])
    {
      if d < |s.callers| {
        assert CallerOk(s, s.callers[d]);
      }
    }
  }

  lemma {:induction false} AlwaysInv(ls: seq<Label>)
    requires IsRun(ls)
    ensures Inv(After(ls))
    decreases |ls|
  {
    if ls != [] {
      AlwaysInv(ls[..|ls| - 1]);
      InvStep(After(ls[..|ls| - 1]), ls[|ls| - 1]);
    }
  }

  // ------------------------------------------------------------------- theorems

  /** A key has at most one fetch that has not failed: at most one unsettled, and at most one that ever succeeds. */
  lemma OneFlight(ls: seq<Label>, f: nat, g: nat)
    requires IsRun(ls)
    requires f < |After(ls).fetches| && g < |After(ls).fetches| && After(ls).fetches[f].key == After(ls).fetches[g].key
    requires !FailedFetch(After(ls).fetches[f]) && !FailedFetch(After(ls).fetches[g])
    ensures f == g
  {
    AlwaysInv(ls);
    assert KeyOk(After(ls), After(ls).fetches[f].key);
  }

  /** A ready value never changes or disappears. */
  lemma {:induction false} ReadyForGood(ls: seq<Label>, more: seq<Label>, key: Key)
    requires IsRun(ls) && IsRun(ls + more)
    requires key in After(ls).entries && After(ls).entries[key].Ready?
    ensures key in After(ls + more).entries && After(ls + more).entries[key] == After(ls).entries[key]
    decreases |more|
  {
    if more == [] {
      assert ls + more == ls;
    } else {
      var init := more[..|more| - 1];
      assert (ls + more)[..|ls + more| - 1] == ls + init;
      ReadyForGood(ls, init, key);
    }
  }

  /** A caller gets its own fetch's outcome, or the value of the key's one fetch that succeeded. */
  lemma OwnOutcome(ls: seq<Label>, c: nat)
    requires IsRun(ls) && c < |After(ls).callers| && After(ls).callers[c].Returned?
    ensures var s, r := After(ls), After(ls).callers[c];
            if r.own.Some?
            then r.own.value < |s.fetches| && s.fetches[r.own.value] == Fetch(r.key, Some(r.result))
            else r.result.Ok? && exists f :: 0 <= f < |s.fetches| && s.fetches[f] == Fetch(r.key, Some(r.result))
  {
    AlwaysInv(ls);
    var s := After(ls);
    assert CallerOk(s, s.callers[c]);
    if s.callers[c].own.None? {
      var f :| 0 <= f < |s.fetches| && s.fetches[f].key == s.callers[c].key
               && Succeeded(s.fetches[f], s.callers[c].result.value);
      assert s.fetches[f] == Fetch(s.callers[c].key, Some(s.callers[c].result));
    }
  }

  /** A fetch that has not failed keeps its key's entry: the entry names it, or holds its value. */
  lemma {:induction false} FlightKeepsEntry(ls: seq<Label>, f: nat)
    requires IsRun(ls) && f < |After(ls).fetches| && !FailedFetch(After(ls).fetches[f])
    ensures var s, key := After(ls), After(ls).fetches[f].key;
            && key in s.entries
            && (|| s.entries[key] == Fetching(f)
                || (s.entries[key].Ready? && Succeeded(s.fetches[f], s.entries[key].value)))
  {
    AlwaysInv(ls);
    assert KeyOk(After(ls), After(ls).fetches[f].key);
  }

  /** The caller about to leave waited on this fetch. */
  predicate LeavesFrom(s: State, l: Label, fetch: nat) {
    l.Leave? && l.caller < |s.callers| && s.callers[l.caller].Waiting? && s.callers[l.caller].fetch == fetch
  }

  lemma LastStep(ls: seq<Label>, l: Label)
    requires IsRun(ls + [l])
    ensures IsRun(ls) && Enabled(After(ls), l) && After(ls + [l]) == Apply(After(ls), l)
  {
    assert (ls + [l])[..|ls|] == ls;
  }

  lemma EntryStays(s: State, l: Label, key: Key, fetch: nat)
    requires Enabled(s, l) && !LeavesFrom(s, l, fetch)
    requires key in s.entries && s.entries[key] == Fetching(fetch)
    ensures key in Apply(s, l).entries && Apply(s, l).entries[key] == Fetching(fetch)
  {
  }

  /**
    Along every run an entry naming a fetch stays until a waiter of that very
    fetch leaves: whoever settles late, after another fetch, evicts nothing.
  */
  lemma {:induction false} OnlyItsWaitersSettle(ls: seq<Label>, more: seq<Label>, key: Key, fetch: nat)
    requires IsRun(ls) && IsRun(ls + more)
    requires key in After(ls).entries && After(ls).entries[key] == Fetching(fetch)
    requires forall k | 0 <= k < |more| :: IsRun(ls + more[..k]) && !LeavesFrom(After(ls + more[..k]), more[k], fetch)
    ensures key in After(ls + more).entries && After(ls + more).entries[key] == Fetching(fetch)
    decreases |more|
  {
    hide IsRun, After, Apply, Enabled, LeavesFrom;
    if more == [] {
      assert ls + more == ls;
    } else {
      var n := |more| - 1;
      var init, l := more[..n], more[n];
      assert ls + more == (ls + init) + [l];
      LastStep(ls + init, l);
      forall k | 0 <= k < n
        ensures IsRun(ls + init[..k]) && !LeavesFrom(After(ls + init[..k]), init[k], fetch)
      {
        assert init[..k] == more[..k];
      }
      OnlyItsWaitersSettle(ls, init, key, fetch);
      assert init == more[..n];
      EntryStays(After(ls + init), l, key, fetch);
    }
  }

  /** Whoever misses a key with a fetch in flight joins it, one that dropped callers left behind included. */
  lemma JoinsTheFlight(ls: seq<Label>, c: nat, f: nat)
    requires IsRun(ls) && Enabled(After(ls), Enter(c))
    requires f < |After(ls).fetches| && After(ls).fetches[f] == Fetch(After(ls).callers[c].key, None)
    ensures Apply(After(ls), Enter(c)).callers[c] == Waiting(After(ls).callers[c].key, f)
    ensures Apply(After(ls), Enter(c)).fetches == After(ls).fetches
  {
    AlwaysInv(ls);
    assert KeyOk(After(ls), After(ls).callers[c].key);
  }

  // ------------------------------------------------- what a waiter leaves behind

  /** Some caller has left with the outcome of this fetch. */
  ghost predicate LeftBy(s: State, fetch: nat) {
    exists c :: 0 <= c < |s.callers| && s.callers[c].Returned? && s.callers[c].own == Some(fetch)
  }

  /** A fetch somebody left is settled in the map: its value is the entry, or its failure is nowhere. */
  ghost predicate Forgotten(s: State, fetch: nat) {
    && fetch < |s.fetches| && s.fetches[fetch].outcome.Some?
    && match s.fetches[fetch].outcome.value
       case Ok(v) => s.fetches[fetch].key in s.entries && s.entries[s.fetches[fetch].key] == Ready(v)
       case Err(_) => forall key | key in s.entries :: s.entries[key] != Fetching(fetch)
  }

  lemma ForgottenStays(s: State, l: Label, fetch: nat)
    requires Inv(s) && Enabled(s, l) && Forgotten(s, fetch)
    ensures Forgotten(Apply(s, l), fetch)
  {
  }

  lemma LeavingForgets(s: State, c: nat)
    requires Inv(s) && Enabled(s, Leave(c))
    ensures Forgotten(Apply(s, Leave(c)), s.callers[c].fetch)
  {
    var f := s.callers[c].fetch;
    assert CallerOk(s, s.callers[c]) && KeyOk(s, s.callers[c].key);
    forall key | key in s.entries && s.entries[key] == Fetching(f)
      ensures key == s.callers[c].key
    {
      assert KeyOk(s, key);
    }
  }

  lemma LeftByStep(s: State, l: Label, fetch: nat)
    requires Enabled(s, l) && LeftBy(Apply(s, l), fetch)
    ensures LeftBy(s, fetch) || (l.Leave? && s.callers[l.caller].fetch == fetch)
  {
    var s' := Apply(s, l);
    var c :| 0 <= c < |s'.callers| && s'.callers[c].Returned? && s'.callers[c].own == Some(fetch);
    if c < |s.callers| && s'.callers[c] == s.callers[c] {
      assert s.callers[c].own == Some(fetch);
    }
  }

  /** In every run a fetch whose outcome somebody has left with is settled in the map for good. */
  lemma {:induction false} LeftIsForgotten(ls: seq<Label>, fetch: nat)
    requires IsRun(ls) && LeftBy(After(ls), fetch)
    ensures Forgotten(After(ls), fetch)
    decreases |ls|
  {
    assert After([]) == START;
    hide Apply, Enabled, LeftBy, Forgotten, Inv;
    if ls == [] {
      NobodyLeft(fetch);
    } else {
      var before, l := ls[..|ls| - 1], ls[|ls| - 1];
      AlwaysInv(before);
      LeftByStep(After(before), l, fetch);
      if LeftBy(After(before), fetch) {
        LeftIsForgotten(before, fetch);
        ForgottenStays(After(before), l, fetch);
      } else {
        LeavingForgets(After(before), l.caller);
      }
    }
  }

  lemma NobodyLeft(fetch: nat)
    ensures !LeftBy(START, fetch)
  {
  }

  /** Once a caller has left with a fetch's failure, no entry names that fetch, in any continuation. */
  lemma FailureIsForgotten(ls: seq<Label>, more: seq<Label>, c: nat, error: Failure)
    requires IsRun(ls) && IsRun(ls + more)
    requires c < |After(ls).callers| && After(ls).callers[c].Returned?
    requires After(ls).callers[c].own.Some? && After(ls).callers[c].result == Err(error)
    ensures forall key | key in After(ls + more).entries ::
              After(ls + more).entries[key] != Fetching(After(ls).callers[c].own.value)
  {
    ReturnedStays(ls, more, c);
    AlwaysInv(ls + more);
    assert CallerOk(After(ls + more), After(ls + more).callers[c]);
    LeftIsForgotten(ls + more, After(ls).callers[c].own.value);
  }

  lemma {:induction false} ReturnedStays(ls: seq<Label>, more: seq<Label>, c: nat)
    requires IsRun(ls) && IsRun(ls + more) && c < |After(ls).callers| && After(ls).callers[c].Returned?
    ensures c < |After(ls + more).callers| && After(ls + more).callers[c] == After(ls).callers[c]
    decreases |more|
  {
    if more == [] {
      assert ls + more == ls;
    } else {
      var init, l := more[..|more| - 1], more[|more| - 1];
      assert (ls + more)[..|ls + more| - 1] == ls + init;
      ReturnedStays(ls, init, c);
      ReturnedStep(After(ls + init), l, c);
    }
  }

  lemma ReturnedStep(s: State, l: Label, c: nat)
    requires Enabled(s, l) && c < |s.callers| && s.callers[c].Returned?
    ensures c < |Apply(s, l).callers| && Apply(s, l).callers[c] == s.callers[c]
  {
  }

  ghost predicate AllFailedAndLeft(s: State, key: Key) {
    forall f | 0 <= f < |s.fetches| && s.fetches[f].key == key :: FailedFetch(s.fetches[f]) && LeftBy(s, f)
  }

  /** Where every fetch of the key has failed and somebody has left each, the next caller starts a fetch of its own. */
  lemma FetchesAfresh(ls: seq<Label>, c: nat)
    requires IsRun(ls) && Enabled(After(ls), Enter(c))
    requires AllFailedAndLeft(After(ls), After(ls).callers[c].key)
    ensures var (s, s', key) := (After(ls), Apply(After(ls), Enter(c)), After(ls).callers[c].key);
            s'.callers[c] == Waiting(key, |s.fetches|) && s'.fetches == s.fetches + [Fetch(key, None)]
  {
    AlwaysInv(ls);
    var s, key := After(ls), After(ls).callers[c].key;
    assert KeyOk(s, key);
    hide LeftBy;
    forall f | 0 <= f < |s.fetches| && s.fetches[f].key == key
      ensures Forgotten(s, f) && FailedFetch(s.fetches[f])
    {
      LeftIsForgotten(ls, f);
    }
    assert key in s.entries && s.entries[key].Fetching? ==> Forgotten(s, s.entries[key].fetch);
  }

  /** After somebody has left with a value, every caller that comes to the key gets that value at once. */
  lemma ValueIsServed(ls: seq<Label>, more: seq<Label>, c: nat, v: Value, d: nat)
    requires IsRun(ls) && IsRun(ls + more)
    requires c < |After(ls).callers| && After(ls).callers[c].Returned? && After(ls).callers[c].result == Ok(v)
    requires Enabled(After(ls + more), Enter(d)) && After(ls + more).callers[d].key == After(ls).callers[c].key
    ensures Apply(After(ls + more), Enter(d)).callers[d] == Returned(After(ls).callers[c].key, None, Ok(v))
  {
    var key := After(ls).callers[c].key;
    ReturnedStays(ls, more, c);
    ValueIsReady(ls + more, c, v);
  }

  /** A caller that has returned a value, its own fetch's or one found, leaves it ready. */
  lemma {:induction false} ValueIsReady(ls: seq<Label>, c: nat, v: Value)
    requires IsRun(ls) && c < |After(ls).callers|
    requires After(ls).callers[c].Returned? && After(ls).callers[c].result == Ok(v)
    ensures After(ls).callers[c].key in After(ls).entries && After(ls).entries[After(ls).callers[c].key] == Ready(v)
    decreases |ls|
  {
    assert After([]) == START;
    var before, l := ls[..|ls| - 1], ls[|ls| - 1];
    AlwaysInv(before);
    if c < |After(before).callers| && After(before).callers[c].Returned? {
      ReturnedStep(After(before), l, c);
      ValueIsReady(before, c, v);
      ReadyStep(After(before), l, After(before).callers[c].key, v);
    } else {
      ValueComes(After(before), l, c, v);
    }
  }

  lemma ReadyStep(s: State, l: Label, key: Key, v: Value)
    requires Enabled(s, l) && key in s.entries && s.entries[key] == Ready(v)
    ensures key in Apply(s, l).entries && Apply(s, l).entries[key] == Ready(v)
  {
  }

  lemma ValueComes(s: State, l: Label, c: nat, v: Value)
    requires Inv(s) && Enabled(s, l) && c < |Apply(s, l).callers| && !(c < |s.callers| && s.callers[c].Returned?)
    requires Apply(s, l).callers[c].Returned? && Apply(s, l).callers[c].result == Ok(v)
    ensures var (s', key) := (Apply(s, l), Apply(s, l).callers[c].key);
            key in s'.entries && s'.entries[key] == Ready(v)
  {
    if l.Leave? {
      assert l.caller == c && CallerOk(s, s.callers[c]);
      LeavingForgets(s, c);
    }
  }
}
