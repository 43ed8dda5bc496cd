/**
  A key-value bucket over two file trees, values and expiry times, with one
  mutex per key handed out through a registry of weak references. Operations
  through any number of handles of one client interleave file by file.
*/
module KeyValueModel {
  import opened Base

  type Key = string
  type Bytes = seq<bv8>

  // --------------------------------------------------------------- key paths

  function FirstSegment(key: string): (n: nat)
    ensures n <= |key| && '/' !in key[..n] && (n < |key| ==> key[n] == '/')
  {
    if key == [] || key[0] == '/' then 0
    else
      assert forall n: nat | n < |key| :: key[..n + 1] == [key[0]] + key[1..][..n];
      1 + FirstSegment(key[1..])
  }

  predicate SegmentOk(segment: string) {
    segment != "" && segment != "." && segment != ".." && '/' !in segment && '\\' !in segment && ':' !in segment
  }

  /** A bucket-relative path: plain segments joined by slashes. */
  predicate ValidKey(key: Key) {
    var n := FirstSegment(key);
    SegmentOk(key[..n]) && (n < |key| ==> ValidKey(key[n + 1..]))
  }

  // ---------------------------------------------------------- the lock registry

  /** One strong reference to a lock: the operation that owns it, and the lock. */
  type Strong = (nat, nat)

  datatype Registry = Registry(locks: map<Key, nat>, strong: set<Strong>, next: nat) {
    predicate Live(lock: nat) {
      exists p | p in strong :: p.1 == lock
    }

    /** The lock the registry hands out for a key. */
    function LockFor(key: Key): nat {
      if key in locks && Live(locks[key]) then locks[key] else next
    }

    /** `owner` takes a reference: a live lock is shared, otherwise the dead ones go and a new one is entered. */
    function Taken(owner: nat, key: Key): Registry {
      if key in locks && Live(locks[key]) then this.(strong := strong + {(owner, locks[key])})
      else
        Registry((map k | k in locks && Live(locks[k]) :: locks[k])[key := next], strong + {(owner, next)}, next + 1)
    }

    function Dropped(owner: nat, lock: nat): Registry {
      this.(strong := strong - {(owner, lock)})
    }
  }

  /** Handing out a new lock leaves no dead one in the registry, and no lock in use out of it. */
  lemma DeadLocksGo(r: Registry, owner: nat, key: Key)
    requires r.LockFor(key) == r.next && forall k | k in r.locks :: r.locks[k] < r.next
    ensures
      var r' := r.Taken(owner, key);
      && (forall k | k in r'.locks :: r'.Live(r'.locks[k]))
      && (forall k | k in r.locks && r.Live(r.locks[k]) :: k in r'.locks && r'.locks[k] == r.locks[k])
      && key in r'.locks && (owner, r'.locks[key]) in r'.strong
  {
    var r' := r.Taken(owner, key);
    assert (owner, r.next) in r'.strong;
    forall k | k in r.locks && r.Live(r.locks[k])
      ensures r'.Live(r.locks[k])
    {
      var p :| p in r.strong && p.1 == r.locks[k];
      assert p in r'.strong;
    }
  }

  class KeyLocks {
    var locks: map<Key, nat>
    var strong: set<Strong>
    var next: nat

    function Abstract(): Registry
      reads this
    {
      Registry(locks, strong, next)
    }

    constructor ()
      ensures Abstract() == Registry(map[], {}, 0)
    {
      locks, strong, next := map[], {}, 0;
    }

    method KeyLock(owner: nat, key: Key) returns (lock: nat)
      modifies this
      ensures Abstract() == old(Abstract()).Taken(owner, key) && lock == old(Abstract()).LockFor(key)
    {
      if key in locks && exists p | p in strong :: p.1 == locks[key] {
        lock := locks[key];
        strong := strong + {(owner, lock)};
        return;
      }
      locks := map k | k in locks && exists p | p in strong :: p.1 == locks[k] :: locks[k];
      lock := next;
      next := next + 1;
      locks := locks[key := lock];
      strong := strong + {(owner, lock)};
    }

    method DropLock(owner: nat, lock: nat)
      modifies this`strong
      ensures Abstract() == old(Abstract()).Dropped(owner, lock)
    {
      strong := strong - {(owner, lock)};
    }
  }

  // ------------------------------------------------------------ the simple form

  /** A value and the time it expires at, if it does. */
  datatype Entry = Entry(value: Bytes, expiry: Option<nat>)

  type Store = map<Key, Entry>

  predicate Expired(e: Entry, now: nat) {
    e.expiry.Some? && now >= e.expiry.value
  }

  function View(m: Store, key: Key, now: nat): Option<Entry> {
    if key in m && !Expired(m[key], now) then Some(m[key]) else None
  }

  function ValueOf(e: Option<Entry>): Option<Bytes> {
    if e.Some? then Some(e.value.value) else None
  }

  datatype Request =
    | Get
    | Exists
    | Put(value: Bytes, ttl: Option<nat>)
    | Delete
    | Cas(expected: Option<Bytes>, value: Bytes)
    | Increment(delta: int)

  datatype Reply =
    | Invalid
    | Found(value: Option<Bytes>)
    | Present(present: bool)
    | Done
    | Swapped
    | Differs(observed: Option<Bytes>)
    | Counted(sum: Bytes)
    | NotANumber

  /** Adding to a stored number: the new bytes, or none when the bytes are no number or the sum overflows. */
  type Adder = (Option<Bytes>, int) -> Option<Bytes>

  const MAX_MILLIS: nat := 0xFFFF_FFFF_FFFF_FFFF_FFFF_FFFF_FFFF_FFFF

  function ExpiryAt(now: nat, ttl: Option<nat>): Option<nat> {
    if ttl.None? then None
    else Some(if now + ttl.value <= MAX_MILLIS then now + ttl.value else MAX_MILLIS)
  }

  /** One request run alone at time `now` on the map from key to value and expiry. */
  function Answer(add: Adder, m: Store, key: Key, r: Request, now: nat): Reply {
    if !ValidKey(key) then Invalid
    else
      var observed := ValueOf(View(m, key, now));
      match r
      case Get => Found(observed)
      case Exists => Present(observed.Some?)
      case Put(_, _) => Done
      case Delete => Done
      case Cas(expected, _) => if observed == expected then Swapped else Differs(observed)
      case Increment(delta) => if add(observed, delta).Some? then Counted(add(observed, delta).value) else NotANumber
  }

  /** `cas` and `increment` keep a live expiry; an expired entry counts as absent. */
  function Effect(add: Adder, m: Store, key: Key, r: Request, now: nat): Store {
    if !ValidKey(key) then m
    else
      var e := View(m, key, now);
      var kept := if e.Some? then e.value.expiry else None;
      match r
      case Get => m
      case Exists => m
      case Put(value, ttl) => m[key := Entry(value, ExpiryAt(now, ttl))]
      case Delete => m - {key}
      case Cas(expected, value) => if ValueOf(e) == expected then m[key := Entry(value, kept)] else m
      case Increment(delta) =>
        if add(ValueOf(e), delta).Some? then m[key := Entry(add(ValueOf(e), delta).value, kept)] else m
  }

  /** Nobody asking from `now` on can tell the two maps apart. */
  ghost predicate Alike(a: Store, b: Store, now: nat) {
    forall key: Key, later: nat | now <= later :: View(a, key, later) == View(b, key, later)
  }

  lemma PurgedIsAlike(m: Store, key: Key, now: nat)
    requires key in m && Expired(m[key], now)
    ensures Alike(m, m - {key}, now)
  {
    assert forall later: nat | now <= later :: Expired(m[key], later);
  }

  /** Purging an expired entry is never seen: every request gets the same answer and leaves maps still alike. */
  lemma AlikeStaysAlike(add: Adder, a: Store, b: Store, key: Key, r: Request, now: nat)
    requires Alike(a, b, now)
    ensures Answer(add, a, key, r, now) == Answer(add, b, key, r, now)
    ensures Alike(Effect(add, a, key, r, now), Effect(add, b, key, r, now), now)
  {
    assert View(a, key, now) == View(b, key, now);
    var (a', b') := (Effect(add, a, key, r, now), Effect(add, b, key, r, now));
    forall k: Key, later: nat | now <= later
      ensures View(a', k, later) == View(b', k, later)
    {
      assert View(a, k, later) == View(b, k, later);
    }
  }

  // --------------------------------------------------- what the requests are for

  /** A plain segment is a key; and a key is a plain segment, or one before a slash and a key. */
  lemma KeysBySegments(segment: string, rest: Key)
    requires '/' !in segment
    ensures ValidKey(segment) <==> segment !in {"", ".", ".."} && '\\' !in segment && ':' !in segment
    ensures ValidKey(segment + "/" + rest) <==> ValidKey(segment) && ValidKey(rest)
  {
    var key := segment + "/" + rest;
    FirstSegmentIs(segment, "");
    FirstSegmentIs(segment, "/" + rest);
    assert segment + "" == segment && segment[..|segment|] == segment;
    assert segment + ("/" + rest) == key && key[..|segment|] == segment && key[|segment| + 1..] == rest;
  }

  lemma {:induction false} FirstSegmentIs(segment: string, rest: string)
    requires '/' !in segment && (rest == "" || rest[0] == '/')
    ensures FirstSegment(segment + rest) == |segment|
  {
    if segment == "" {
      assert segment + rest == rest;
    } else {
      assert (segment + rest)[1..] == segment[1..] + rest && (segment + rest)[0] == segment[0];
      FirstSegmentIs(segment[1..], rest);
    }
  }

  /**
    A stored value is there until its time to live has passed, counted up to
    the largest 128-bit time, and for good without one.
  */
  lemma GetAfterPut(add: Adder, m: Store, key: Key, v: Bytes, ttl: Option<nat>, now: nat, later: nat)
    requires ValidKey(key) && now <= later
    ensures
      var after := Effect(add, m, key, Put(v, ttl), now);
      var alive := ttl.None? || (later < now + ttl.value && later < 0xFFFF_FFFF_FFFF_FFFF_FFFF_FFFF_FFFF_FFFF);
      && Answer(add, m, key, Put(v, ttl), now) == Done
      && Answer(add, after, key, Get, later) == Found(if alive then Some(v) else None)
  {
  }

  lemma GetAfterDelete(add: Adder, m: Store, key: Key, now: nat, later: nat)
    requires ValidKey(key)
    ensures Answer(add, m, key, Delete, now) == Done
    ensures Answer(add, Effect(add, m, key, Delete, now), key, Get, later) == Found(None)
  {
  }

  /** A swap succeeds exactly on the value a read would find, and is read back while that value would have been. */
  lemma GetAfterCas(add: Adder, m: Store, key: Key, expected: Option<Bytes>, v: Bytes, now: nat, later: nat)
    requires ValidKey(key) && now <= later
    ensures
      var found := Answer(add, m, key, Get, now);
      var after := Effect(add, m, key, Cas(expected, v), now);
      if found == Found(expected) then
        && Answer(add, m, key, Cas(expected, v), now) == Swapped
        && (Answer(add, m, key, Get, later) != Found(None) || expected.None? ==>
              Answer(add, after, key, Get, later) == Found(Some(v)))
        && (Answer(add, m, key, Get, later) == Found(None) && expected.Some? ==>
              Answer(add, after, key, Get, later) == Found(None))
      else found.Found? && Answer(add, m, key, Cas(expected, v), now) == Differs(found.value) && after == m
  {
  }

  /** An increment adds to what a read would find; its answer is read back while that value would have been. */
  lemma GetAfterIncrement(add: Adder, m: Store, key: Key, delta: int, now: nat, later: nat)
    requires ValidKey(key) && now <= later
    ensures
      var found := Answer(add, m, key, Get, now);
      var after := Effect(add, m, key, Increment(delta), now);
      && found.Found?
      && match add(found.value, delta)
         case None => Answer(add, m, key, Increment(delta), now) == NotANumber && after == m
         case Some(sum) =>
           && Answer(add, m, key, Increment(delta), now) == Counted(sum)
           && (Answer(add, m, key, Get, later) != Found(None) || found.value.None? ==>
                 Answer(add, after, key, Get, later) == Found(Some(sum)))
           && (Answer(add, m, key, Get, later) == Found(None) && found.value.Some? ==>
                 Answer(add, after, key, Get, later) == Found(None))
  {
  }

  /**
    A key that is not valid is refused, existence is a read that finds
    something, reads change nothing, and no request changes another key.
  */
  lemma RequestsKeepToTheirKey(add: Adder, m: Store, key: Key, r: Request, now: nat, other: Key, later: nat)
    requires ValidKey(key)
    ensures Answer(add, m, key, Get, now).Found?
    ensures Answer(add, m, key, Exists, now) == Present(Answer(add, m, key, Get, now) != Found(None))
    ensures r.Get? || r.Exists? ==> Effect(add, m, key, r, now) == m
    ensures other != key ==>
              Answer(add, Effect(add, m, key, r, now), other, Get, later) == Answer(add, m, other, Get, later)
    ensures !ValidKey(other) ==> Answer(add, m, other, r, now) == Invalid && Effect(add, m, other, r, now) == m
  {
  }

  // ------------------------------------------------------------------ the system

  /** What an operation does next inside its key's lock, one file at a time. */
  datatype Step =
    | Begin
    | PurgeTtl
    | PurgeValue
    | ReadValue
    | Decide(observed: Option<Bytes>)
    | WriteValue(bytes: Bytes, reply: Reply)
    | PutValue
    | PutTtl
    | DropTtl
    | DropValue

  datatype Phase =
    | Opened                  // has its handle, not yet a lock
    | Queued                  // holds a reference to the key's lock
    | Running(step: Step)     // holds the mutex
    | Answered(reply: Reply)  // the body has finished, the mutex still held
    | Unlocked(reply: Reply)  // the mutex released, the reference still held
    | Closed(reply: Reply)

  /** `stamp` is the operation's one reading of the clock. */
  datatype Operation = Operation(key: Key, request: Request, phase: Phase, lock: nat, stamp: nat) {
    predicate Referring() { phase.Queued? || phase.Running? || phase.Answered? || phase.Unlocked? }
    predicate Holding() { phase.Running? || phase.Answered? }
  }

  /** The two file trees: value bytes, and expiry times in milliseconds. */
  datatype Files = Files(values: map<Key, Bytes>, ttls: map<Key, nat>) {
    predicate ExpiredAt(key: Key, now: nat) {
      key in ttls && now >= ttls[key]
    }

    function Read(key: Key): Option<Bytes> {
      if key in values then Some(values[key]) else None
    }

    function Ttl(key: Key): Option<nat> {
      if key in ttls then Some(ttls[key]) else None
    }
  }

  /** History: `log` is the operations answered so far, in that order, and `store` the simple form's map after them. */
  datatype State = State(
    files: Files,
    clock: nat,
    registry: Registry,
    operations: seq<Operation>,
    store: Store,
    log: seq<nat>
  )

  const START := State(Files(map[], map[]), 0, Registry(map[], {}, 0), [], map[], [])

  datatype Label =
    | Tick(time: nat)
    | Call(key: Key, request: Request)
    | TakeRef(op: nat)
    | Acquire(op: nat)
    | Advance(op: nat)
    | Release(op: nat)
    | DropRef(op: nat)

  predicate Enabled(s: State, l: Label) {
    match l
    case Tick(time) => s.clock <= time
    case Call(_, _) => true
    case TakeRef(i) => i < |s.operations| && s.operations[i].phase.Opened?
    case Acquire(i) =>
      && i < |s.operations| && s.operations[i].phase.Queued?
      && forall j | 0 <= j < |s.operations| && s.operations[j].lock == s.operations[i].lock ::
           !s.operations[j].Holding()
    case Advance(i) => i < |s.operations| && s.operations[i].phase.Running?
    case Release(i) => i < |s.operations| && s.operations[i].phase.Answered?
    case DropRef(i) => i < |s.operations| && s.operations[i].phase.Unlocked?
  }

  /** What follows a decided read: an answer, or one more write. */
  function Decided(add: Adder, r: Request, observed: Option<Bytes>): Phase {
    match r
    case Get => Answered(Found(observed))
    case Exists => Answered(Present(observed.Some?))
    case Cas(expected, value) =>
      if observed == expected then Running(WriteValue(value, Swapped)) else Answered(Differs(observed))
    case Increment(delta) =>
      (match add(observed, delta)
       case Some(bytes) => Running(WriteValue(bytes, Counted(bytes)))
       case None => Answered(NotANumber))
    case _ => Answered(Done)
  }

  /** One file access of an operation's body, at the present time. */
  function Body(add: Adder, files: Files, clock: nat, op: Operation): (r: (Files, Operation))
    requires op.phase.Running?
    ensures r.1.key == op.key && r.1.request == op.request && r.1.lock == op.lock && r.1.Holding()
  {
    var key := op.key;
    match op.phase.step
    case Begin =>
      if !ValidKey(key) then (files, op.(phase := Answered(Invalid), stamp := clock))
      else if op.request.Put? then (files, op.(phase := Running(PutValue)))
      else if op.request.Delete? then (files, op.(phase := Running(DropTtl)))
      else (files, op.(phase := Running(if files.ExpiredAt(key, clock) then PurgeTtl else ReadValue), stamp := clock))
    case PurgeTtl => (files.(ttls := files.ttls - {key}), op.(phase := Running(PurgeValue)))
    case PurgeValue => (files.(values := files.values - {key}), op.(phase := Running(Decide(None))))
    case ReadValue => (files, op.(phase := Running(Decide(files.Read(key)))))
    case Decide(observed) => (files, op.(phase := Decided(add, op.request, observed)))
    case WriteValue(bytes, reply) => (files.(values := files.values[key := bytes]), op.(phase := Answered(reply)))
    case PutValue =>
      (files.(values := files.values[key := if op.request.Put? then op.request.value else []]),
       op.(phase := Running(PutTtl)))
    case PutTtl =>
      var expiry := if op.request.Put? then ExpiryAt(clock, op.request.ttl) else None;
      (files.(ttls := if expiry.Some? then files.ttls[key := expiry.value] else files.ttls - {key}),
       op.(phase := Answered(Done), stamp := clock))
    case DropTtl => (files.(ttls := files.ttls - {key}), op.(phase := Running(DropValue)))
    case DropValue => (files.(values := files.values - {key}), op.(phase := Answered(Done), stamp := clock))
  }

  /** The step that answers is where the operation takes effect in the simple form. */
  function Apply(add: Adder, s: State, l: Label): State
    requires Enabled(s, l)
  {
    match l
    case Tick(time) => s.(clock := time)
    case Call(key, request) => s.(operations := s.operations + [Operation(key, request, Opened, 0, 0)])
    case TakeRef(i) =>
      var op := s.operations[i];
      s.(registry := s.registry.Taken(i, op.key),
         operations := s.operations[i := op.(phase := Queued, lock := s.registry.LockFor(op.key))])
    case Acquire(i) => s.(operations := s.operations[i := s.operations[i].(phase := Running(Begin))])
    case Advance(i) =>
      var (files, op) := Body(add, s.files, s.clock, s.operations[i]);
      s.(files := files,
         operations := s.operations[i := op],
         store := if op.phase.Answered? then Effect(add, s.store, op.key, op.request, op.stamp) else s.store,
         log := if op.phase.Answered? then s.log + [i] else s.log)
    case Release(i) =>
      s.(operations := s.operations[i := s.operations[i].(phase := Unlocked(s.operations[i].phase.reply))])
    case DropRef(i) =>
      var op := s.operations[i];
      s.(registry := s.registry.Dropped(i, op.lock),
         operations := s.operations[i := op.(phase := Closed(op.phase.reply))])
  }

  predicate IsRun(add: Adder, ls: seq<Label>)
    decreases |ls|, 0
  {
    ls == [] || (IsRun(add, ls[..|ls| - 1]) && Enabled(After(add, ls[..|ls| - 1]), ls[|ls| - 1]))
  }

  function After(add: Adder, ls: seq<Label>): State
    requires IsRun(add, ls)
    decreases |ls|, 1
  {
    if ls == [] then START else Apply(add, After(add, ls[..|ls| - 1]), ls[|ls| - 1])
  }

  // ------------------------------------------------------------- the invariant

  /** A referring operation's lock is the one the registry has for its key. */
  predicate RefOk(s: State, i: nat)
    requires i < |s.operations|
  {
    var op := s.operations[i];
    op.Referring() ==>
      op.key in s.registry.locks && s.registry.locks[op.key] == op.lock && (i, op.lock) in s.registry.strong
  }

  predicate Exclusive(s: State) {
    forall i, j | 0 <= i < j < |s.operations| && s.operations[i].Holding() && s.operations[j].Holding() ::
      s.operations[i].key != s.operations[j].key
  }

  /** The files hold exactly the store's entry for the key, or neither file and at most an expired entry. */
  predicate Same(files: Files, store: Store, key: Key, now: nat) {
    || (key in store && files.Read(key) == Some(store[key].value) && files.Ttl(key) == store[key].expiry)
    || (files.Read(key).None? && files.Ttl(key).None? && View(store, key, now).None?)
  }

  /** What an operation part of the way through its body has done to its key's files. */
  predicate StepOk(add: Adder, files: Files, store: Store, op: Operation, clock: nat)
    requires op.phase.Running?
  {
    var key := op.key;
    && (!op.phase.step.Begin? ==> ValidKey(key))
    && (!op.phase.step.Begin? && !op.request.Put? && !op.request.Delete? ==> op.stamp <= clock)
    && match op.phase.step
       case Begin => Same(files, store, key, clock)
       case PurgeTtl =>
         !op.request.Put? && !op.request.Delete? && View(store, key, op.stamp).None?
       case PurgeValue =>
         !op.request.Put? && !op.request.Delete? && View(store, key, op.stamp).None? && files.Ttl(key).None?
       case ReadValue =>
         && !op.request.Put? && !op.request.Delete?
         && Same(files, store, key, op.stamp) && !files.ExpiredAt(key, op.stamp)
       case Decide(observed) =>
         && !op.request.Put? && !op.request.Delete?
         && Same(files, store, key, op.stamp) && observed == files.Read(key)
         && observed == ValueOf(View(store, key, op.stamp))
       case WriteValue(bytes, reply) =>
         && Same(files, store, key, op.stamp)
         && files.Read(key) == ValueOf(View(store, key, op.stamp))
         && Decided(add, op.request, files.Read(key)) == op.phase
         && !op.request.Put? && !op.request.Delete?
       case PutValue => op.request.Put?
       case PutTtl => op.request.Put? && files.Read(key) == Some(op.request.value)
       case DropTtl => op.request.Delete?
       case DropValue => op.request.Delete? && files.Ttl(key).None?
  }

  predicate Busy(s: State, key: Key) {
    exists i :: 0 <= i < |s.operations| && s.operations[i].phase.Running? && s.operations[i].key == key
  }

  predicate HasReply(op: Operation) { op.phase.Answered? || op.phase.Unlocked? || op.phase.Closed? }

  predicate InLog(operations: seq<Operation>, log: seq<nat>) {
    forall p | 0 <= p < |log| :: log[p] < |operations| && HasReply(operations[log[p]])
  }

  /** The simple form's map after the logged requests, each run alone at its own time. */
  function Replay(add: Adder, operations: seq<Operation>, log: seq<nat>): Store
    requires InLog(operations, log)
  {
    if log == [] then map[]
    else
      var op := operations[log[|log| - 1]];
      Effect(add, Replay(add, operations, log[..|log| - 1]), op.key, op.request, op.stamp)
  }

  predicate Linear(add: Adder, operations: seq<Operation>, log: seq<nat>)
    requires InLog(operations, log)
  {
    forall p | 0 <= p < |log| ::
      var op := operations[log[p]];
      op.phase.reply == Answer(add, Replay(add, operations, log[..p]), op.key, op.request, op.stamp)
  }

  /** Whoever was answered for a key was answered at no later a time than the key's operation in progress reads. */
  predicate Timely(s: State, i: nat)
    requires i < |s.operations| && InLog(s.operations, s.log)
  {
    var op := s.operations[i];
    op.phase.Running? && !op.phase.step.Begin? && !op.request.Put? && !op.request.Delete? ==>
      forall p | 0 <= p < |s.log| && s.operations[s.log[p]].key == op.key :: s.operations[s.log[p]].stamp <= op.stamp
  }

  predicate StampsAscend(operations: seq<Operation>, log: seq<nat>)
    requires InLog(operations, log)
  {
    forall p, q | 0 <= p < q < |log| && operations[log[p]].key == operations[log[q]].key ::
      operations[log[p]].stamp <= operations[log[q]].stamp
  }

  ghost predicate LogInv(add: Adder, s: State) {
    && InLog(s.operations, s.log)
    && s.store == Replay(add, s.operations, s.log)
    && Linear(add, s.operations, s.log)
    && StampsAscend(s.operations, s.log)
    && (forall p | 0 <= p < |s.log| :: s.operations[s.log[p]].stamp <= s.clock)
    && (forall i | 0 <= i < |s.operations| :: Timely(s, i))
    && (forall i | 0 <= i < |s.operations| && HasReply(s.operations[i]) :: i in s.log)
  }

  ghost predicate Inv(add: Adder, s: State) {
    && (forall i | 0 <= i < |s.operations| :: RefOk(s, i))
    && Exclusive(s)
    && (forall i | 0 <= i < |s.operations| && s.operations[i].phase.Running? ::
          StepOk(add, s.files, s.store, s.operations[i], s.clock))
    && (forall key: Key | !Busy(s, key) :: Same(s.files, s.store, key, s.clock))
  }

  // ----------------------------------------------------- one operation's body

  lemma SameLater(files: Files, store: Store, key: Key, now: nat, later: nat)
    requires Same(files, store, key, now) && now <= later
    ensures Same(files, store, key, later)
  {
  }

  /** Each file access keeps the step relation, and the one that answers gives the simple form's answer and effect. */
  lemma BodyOk(add: Adder, files: Files, store: Store, op: Operation, clock: nat)
    requires op.phase.Running? && StepOk(add, files, store, op, clock)
    ensures var (files', op') := Body(add, files, clock, op);
            if op'.phase.Running? then StepOk(add, files', store, op', clock)
            else
              && op'.phase.reply == Answer(add, store, op.key, op.request, op'.stamp)
              && Same(files', Effect(add, store, op.key, op.request, op'.stamp), op.key, clock)
              && op'.stamp <= clock
  {
  }

  // ------------------------------------------------------------- preservation

  /** The same files, map and time for every key, and no operation's body touched. */
  lemma QuietKeeps(add: Adder, s: State, s': State)
    requires Inv(add, s)
    requires s'.files == s.files && s'.store == s.store && s.clock <= s'.clock
    requires |s.operations| <= |s'.operations|
    requires forall i | 0 <= i < |s'.operations| :: RefOk(s', i)
    requires forall i | 0 <= i < |s'.operations| :: s'.operations[i].Holding() ==>
               i < |s.operations| && s.operations[i].Holding() && s'.operations[i] == s.operations[i]
    requires forall i | 0 <= i < |s.operations| && s.operations[i].phase.Running? :: s'.operations[i] == s.operations[i]
    ensures Inv(add, s')
  {
    hide StepOk, Same;
    forall i | 0 <= i < |s'.operations| && s'.operations[i].phase.Running?
      ensures StepOk(add, s'.files, s'.store, s'.operations[i], s'.clock)
    {
      StepLater(add, s.files, s.store, s.operations[i], s.clock, s'.clock);
    }
    forall key: Key | !Busy(s', key)
      ensures Same(s'.files, s'.store, key, s'.clock)
    {
      assert !Busy(s, key);
      SameLater(s.files, s.store, key, s.clock, s'.clock);
    }
  }

  lemma StepLater(add: Adder, files: Files, store: Store, op: Operation, now: nat, later: nat)
    requires op.phase.Running? && StepOk(add, files, store, op, now) && now <= later
    ensures StepOk(add, files, store, op, later)
  {
  }

  /** Handing out a lock keeps every reference it has handed out. */
  lemma TakeRefKeeps(add: Adder, s: State, i: nat)
    requires Inv(add, s) && Enabled(s, TakeRef(i))
    ensures Inv(add, Apply(add, s, TakeRef(i)))
  {
    hide StepOk, Same;
    var s' := Apply(add, s, TakeRef(i));
    forall j | 0 <= j < |s'.operations|
      ensures RefOk(s', j)
    {
      assert RefOk(s, j);
      if j != i && s.operations[j].Referring() {
        assert s.registry.Live(s.operations[j].lock);
      }
    }
    QuietKeeps(add, s, s');
  }

  lemma DropRefKeeps(add: Adder, s: State, i: nat)
    requires Inv(add, s) && Enabled(s, DropRef(i))
    ensures Inv(add, Apply(add, s, DropRef(i)))
  {
    hide StepOk, Same;
    var s' := Apply(add, s, DropRef(i));
    forall j | 0 <= j < |s'.operations|
      ensures RefOk(s', j)
    {
      assert RefOk(s, j);
    }
    QuietKeeps(add, s, s');
  }

  /** The mutex of a key is free only when no operation on the key holds it. */
  lemma AcquireKeeps(add: Adder, s: State, i: nat)
    requires Inv(add, s) && Enabled(s, Acquire(i))
    ensures Inv(add, Apply(add, s, Acquire(i)))
  {
    hide Same;
    var s' := Apply(add, s, Acquire(i));
    var key := s.operations[i].key;
    forall j | 0 <= j < |s.operations| && s.operations[j].Holding()
      ensures s.operations[j].key != key
    {
      assert RefOk(s, i) && RefOk(s, j);
    }
    forall j | 0 <= j < |s'.operations|
      ensures RefOk(s', j)
    {
      assert RefOk(s, j);
    }
    assert !Busy(s, key);
    forall k: Key | !Busy(s', k)
      ensures Same(s'.files, s'.store, k, s'.clock)
    {
      forall j | 0 <= j < |s.operations| && s.operations[j].phase.Running? && s.operations[j].key == k
        ensures s'.operations[j].phase.Running? && s'.operations[j].key == k
      {
      }
      assert !Busy(s, k);
    }
  }

  // --------------------------------------------------- one file access of many

  predicate AgreeAt(files: Files, files': Files, store: Store, store': Store, key: Key) {
    && files.Read(key) == files'.Read(key) && files.Ttl(key) == files'.Ttl(key)
    && (if key in store then key in store' && store'[key] == store[key] else key !in store')
  }

  lemma BodyStaysAtItsKey(add: Adder, files: Files, store: Store, op: Operation, clock: nat, key: Key)
    requires op.phase.Running? && key != op.key
    ensures var (files', op') := Body(add, files, clock, op);
            && AgreeAt(files, files', store, store, key)
            && AgreeAt(files, files', store, Effect(add, store, op.key, op.request, op'.stamp), key)
  {
  }

  lemma SameElsewhere(files: Files, files': Files, store: Store, store': Store, key: Key, now: nat)
    requires AgreeAt(files, files', store, store', key) && Same(files, store, key, now)
    ensures Same(files', store', key, now)
  {
  }

  lemma StepElsewhere(add: Adder, files: Files, files': Files, store: Store, store': Store, op: Operation, clock: nat)
    requires AgreeAt(files, files', store, store', op.key)
    requires op.phase.Running? && StepOk(add, files, store, op, clock)
    ensures StepOk(add, files', store', op, clock)
  {
  }

  lemma AdvanceKeeps(add: Adder, s: State, i: nat)
    requires Inv(add, s) && Enabled(s, Advance(i))
    ensures Inv(add, Apply(add, s, Advance(i)))
  {
    var op := s.operations[i];
    var s' := Apply(add, s, Advance(i));
    BodyOk(add, s.files, s.store, op, s.clock);
    hide StepOk, Same, Body, Effect, Answer, AgreeAt;
    forall j | 0 <= j < |s'.operations|
      ensures RefOk(s', j)
    {
      assert RefOk(s, j);
    }
    forall j | 0 <= j < |s'.operations| && s'.operations[j].phase.Running? && j != i
      ensures StepOk(add, s'.files, s'.store, s'.operations[j], s'.clock)
    {
      BodyStaysAtItsKey(add, s.files, s.store, op, s.clock, s.operations[j].key);
      StepElsewhere(add, s.files, s'.files, s.store, s'.store, s.operations[j], s.clock);
    }
    forall key: Key | !Busy(s', key)
      ensures Same(s'.files, s'.store, key, s'.clock)
    {
      if key != op.key {
        forall j | 0 <= j < |s.operations| && s.operations[j].phase.Running?
          ensures s.operations[j].key != key
        {
          assert j != i ==> s'.operations[j] == s.operations[j];
        }
        assert !Busy(s, key);
        BodyStaysAtItsKey(add, s.files, s.store, op, s.clock, key);
        SameElsewhere(s.files, s'.files, s.store, s'.store, key, s.clock);
      } else {
        assert !s'.operations[i].phase.Running?;
      }
    }
  }

  lemma SimpleKeeps(add: Adder, s: State, l: Label)
    requires Inv(add, s) && Enabled(s, l) && (l.Tick? || l.Call? || l.Release?)
    ensures Inv(add, Apply(add, s, l))
  {
    hide StepOk, Same;
    var s' := Apply(add, s, l);
    forall j | 0 <= j < |s'.operations|
      ensures RefOk(s', j)
    {
      if j < |s.operations| {
        assert RefOk(s, j);
      }
    }
    if l.Release? {
      ReleaseKeeps(add, s, l.op);
    } else {
      QuietKeeps(add, s, s');
    }
  }

  lemma ReleaseKeeps(add: Adder, s: State, i: nat)
    requires Inv(add, s) && Enabled(s, Release(i))
    requires forall j | 0 <= j < |s.operations| :: RefOk(Apply(add, s, Release(i)), j)
    ensures Inv(add, Apply(add, s, Release(i)))
  {
    hide StepOk, Same;
    QuietKeeps(add, s, Apply(add, s, Release(i)));
  }

  lemma InvStep(add: Adder, s: State, l: Label)
    requires Inv(add, s) && Enabled(s, l)
    ensures Inv(add, Apply(add, s, l))
  {
    hide Inv, Enabled, Apply;
    match l
    case Tick(_) => SimpleKeeps(add, s, l);
    case Call(_, _) => SimpleKeeps(add, s, l);
    case TakeRef(i) => TakeRefKeeps(add, s, i);
    case Acquire(i) => AcquireKeeps(add, s, i);
    case Advance(i) => AdvanceKeeps(add, s, i);
    case Release(_) => SimpleKeeps(add, s, l);
    case DropRef(i) => DropRefKeeps(add, s, i);
  }

  // ------------------------------------------------------------------- the log

  lemma {:induction false} ReplaySame(add: Adder, ops: seq<Operation>, ops': seq<Operation>, log: seq<nat>)
    requires InLog(ops, log) && InLog(ops', log)
    requires forall p | 0 <= p < |log| :: SameCall(ops[log[p]], ops'[log[p]])
    ensures Replay(add, ops, log) == Replay(add, ops', log)
  {
    if log != [] {
      ReplaySame(add, ops, ops', log[..|log| - 1]);
    }
  }

  /** The same request, answered the same way at the same time. */
  predicate SameCall(a: Operation, b: Operation) {
    && a.key == b.key && a.request == b.request && a.stamp == b.stamp
    && HasReply(a) && HasReply(b) && a.phase.reply == b.phase.reply
  }

  lemma LinearSame(add: Adder, ops: seq<Operation>, ops': seq<Operation>, log: seq<nat>)
    requires InLog(ops, log) && InLog(ops', log) && Linear(add, ops, log)
    requires forall p | 0 <= p < |log| :: SameCall(ops[log[p]], ops'[log[p]])
    ensures Linear(add, ops', log)
  {
    forall p | 0 <= p < |log|
      ensures ops'[log[p]].phase.reply ==
              Answer(add, Replay(add, ops', log[..p]), ops'[log[p]].key, ops'[log[p]].request, ops'[log[p]].stamp)
    {
      ReplaySame(add, ops, ops', log[..p]);
      assert SameCall(ops[log[p]], ops'[log[p]]);
    }
  }

  lemma LogQuiet(add: Adder, s: State, s': State)
    requires LogInv(add, s) && s'.log == s.log && s'.store == s.store && s.clock <= s'.clock
    requires |s.operations| <= |s'.operations|
    requires forall i | 0 <= i < |s.operations| && HasReply(s.operations[i]) ::
               SameCall(s.operations[i], s'.operations[i])
    requires forall i | 0 <= i < |s'.operations| && HasReply(s'.operations[i]) ::
               i < |s.operations| && HasReply(s.operations[i])
    requires forall i | 0 <= i < |s'.operations| && s'.operations[i].phase.Running? ::
               s'.operations[i].phase.step.Begin? || (i < |s.operations| && s'.operations[i] == s.operations[i])
    ensures LogInv(add, s')
  {
    hide Answer, Effect, Linear, Replay, StampsAscend;
    LogSame(add, s.operations, s'.operations, s.log);
    forall i | 0 <= i < |s'.operations|
      ensures Timely(s', i)
    {
      if i < |s.operations| {
        assert Timely(s, i);
      }
    }
  }

  /** What the log says depends only on the calls it names. */
  lemma LogSame(add: Adder, ops: seq<Operation>, ops': seq<Operation>, log: seq<nat>)
    requires InLog(ops, log) && InLog(ops', log) && Linear(add, ops, log) && StampsAscend(ops, log)
    requires forall p | 0 <= p < |log| :: SameCall(ops[log[p]], ops'[log[p]])
    ensures Linear(add, ops', log) && StampsAscend(ops', log) && Replay(add, ops, log) == Replay(add, ops', log)
  {
    hide Linear, Replay;
    assert forall p | 0 <= p < |log| :: ops[log[p]].key == ops'[log[p]].key && ops[log[p]].stamp == ops'[log[p]].stamp;
    LinearSame(add, ops, ops', log);
    ReplaySame(add, ops, ops', log);
  }

  predicate AnsweredAs(add: Adder, op: Operation, store: Store)
    requires HasReply(op)
  {
    op.phase.reply == Answer(add, store, op.key, op.request, op.stamp)
  }

  lemma LinearGrows(add: Adder, ops: seq<Operation>, log: seq<nat>, i: nat)
    requires InLog(ops, log) && Linear(add, ops, log) && i < |ops| && HasReply(ops[i])
    requires AnsweredAs(add, ops[i], Replay(add, ops, log))
    ensures InLog(ops, log + [i]) && Linear(add, ops, log + [i])
  {
    hide Answer, Replay;
    var longer := log + [i];
    forall p | 0 <= p < |longer|
      ensures AnsweredAs(add, ops[longer[p]], Replay(add, ops, longer[..p]))
    {
      assert longer[..p] == if p < |log| then log[..p] else log;
    }
  }

  /** One more answer at the end of the log. */
  lemma LogGrows(add: Adder, ops: seq<Operation>, log: seq<nat>, i: nat)
    requires InLog(ops, log) && Linear(add, ops, log) && StampsAscend(ops, log) && i < |ops| && HasReply(ops[i])
    requires AnsweredAs(add, ops[i], Replay(add, ops, log))
    requires forall p | 0 <= p < |log| && ops[log[p]].key == ops[i].key :: ops[log[p]].stamp <= ops[i].stamp
    ensures InLog(ops, log + [i]) && Linear(add, ops, log + [i]) && StampsAscend(ops, log + [i])
    ensures Replay(add, ops, log + [i])
            == Effect(add, Replay(add, ops, log), ops[i].key, ops[i].request, ops[i].stamp)
  {
    hide Answer, Effect, Linear, AnsweredAs;
    LinearGrows(add, ops, log, i);
    assert (log + [i])[..|log|] == log;
  }

  lemma OthersTimely(add: Adder, s: State, i: nat, j: nat)
    requires LogInv(add, s) && Inv(add, s) && Enabled(s, Advance(i)) && j < |s.operations| && j != i
    requires InLog(Apply(add, s, Advance(i)).operations, Apply(add, s, Advance(i)).log)
    ensures Timely(Apply(add, s, Advance(i)), j)
  {
    hide StepOk, Same, Effect, Answer, RefOk, Linear, StampsAscend, Body;
    assert Timely(s, j);
    assert s.operations[j].Holding() ==> s.operations[j].key != s.operations[i].key;
  }

  /** What an operation's next file access gives the log: the simple form's answer, and a time not before the log's. */
  lemma NextIsTimely(add: Adder, s: State, i: nat)
    requires InLog(s.operations, s.log) && i < |s.operations| && s.operations[i].phase.Running?
    requires StepOk(add, s.files, s.store, s.operations[i], s.clock) && Timely(s, i)
    requires forall p | 0 <= p < |s.log| :: s.operations[s.log[p]].stamp <= s.clock
    ensures var op' := Body(add, s.files, s.clock, s.operations[i]).1;
            && (op'.phase.Answered? ==> AnsweredAs(add, op', s.store) && op'.stamp <= s.clock)
            && (op'.phase.Answered? || (!op'.request.Put? && !op'.request.Delete?) ==>
                  forall p | 0 <= p < |s.log| && s.operations[s.log[p]].key == op'.key ::
                    s.operations[s.log[p]].stamp <= op'.stamp)
  {
  }

  lemma LogAdvance(add: Adder, s: State, i: nat)
    requires LogInv(add, s) && Inv(add, s) && Enabled(s, Advance(i))
    ensures LogInv(add, Apply(add, s, Advance(i)))
  {
    hide StepOk, Same, Body, Effect, RefOk, Linear, StampsAscend, Replay, Exclusive, AnsweredAs;
    var s' := Apply(add, s, Advance(i));
    var ops := s'.operations;
    NextIsTimely(add, s, i);
    LogSame(add, s.operations, ops, s.log);
    if ops[i].phase.Answered? {
      LogGrows(add, ops, s.log, i);
    }
    forall j | 0 <= j < |ops|
      ensures Timely(s', j)
    {
      if j != i {
        OthersTimely(add, s, i, j);
      }
    }
  }

  lemma QuietStep(add: Adder, s: State, l: Label)
    requires Enabled(s, l) && !l.Advance?
    ensures
      var s' := Apply(add, s, l);
      && s'.log == s.log && s'.store == s.store && s.clock <= s'.clock
      && |s.operations| <= |s'.operations|
      && (forall i | 0 <= i < |s.operations| && HasReply(s.operations[i]) ::
            SameCall(s.operations[i], s'.operations[i]))
      && (forall i | 0 <= i < |s'.operations| && HasReply(s'.operations[i]) ::
            i < |s.operations| && HasReply(s.operations[i]))
      && (forall i | 0 <= i < |s'.operations| && s'.operations[i].phase.Running? ::
            s'.operations[i].phase.step.Begin? || (i < |s.operations| && s'.operations[i] == s.operations[i]))
  {
    hide Body, Effect;
  }

  lemma LogStep(add: Adder, s: State, l: Label)
    requires LogInv(add, s) && Inv(add, s) && Enabled(s, l)
    ensures LogInv(add, Apply(add, s, l))
  {
    if l.Advance? {
      LogAdvance(add, s, l.op);
    } else {
      QuietStep(add, s, l);
      hide Apply, Enabled, LogInv, Inv, HasReply, SameCall;
      LogQuiet(add, s, Apply(add, s, l));
    }
  }

  lemma NobodyLogged(add: Adder, s: State)
    requires s.operations == [] && s.log == [] && s.store == map[]
    ensures LogInv(add, s)
  {
    assert InLog(s.operations, s.log) && Replay(add, s.operations, s.log) == map[];
    hide Replay, Effect, Answer;
    assert Linear(add, s.operations, s.log);
    assert StampsAscend(s.operations, s.log);
  }

  lemma NobodyRunning(add: Adder, s: State)
    requires s.operations == [] && s.files == Files(map[], map[]) && s.store == map[]
    ensures Inv(add, s)
  {
    hide RefOk, StepOk, Busy;
    forall key: Key
      ensures Same(s.files, s.store, key, s.clock)
    {
    }
  }

  lemma StartOk(add: Adder)
    ensures Inv(add, START) && LogInv(add, START)
  {
    hide Inv, LogInv, Replay;
    NobodyRunning(add, START);
    NobodyLogged(add, START);
  }

  lemma {:induction false} AlwaysInv(add: Adder, ls: seq<Label>)
    requires IsRun(add, ls)
    ensures Inv(add, After(add, ls)) && LogInv(add, After(add, ls))
    decreases |ls|
  {
    hide Inv, LogInv, Apply, Enabled;
    if ls == [] {
      StartOk(add);
    } else {
      var before := ls[..|ls| - 1];
      AlwaysInv(add, before);
      InvStep(add, After(add, before), ls[|ls| - 1]);
      LogStep(add, After(add, before), ls[|ls| - 1]);
    }
  }

  // ------------------------------------------------------- the log along a run

  lemma LastStep(add: Adder, ls: seq<Label>, l: Label)
    requires IsRun(add, ls + [l])
    ensures IsRun(add, ls) && Enabled(After(add, ls), l) && After(add, ls + [l]) == Apply(add, After(add, ls), l)
  {
    assert (ls + [l])[..|ls|] == ls;
  }

  predicate Distinct(log: seq<nat>) {
    forall p, q | 0 <= p < q < |log| :: log[p] != log[q]
  }

  lemma LogAppends(add: Adder, s: State, l: Label)
    requires Enabled(s, l) && LogInv(add, s)
    ensures
      var s' := Apply(add, s, l);
      && s.clock <= s'.clock && |s.operations| <= |s'.operations|
      && (s'.log == s.log || (l.Advance? && l.op !in s.log && s'.log == s.log + [l.op]))
  {
    hide Body, Effect, Replay, Linear, StampsAscend, Timely;
  }

  /** An operation stands in the log at most once. */
  lemma {:induction false} LoggedOnce(add: Adder, ls: seq<Label>)
    requires IsRun(add, ls)
    ensures Distinct(After(add, ls).log)
    decreases |ls|
  {
    if ls != [] {
      hide IsRun, After, Apply, Enabled, LogInv, Inv;
      var before, l := ls[..|ls| - 1], ls[|ls| - 1];
      assert ls == before + [l];
      LastStep(add, before, l);
      LoggedOnce(add, before);
      AlwaysInv(add, before);
      LogAppends(add, After(add, before), l);
    }
  }

  /** Along a run the clock goes on, operations come and the log grows at its end. */
  lemma {:induction false} GoesOn(add: Adder, ls: seq<Label>, n: nat)
    requires IsRun(add, ls) && n <= |ls|
    ensures IsRun(add, ls[..n])
    ensures var (s, s') := (After(add, ls[..n]), After(add, ls));
            s.clock <= s'.clock && |s.operations| <= |s'.operations| && s.log <= s'.log
    decreases |ls|
  {
    hide IsRun, After, Apply, Enabled, LogInv, Inv;
    if n == |ls| {
      assert ls[..n] == ls;
    } else {
      var before, l := ls[..|ls| - 1], ls[|ls| - 1];
      assert ls == before + [l] && before[..n] == ls[..n];
      LastStep(add, before, l);
      GoesOn(add, before, n);
      AlwaysInv(add, before);
      LogAppends(add, After(add, before), l);
    }
  }

  /** The operation's time is settled: it has been answered, or has read the clock for good. */
  predicate Stamped(op: Operation) {
    HasReply(op) || (op.phase.Running? && !op.phase.step.Begin? && !op.request.Put? && !op.request.Delete?)
  }

  lemma BodyStamps(add: Adder, files: Files, store: Store, op: Operation, clock: nat)
    requires op.phase.Running? && StepOk(add, files, store, op, clock)
    ensures
      var op' := Body(add, files, clock, op).1;
      Stamped(op') ==> op'.stamp == clock || (Stamped(op) && op'.stamp == op.stamp <= clock)
  {
    hide Same, View, ValidKey;
  }

  /** What one step does to one operation. */
  lemma StepStamps(add: Adder, s: State, l: Label, i: nat)
    requires Enabled(s, l) && Inv(add, s)
    requires i < |Apply(add, s, l).operations|
    ensures
      var op' := Apply(add, s, l).operations[i];
      && (l == Acquire(i) ==> i < |s.operations| && !Stamped(op'))
      && (l == Advance(i) ==>
            && i < |s.operations| && s.operations[i].phase.Running? && op'.Holding()
            && (Stamped(op') ==> op'.stamp == s.clock
                                 || (Stamped(s.operations[i]) && op'.stamp == s.operations[i].stamp <= s.clock)))
      && (l != Acquire(i) && l != Advance(i) && (op'.phase.Running? || HasReply(op')) ==>
            && i < |s.operations| && op'.stamp == s.operations[i].stamp
            && op'.phase.Running? == s.operations[i].phase.Running?
            && HasReply(op') == HasReply(s.operations[i])
            && Stamped(op') == Stamped(s.operations[i]))
  {
    hide RefOk, Exclusive, Same, StepOk, Body, Effect;
    if l == Advance(i) {
      BodyStamps(add, s.files, s.store, s.operations[i], s.clock);
    }
  }

  /** An operation inside its lock, or answered, was let in at some step, at no later a time than its own. */
  lemma {:induction false} LetIn(add: Adder, ls: seq<Label>, i: nat) returns (early: seq<Label>)
    requires IsRun(add, ls) && i < |After(add, ls).operations|
    requires After(add, ls).operations[i].phase.Running? || HasReply(After(add, ls).operations[i])
    ensures early + [Acquire(i)] <= ls && IsRun(add, early)
    ensures Stamped(After(add, ls).operations[i]) ==>
              After(add, early).clock <= After(add, ls).operations[i].stamp
    decreases |ls|
  {
    assert After(add, []) == START;
    hide IsRun, After, Apply, Enabled, LogInv, Inv, HasReply, Stamped;
    var before, l := ls[..|ls| - 1], ls[|ls| - 1];
    assert ls == before + [l];
    LastStep(add, before, l);
    AlwaysInv(add, before);
    StepStamps(add, After(add, before), l, i);
    if l == Acquire(i) {
      early := before;
    } else {
      early := LetIn(add, before, i);
      assert before[..|early|] == early;
      GoesOn(add, before, |early|);
    }
  }

  /** An answered operation was answered at some step, at no earlier a time than its own. */
  lemma {:induction false} AnsweredAt(add: Adder, ls: seq<Label>, i: nat) returns (early: seq<Label>)
    requires IsRun(add, ls) && i < |After(add, ls).operations| && HasReply(After(add, ls).operations[i])
    ensures early + [Advance(i)] <= ls && IsRun(add, early) && IsRun(add, early + [Advance(i)])
    ensures
      var s := After(add, early + [Advance(i)]);
      && i < |s.operations| && HasReply(s.operations[i])
      && s.operations[i].stamp == After(add, ls).operations[i].stamp <= After(add, early).clock
    decreases |ls|
  {
    assert After(add, []) == START;
    AnsweredIsStamped();
    hide IsRun, After, Apply, Enabled, LogInv, Inv, HasReply, Stamped;
    var before, l := ls[..|ls| - 1], ls[|ls| - 1];
    assert ls == before + [l];
    LastStep(add, before, l);
    AlwaysInv(add, before);
    StepStamps(add, After(add, before), l, i);
    if l == Advance(i) {
      early := before;
    } else {
      early := AnsweredAt(add, before, i);
    }
  }

  lemma AnsweredIsStamped()
    ensures forall op | HasReply(op) :: Stamped(op)
  {
  }

  // ------------------------------------------------------------------- theorems

  /** All live references to a key's lock are to one mutex. */
  lemma OneLockPerKey(add: Adder, ls: seq<Label>, i: nat, j: nat)
    requires IsRun(add, ls) && i < |After(add, ls).operations| && j < |After(add, ls).operations|
    requires After(add, ls).operations[i].Referring() && After(add, ls).operations[j].Referring()
    requires After(add, ls).operations[i].key == After(add, ls).operations[j].key
    ensures After(add, ls).operations[i].lock == After(add, ls).operations[j].lock
  {
    AlwaysInv(add, ls);
    hide Same, StepOk, LogInv, Exclusive;
    assert RefOk(After(add, ls), i) && RefOk(After(add, ls), j);
  }

  /** No two operations on a key are inside its lock at once. */
  lemma OneHolderPerKey(add: Adder, ls: seq<Label>, i: nat, j: nat)
    requires IsRun(add, ls) && i < j < |After(add, ls).operations|
    requires After(add, ls).operations[i].Holding() && After(add, ls).operations[j].Holding()
    ensures After(add, ls).operations[i].key != After(add, ls).operations[j].key
  {
    AlwaysInv(add, ls);
  }

  /**
    In every interleaving the answers are those of the simple form run one
    request at a time, in the order of the log, each at a time no earlier than
    the requests logged before it for its key; the operations in the log are
    those that have been answered, and each stands there once.
  */
  lemma Linearizes(add: Adder, ls: seq<Label>)
    requires IsRun(add, ls)
    ensures var s := After(add, ls);
            && InLog(s.operations, s.log)
            && Linear(add, s.operations, s.log)
            && StampsAscend(s.operations, s.log)
            && Distinct(s.log)
            && (forall i: nat :: i in s.log <==> i < |s.operations| && HasReply(s.operations[i]))
  {
    AlwaysInv(add, ls);
    LoggedOnce(add, ls);
  }

  /** The time an operation is logged with lies between its entry into the lock and its answer. */
  lemma StampIsWithinCall(add: Adder, ls: seq<Label>, i: nat) returns (a: nat, b: nat)
    requires IsRun(add, ls) && i < |After(add, ls).operations| && HasReply(After(add, ls).operations[i])
    ensures a < b < |ls| && ls[a] == Acquire(i) && ls[b] == Advance(i) && IsRun(add, ls[..a]) && IsRun(add, ls[..b])
    ensures After(add, ls[..a]).clock <= After(add, ls).operations[i].stamp <= After(add, ls[..b]).clock
  {
    hide IsRun, After, HasReply;
    var answered := AnsweredAt(add, ls, i);
    AnsweredIsStamped();
    var letIn := LetIn(add, answered + [Advance(i)], i);
    a, b := |letIn|, |answered|;
    assert ls[..b] == answered && ls[..a] == letIn;
    assert (answered + [Advance(i)])[a] == (letIn + [Acquire(i)])[a] == Acquire(i);
  }

  /** An operation answered before another was called stands before it in the log. */
  lemma LogKeepsCallOrder(add: Adder, ls: seq<Label>, n: nat, p: nat, q: nat)
    requires IsRun(add, ls) && n <= |ls| && IsRun(add, ls[..n])
    requires p < |After(add, ls).log| && q < |After(add, ls).log|
    requires var (s, log) := (After(add, ls[..n]), After(add, ls).log);
             log[p] < |s.operations| <= log[q] && HasReply(s.operations[log[p]])
    ensures p < q
  {
    var early, log := After(add, ls[..n]), After(add, ls).log;
    GoesOn(add, ls, n);
    LoggedOnce(add, ls);
    Linearizes(add, ls[..n]);
    hide IsRun, After, HasReply, Linear, StampsAscend;
    var p0 :| 0 <= p0 < |early.log| && early.log[p0] == log[p];
    assert log[p0] == log[p] && p0 == p;
    assert forall k | 0 <= k < |early.log| :: early.log[k] == log[k] && early.log[k] < |early.operations|;
  }

  /** Between operations the files hold what the simple form holds, expired entries aside. */
  lemma FilesAgree(add: Adder, ls: seq<Label>, key: Key)
    requires IsRun(add, ls) && !Busy(After(add, ls), key)
    ensures var s := After(add, ls);
            (if s.files.ExpiredAt(key, s.clock) then None else s.files.Read(key))
            == ValueOf(View(s.store, key, s.clock))
  {
    AlwaysInv(add, ls);
    hide StepOk, LogInv, Exclusive, RefOk;
    assert Same(After(add, ls).files, After(add, ls).store, key, After(add, ls).clock);
  }

  /** The two file trees read as a map from key to value and expiry. */
  function AsStore(files: Files): Store {
    map key | key in files.values :: Entry(files.values[key], files.Ttl(key))
  }

  lemma IdleKeyShows(files: Files, store: Store, key: Key, now: nat)
    requires Same(files, store, key, now)
    ensures forall later: nat | now <= later :: View(AsStore(files), key, later) == View(store, key, later)
  {
    if key in store && Expired(store[key], now) {
      PurgedIsAlike(store, key, now);
      assert forall later: nat | now <= later :: View(store, key, later) == View(store - {key}, key, later);
    }
  }

  /**
    Between operations nobody can tell the file trees, whatever has been purged
    from them, from the simple form's map: every request would be answered
    alike, at any later time, and leave the two alike again.
  */
  lemma PurgingIsUnobservable(add: Adder, ls: seq<Label>, key: Key, r: Request, now: nat)
    requires IsRun(add, ls) && (forall k: Key :: !Busy(After(add, ls), k)) && After(add, ls).clock <= now
    ensures var (files, store) := (AsStore(After(add, ls).files), After(add, ls).store);
            && Answer(add, files, key, r, now) == Answer(add, store, key, r, now)
            && Alike(Effect(add, files, key, r, now), Effect(add, store, key, r, now), now)
  {
    AlwaysInv(add, ls);
    var s := After(add, ls);
    hide StepOk, LogInv, Exclusive, RefOk, Same, View, Answer, Effect;
    forall k: Key, later: nat | s.clock <= later
      ensures View(AsStore(s.files), k, later) == View(s.store, k, later)
    {
      IdleKeyShows(s.files, s.store, k, s.clock);
    }
    AlikeStaysAlike(add, AsStore(s.files), s.store, key, r, now);
  }

  /** The expiry an operation found alive when it read the clock. */
  function LiveExpiry(store: Store, op: Operation): Option<nat> {
    var e := View(store, op.key, op.stamp);
    if e.Some? then e.value.expiry else None
  }

  /** What a succeeding swap or increment leaves: the live expiry or none, and the new value; other keys untouched. */
  predicate ExpiryKept(files: Files, files': Files, store: Store, store': Store, op: Operation, reply: Reply) {
    && files'.Ttl(op.key) == LiveExpiry(store, op)
    && (reply.Swapped? ==>
          && op.request.Cas? && files'.Read(op.key) == Some(op.request.value)
          && ValueOf(View(store, op.key, op.stamp)) == op.request.expected)
    && (reply.Counted? ==> op.request.Increment? && files'.Read(op.key) == Some(reply.sum))
    && op.key in files'.values && op.key in store'
    && store'[op.key] == Entry(files'.values[op.key], LiveExpiry(store, op))
    && files'.ttls - {op.key} == files.ttls - {op.key}
    && files'.values - {op.key} == files.values - {op.key}
    && store' - {op.key} == store - {op.key}
  }

  lemma BodyKeepsExpiry(add: Adder, files: Files, store: Store, op: Operation, clock: nat)
    requires op.phase.Running? && StepOk(add, files, store, op, clock)
    requires var phase := Body(add, files, clock, op).1.phase;
             phase.Answered? && (phase.reply.Swapped? || phase.reply.Counted?)
    ensures var (files', op') := Body(add, files, clock, op);
            ExpiryKept(files, files', store, Effect(add, store, op'.key, op'.request, op'.stamp), op, op'.phase.reply)
  {
  }

  /**
    In every interleaving, when a swap or an increment succeeds the key's
    expiry file holds the live expiry it found, or is absent where there was
    none; its value file holds the new value; no other key's files change.
  */
  lemma ExpiryIsKept(add: Adder, ls: seq<Label>, i: nat)
    requires IsRun(add, ls) && Enabled(After(add, ls), Advance(i))
    requires var phase := Apply(add, After(add, ls), Advance(i)).operations[i].phase;
             phase.Answered? && (phase.reply.Swapped? || phase.reply.Counted?)
    ensures var (s, s') := (After(add, ls), Apply(add, After(add, ls), Advance(i)));
            ExpiryKept(s.files, s'.files, s.store, s'.store, s.operations[i], s'.operations[i].phase.reply)
  {
    AlwaysInv(add, ls);
    hide LogInv, Exclusive, RefOk, StepOk, Same, Body, Effect, ExpiryKept;
    var s := After(add, ls);
    BodyKeepsExpiry(add, s.files, s.store, s.operations[i], s.clock);
  }

  /** What an answered set leaves in the files: the value, and the time and its time to live up to the largest time. */
  predicate PutKept(files: Files, files': Files, op: Operation, clock: nat)
    requires op.request.Put?
  {
    var ttl := op.request.ttl;
    && files'.Read(op.key) == Some(op.request.value) && files'.values == files.values
    && (ttl.None? ==> files'.Ttl(op.key) == None)
    && (ttl.Some? && clock + ttl.value <= 0xFFFF_FFFF_FFFF_FFFF_FFFF_FFFF_FFFF_FFFF ==>
          files'.Ttl(op.key) == Some(clock + ttl.value))
    && (ttl.Some? && clock + ttl.value > 0xFFFF_FFFF_FFFF_FFFF_FFFF_FFFF_FFFF_FFFF ==>
          files'.Ttl(op.key) == Some(0xFFFF_FFFF_FFFF_FFFF_FFFF_FFFF_FFFF_FFFF))
    && files'.ttls - {op.key} == files.ttls - {op.key}
  }

  lemma BodyPutsFiles(add: Adder, files: Files, store: Store, op: Operation, clock: nat)
    requires op.phase.Running? && StepOk(add, files, store, op, clock) && op.request.Put?
    requires Body(add, files, clock, op).1.phase == Answered(Done)
    ensures PutKept(files, Body(add, files, clock, op).0, op, clock)
  {
  }

  /** In every interleaving, when a set is answered its value and its expiry are in the key's files. */
  lemma PutIsInTheFiles(add: Adder, ls: seq<Label>, i: nat)
    requires IsRun(add, ls) && Enabled(After(add, ls), Advance(i)) && After(add, ls).operations[i].request.Put?
    requires Apply(add, After(add, ls), Advance(i)).operations[i].phase == Answered(Done)
    ensures var s := After(add, ls);
            PutKept(s.files, Apply(add, s, Advance(i)).files, s.operations[i], s.clock)
  {
    AlwaysInv(add, ls);
    hide LogInv, Exclusive, RefOk, StepOk, Same, Body, Effect, PutKept;
    var s := After(add, ls);
    BodyPutsFiles(add, s.files, s.store, s.operations[i], s.clock);
  }
}
