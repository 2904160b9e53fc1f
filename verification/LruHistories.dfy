/** Whole histories of the cache policy: the victim is always the key unused for longest. */
module LruHistories {
  import opened Sequences
  import opened LruPolicies

  datatype Op = Add(key: nat) | Lock(key: nat) | Unlock(key: nat) | MoveBack(key: nat) | Evict

  /** What the callers' assertions allow. */
  ghost predicate Allowed(p: Lru, op: Op) {
    match op
    case Add(k) => !p.Has(k)
    case Lock(k) => p.Has(k)
    case Unlock(k) => k in p.locks
    case MoveBack(k) => k in p.free
    case Evict => p.free != []
  }

  ghost function Step(p: Lru, op: Op): Lru {
    match op
    case Add(k) => Added(p, k)
    case Lock(k) => LockedOnce(p, k)
    case Unlock(k) => if k in p.locks && p.locks[k] > 0 then UnlockedOnce(p, k) else p
    case MoveBack(k) => MovedBack(p, k)
    case Evict => if p.free != [] then Lru(p.free[1..], p.locks) else p
  }

  ghost function State(ops: seq<Op>): Lru {
    if ops == [] then Lru([], map[]) else Step(State(ops[..|ops| - 1]), ops[|ops| - 1])
  }

  ghost predicate Legal(ops: seq<Op>) {
    ops != [] ==> Legal(ops[..|ops| - 1]) && Allowed(State(ops[..|ops| - 1]), ops[|ops| - 1])
  }

  /** The operation puts k at the end of the line: an add, a move, or the last unlock. */
  ghost predicate Touches(p: Lru, op: Op, k: nat) {
    match op
    case Add(x) => x == k
    case MoveBack(x) => x == k
    case Unlock(x) => x == k && k in p.locks && p.locks[k] == 1
    case Lock(_) => false
    case Evict => false
  }

  /** How long the history was when k was last put at the end of the line. */
  ghost function LastTouch(ops: seq<Op>, k: nat): nat {
    if ops == [] then 0
    else if Touches(State(ops[..|ops| - 1]), ops[|ops| - 1], k) then |ops|
    else LastTouch(ops[..|ops| - 1], k)
  }

  lemma {:induction false} TouchedBy(ops: seq<Op>, k: nat)
    ensures LastTouch(ops, k) <= |ops|
    decreases |ops|
  {
    if ops != [] {
      TouchedBy(ops[..|ops| - 1], k);
    }
  }

  lemma {:induction false} StepOk(p: Lru, op: Op)
    requires p.Ok() && Allowed(p, op)
    ensures Step(p, op).Ok()
  {
    match op
    case Add(k) =>
      NoDupSnoc(p.free, k);
    case Lock(k) =>
      WithoutIs(p.free, k);
    case Unlock(k) =>
      NoDupSnoc(p.free, k);
    case MoveBack(k) =>
      WithoutIs(p.free, k);
      NoDupSnoc(Without(p.free, k), k);
    case Evict =>
      assert forall k :: k in p.free[1..] ==> k in p.free;
  }

  /** Free keys and locked keys never overlap, and no key is free twice. */
  lemma {:induction false} StateOk(ops: seq<Op>)
    requires Legal(ops)
    ensures State(ops).Ok()
    decreases |ops|
  {
    if ops != [] {
      StateOk(ops[..|ops| - 1]);
      StepOk(State(ops[..|ops| - 1]), ops[|ops| - 1]);
    }
  }

  /** How often the operation occurs in the history. */
  ghost function Times(ops: seq<Op>, op: Op): nat {
    if ops == [] then 0 else Times(ops[..|ops| - 1], op) + if ops[|ops| - 1] == op then 1 else 0
  }

  /** A key's reference count is the number of its locks less the number of its unlocks; without a count they match. */
  lemma {:induction false} CountsLocks(ops: seq<Op>, k: nat)
    requires Legal(ops)
    ensures Times(ops, Lock(k)) - Times(ops, Unlock(k)) ==
              if k in State(ops).locks then State(ops).locks[k] else 0
    decreases |ops|
  {
    if ops != [] {
      CountsLocks(ops[..|ops| - 1], k);
      StateOk(ops[..|ops| - 1]);
    }
  }

  /** The keys stand in the order of the times at. */
  ghost predicate InOrder(free: seq<nat>, at: nat -> nat) {
    forall i, j :: 0 <= i < j < |free| ==> at(free[i]) < at(free[j])
  }

  lemma {:induction false} WithoutInOrder(free: seq<nat>, k: nat, at: nat -> nat)
    requires InOrder(free, at)
    ensures InOrder(Without(free, k), at)
    ensures forall x :: x in Without(free, k) ==> x in free
    decreases |free|
  {
    if free != [] && free[0] != k {
      WithoutInOrder(free[1..], k, at);
      var rest := Without(free[1..], k);
      forall j | 0 <= j < |rest|
        ensures at(free[0]) < at(rest[j])
      {
        assert rest[j] in free[1..];
      }
    }
  }

  /** Times of the keys that stay change only for a key put at the end. */
  lemma {:induction false} AppendInOrder(free: seq<nat>, k: nat, at: nat -> nat, at': nat -> nat)
    requires InOrder(free, at) && k !in free
    requires forall x :: x in free ==> at'(x) == at(x) < at'(k)
    ensures InOrder(free + [k], at')
  {
    forall i, j | 0 <= i < j < |free + [k]|
      ensures at'((free + [k])[i]) < at'((free + [k])[j])
    {
      assert free[i] in free;
      assert j < |free| ==> free[j] in free;
    }
  }

  lemma {:induction false} SameTimes(free: seq<nat>, at: nat -> nat, at': nat -> nat)
    requires InOrder(free, at) && forall x :: x in free ==> at'(x) == at(x)
    ensures InOrder(free, at')
  {
    forall i, j | 0 <= i < j < |free|
      ensures at'(free[i]) < at'(free[j])
    {
      assert free[i] in free && free[j] in free;
    }
  }

  /** The unlocked keys stand in the order in which they were last put at the end of the line. */
  lemma {:induction false} OldestFirst(ops: seq<Op>)
    requires Legal(ops)
    ensures InOrder(State(ops).free, k => LastTouch(ops, k))
    decreases |ops|
  {
    if ops != [] {
      var before, op := ops[..|ops| - 1], ops[|ops| - 1];
      var p := State(before);
      var at, at' := (k: nat) => LastTouch(before, k), (k: nat) => LastTouch(ops, k);
      OldestFirst(before);
      StateOk(before);
      forall k: nat
        ensures at(k) <= |before|
      {
        TouchedBy(before, k);
      }
      OneStepInOrder(p, op, at, at', |ops|);
    }
  }

  lemma {:induction false} OneStepInOrder(p: Lru, op: Op, at: nat -> nat, at': nat -> nat, now: nat)
    requires p.Ok() && Allowed(p, op) && InOrder(p.free, at)
    requires forall k: nat :: at(k) < now && at'(k) == if Touches(p, op, k) then now else at(k)
    ensures InOrder(Step(p, op).free, at')
  {
    match op
    case Add(k) =>
      AppendInOrder(p.free, k, at, at');
    case Lock(k) =>
      WithoutInOrder(p.free, k, at);
      SameTimes(Step(p, op).free, at, at');
    case Unlock(k) =>
      if p.locks[k] == 1 {
        AppendInOrder(p.free, k, at, at');
      } else {
        SameTimes(p.free, at, at');
      }
    case MoveBack(k) =>
      WithoutIs(p.free, k);
      WithoutInOrder(p.free, k, at);
      AppendInOrder(Without(p.free, k), k, at, at');
    case Evict =>
      SameTimes(p.free[1..], at, at');
  }

  /** The key evicted next was put at the end of the line before every other unlocked key. */
  lemma {:induction false} VictimIsOldest(ops: seq<Op>, k: nat)
    requires Legal(ops) && State(ops).free != [] && k in State(ops).free
    ensures State(ops).free[0] == k || LastTouch(ops, State(ops).free[0]) < LastTouch(ops, k)
  {
    OldestFirst(ops);
    var free := State(ops).free;
    var i :| 0 <= i < |free| && free[i] == k;
    var at := (k: nat) => LastTouch(ops, k);
    assert InOrder(free, at);
    assert i > 0 ==> at(free[0]) < at(free[i]);
  }
}
