/**
 Pool capacity: creating sandboxes in a pool, and the cleanup finalizers that take units out of it in
 three separate commits.
 */
module Pools {
  import opened Common

  /**
   `counted` are the units whose finalizer has lowered the size but not deleted the unit yet, with
   the size it then saw; `removed` are the finalizers after the deletion, before they look at that
   size.  `seen` is the history of all sizes seen and `tries` counts the attempts to delete the pool.
   `locked` says whether a training holds a lock on the pool.
   */
  datatype Pool = Pool(size: int, maxSize: int, units: set<nat>, nextUnit: nat,
                       counted: map<nat, int>, removed: map<nat, int>, seen: seq<int>,
                       present: bool, locked: bool, tries: nat)

  function NewPool(maxSize: int): Pool {
    Pool(0, maxSize, {}, 0, map[], map[], [], true, false, 0)
  }

  // ---- Creating sandboxes ----

  function EffectiveCount(p: Pool, count: Option<int>): int {
    match count
    case Some(n) => n
    case None => p.maxSize - p.size
  }

  /** The stored size is a non-negative field. */
  predicate CreateAccepted(p: Pool, count: Option<int>, hardwareOk: bool) {
    && p.present
    && p.size + EffectiveCount(p, count) <= p.maxSize
    && hardwareOk
    && p.size + EffectiveCount(p, count) >= 0
  }

  /** The numbers `from`, `from + 1`, ..., `n` of them; none when `n` is negative. */
  function Numbers(from: nat, n: int): (s: set<nat>)
    ensures forall u :: u in s <==> from <= u < from + n
  {
    if n <= 0 then {} else Numbers(from, n - 1) + {from + n - 1}
  }

  function NewUnits(p: Pool, n: int): set<nat> {
    Numbers(p.nextUnit, n)
  }

  /** `create_sandboxes_in_pool`. */
  function Create(p: Pool, count: Option<int>, hardwareOk: bool): Pool {
    if !CreateAccepted(p, count, hardwareOk) then p
    else
      var n := EffectiveCount(p, count);
      p.(units := p.units + NewUnits(p, n), size := p.size + n, nextUnit := p.nextUnit + if n > 0 then n else 0)
  }

  // ---- The cleanup finalizer ----

  /** First commit: the size goes down by one. */
  function LowerSize(p: Pool, u: nat): Pool {
    p.(size := p.size - 1, counted := p.counted[u := p.size - 1], seen := p.seen + [p.size - 1])
  }

  /** Second commit: the unit goes. */
  function RemoveUnit(p: Pool, u: nat): Pool
    requires u in p.counted
  {
    p.(units := p.units - {u}, counted := p.counted - {u}, removed := p.removed[u := p.counted[u]])
  }

  /** Last: the finalizer that saw size zero tries to delete the pool, which its units and a lock protect. */
  function LookAtSize(p: Pool, u: nat, deletePool: bool): Pool
    requires u in p.removed
  {
    var q := p.(removed := p.removed - {u});
    if p.removed[u] == 0 && deletePool
    then q.(tries := p.tries + 1, present := p.present && (p.units != {} || p.locked))
    else q
  }

  // ---- Runs ----

  datatype Action =
    | CreateSandboxes(count: Option<int>, hardwareOk: bool)
    | Lower(unit: nat)
    | Remove(unit: nat)
    | Look(unit: nat, deletePool: bool)
    | LockPool
    | UnlockPool

  /** Each unit has at most one live cleanup chain, whose finalizer commits in order. */
  predicate Enabled(p: Pool, a: Action) {
    match a
    case CreateSandboxes(count, _) => count.Some? ==> count.value >= 0
    case Lower(u) => p.present && u in p.units && u !in p.counted
    case Remove(u) => u in p.counted
    case Look(u, _) => u in p.removed
    case LockPool => p.present && !p.locked
    case UnlockPool => p.locked
  }

  function Step(p: Pool, a: Action): Pool {
    if !Enabled(p, a) then p
    else
      match a
      case CreateSandboxes(count, hardwareOk) => Create(p, count, hardwareOk)
      case Lower(u) => LowerSize(p, u)
      case Remove(u) => RemoveUnit(p, u)
      case Look(u, deletePool) => LookAtSize(p, u, deletePool)
      case LockPool => p.(locked := true)
      case UnlockPool => p.(locked := false)
  }

  function Run(p: Pool, actions: seq<Action>): Pool {
    if actions == [] then p else Step(Run(p, actions[..|actions| - 1]), actions[|actions| - 1])
  }

  // ---- The size law ----

  /** The units are as many as the size says, plus the finalizers between their two commits. */
  ghost predicate SizeLaw(p: Pool) {
    |p.units| == p.size + |p.counted|
  }

  ghost predicate Inv(p: Pool) {
    && SizeLaw(p)
    && 0 <= p.size <= p.maxSize
    && p.counted.Keys <= p.units
    && (forall u <- p.units :: u < p.nextUnit)
    && (forall u <- p.removed :: u < p.nextUnit && u !in p.units)
    && (!p.present ==> p.units == {})
  }

  lemma {:induction false} NewUnitsSize(p: Pool, n: nat)
    ensures |NewUnits(p, n)| == n
  {
    if n > 0 {
      NewUnitsSize(p, n - 1);
    }
  }

  /** Accepted creations keep the size law exactly when the effective count is not negative. */
  lemma {:induction false} CreateKeepsSizeLawIff(p: Pool, count: Option<int>, hardwareOk: bool)
    requires SizeLaw(p) && CreateAccepted(p, count, hardwareOk)
    requires forall u <- p.units :: u < p.nextUnit
    ensures SizeLaw(Create(p, count, hardwareOk)) <==> EffectiveCount(p, count) >= 0
  {
    var n := EffectiveCount(p, count);
    if n >= 0 {
      NewUnitsSize(p, n);
      assert |p.units + NewUnits(p, n)| == |p.units| + n;
    } else {
      assert p.units + NewUnits(p, n) == p.units;
    }
  }

  /**
   What a request to build sandboxes comes to: as many new units as asked for, or as there is room for, in a
   pool that is there, has the room and can be hosted; otherwise nothing changes.
   */
  lemma {:induction false} CreationOutcome(p: Pool, count: Option<int>, hardwareOk: bool)
    requires Inv(p)
    ensures var n := if count.Some? then count.value else p.maxSize - p.size;
            var more := if n > 0 then n else 0;
            var q := Create(p, count, hardwareOk);
            if p.present && hardwareOk && 0 <= p.size + n <= p.maxSize then
              && q.size == p.size + n && |q.units| == |p.units| + more
              && (forall u :: u in q.units <==> u in p.units || p.nextUnit <= u < p.nextUnit + more)
              && q == p.(size := q.size, units := q.units, nextUnit := p.nextUnit + more)
              && (count.None? ==> q.size == p.maxSize)
            else q == p
  {
    hide Inv, NewUnits;
    UnitsGrow(p, EffectiveCount(p, count));
  }

  lemma UnitsGrow(p: Pool, n: int)
    requires Inv(p)
    ensures var more := if n > 0 then n else 0;
            && |p.units + NewUnits(p, n)| == |p.units| + more
            && forall u :: u in p.units + NewUnits(p, n) <==> u in p.units || p.nextUnit <= u < p.nextUnit + more
  {
    NewUnitsSize(p, if n > 0 then n else 0);
    assert p.units !! NewUnits(p, n);
  }

  lemma {:induction false} StepInv(p: Pool, a: Action)
    requires Inv(p)
    ensures Inv(Step(p, a)) && Step(p, a).maxSize == p.maxSize
  {
    hide Inv, Create, LowerSize, RemoveUnit, LookAtSize;
    if Enabled(p, a) {
      match a
      case CreateSandboxes(count, hardwareOk) => CreateInv(p, count, hardwareOk);
      case Lower(u) => LowerInv(p, u);
      case Remove(u) => RemoveInv(p, u);
      case Look(u, deletePool) => LookInv(p, u, deletePool);
      case LockPool => LockInv(p, true);
      case UnlockPool => LockInv(p, false);
    }
  }

  lemma LookInv(p: Pool, u: nat, deletePool: bool)
    requires Inv(p) && u in p.removed
    ensures Inv(LookAtSize(p, u, deletePool)) && LookAtSize(p, u, deletePool).maxSize == p.maxSize
  {
  }

  lemma LockInv(p: Pool, locked: bool)
    requires Inv(p)
    ensures Inv(p.(locked := locked))
  {
  }

  lemma CreateInv(p: Pool, count: Option<int>, hardwareOk: bool)
    requires Inv(p) && (count.Some? ==> count.value >= 0)
    ensures Inv(Create(p, count, hardwareOk)) && Create(p, count, hardwareOk).maxSize == p.maxSize
  {
    if CreateAccepted(p, count, hardwareOk) {
      CreateKeepsSizeLawIff(p, count, hardwareOk);
    }
  }

  lemma LowerInv(p: Pool, u: nat)
    requires Inv(p) && p.present && u in p.units && u !in p.counted
    ensures Inv(LowerSize(p, u)) && LowerSize(p, u).maxSize == p.maxSize
  {
    assert (p.counted[u := p.size - 1]).Keys == p.counted.Keys + {u};
    CountedFits(p.counted.Keys + {u}, p.units);
    assert |p.counted.Keys| == |p.counted|;
    assert |p.counted[u := p.size - 1]| == |(p.counted[u := p.size - 1]).Keys|;
  }

  lemma RemoveInv(p: Pool, u: nat)
    requires Inv(p) && u in p.counted
    ensures Inv(RemoveUnit(p, u)) && RemoveUnit(p, u).maxSize == p.maxSize
  {
    assert (p.counted - {u}).Keys == p.counted.Keys - {u};
    assert |p.counted.Keys| == |p.counted| && |(p.counted - {u}).Keys| == |p.counted - {u}|;
  }

  lemma CountedFits<T>(a: set<T>, b: set<T>)
    requires a <= b
    ensures |a| <= |b|
  {
    assert b == a + (b - a);
  }

  lemma {:induction false} RunInv(p: Pool, actions: seq<Action>)
    requires Inv(p)
    ensures Inv(Run(p, actions)) && Run(p, actions).maxSize == p.maxSize
  {
    if actions != [] {
      RunInv(p, actions[..|actions| - 1]);
      StepInv(Run(p, actions[..|actions| - 1]), actions[|actions| - 1]);
    }
  }

  /** Conservation over all runs with non-negative counts. */
  lemma {:induction false} PoolConservation(maxSize: nat, actions: seq<Action>)
    ensures var p := Run(NewPool(maxSize), actions);
            |p.units| == p.size + |p.counted| && 0 <= p.size <= maxSize
  {
    RunInv(NewPool(maxSize), actions);
  }

  // ---- Emptying a pool ----

  predicate NoCreates(actions: seq<Action>) {
    forall a <- actions :: !a.CreateSandboxes?
  }

  function CountDown(from: int, n: nat): seq<int> {
    seq(n, i requires 0 <= i < n => from - 1 - i)
  }

  /** Without creations the sizes seen count down, one by one. */
  lemma {:induction false} SeenCountsDown(p: Pool, actions: seq<Action>)
    requires NoCreates(actions)
    ensures var q := Run(p, actions);
            |p.seen| <= |q.seen| && q.size == p.size - (|q.seen| - |p.seen|)
            && q.seen == p.seen + CountDown(p.size, |q.seen| - |p.seen|)
  {
    if actions == [] {
      assert CountDown(p.size, 0) == [];
    } else {
      var before := Run(p, actions[..|actions| - 1]);
      SeenCountsDown(p, actions[..|actions| - 1]);
      var n := |before.seen| - |p.seen|;
      assert CountDown(p.size, n + 1) == CountDown(p.size, n) + [p.size - 1 - n];
    }
  }

  /** Of the finalizers that empty a pool exactly one, the last to lower the size, sees it empty. */
  lemma {:induction false} ExactlyOneSeesEmpty(p: Pool, actions: seq<Action>)
    requires Inv(p) && NoCreates(actions) && p.size > 0 && Run(p, actions).size == 0
    ensures var q := Run(p, actions);
            |q.seen| == |p.seen| + p.size
            && forall i | |p.seen| <= i < |q.seen| :: q.seen[i] == 0 <==> i == |q.seen| - 1
  {
    SeenCountsDown(p, actions);
  }

  ghost predicate NoneSawZero(p: Pool) {
    (forall u <- p.counted :: p.counted[u] > 0) && (forall u <- p.removed :: p.removed[u] > 0)
  }

  /** How many finalizers that saw zero are still to look at it, or to remove their unit first. */
  ghost predicate OneZero(p: Pool) {
    && (forall u <- p.counted :: p.counted[u] >= p.size)
    && (forall u <- p.removed :: p.removed[u] >= p.size)
    && (forall u, v | u in p.counted && v in p.counted && p.counted[u] == p.counted[v] :: u == v)
    && (forall u, v | u in p.removed && v in p.removed && p.removed[u] == p.removed[v] :: u == v)
    && (forall u, v | u in p.counted && v in p.removed :: p.counted[u] != p.removed[v])
    && (p.tries > 0 ==> p.size == 0 && NoneSawZero(p))
    && p.tries <= 1
  }

  lemma OneZeroStep(p: Pool, a: Action)
    requires Inv(p) && OneZero(p) && !a.CreateSandboxes?
    ensures OneZero(Step(p, a))
  {
    if Enabled(p, a) {
      match a
      case Lower(u) => LowerOneZero(p, u);
      case Remove(u) => RemoveOneZero(p, u);
      case Look(u, deletePool) => LookOneZero(p, u, deletePool);
      case _ =>
    }
  }

  lemma LowerOneZero(p: Pool, u: nat)
    requires Inv(p) && OneZero(p) && u in p.units && u !in p.counted
    ensures OneZero(LowerSize(p, u))
  {
    NotEmptyYet(p, u);
    var q := LowerSize(p, u);
    assert forall v <- q.counted :: v == u || v in p.counted;
    assert q.counted[u] == q.size && forall v <- p.counted :: v != u && q.counted[v] == p.counted[v] >= p.size;
    hide Inv;
  }

  lemma RemoveOneZero(p: Pool, u: nat)
    requires Inv(p) && OneZero(p) && u in p.counted
    ensures OneZero(RemoveUnit(p, u))
  {
    var q := RemoveUnit(p, u);
    assert forall v <- q.counted :: v in p.counted && v != u;
    assert forall v <- q.removed :: v == u || v in p.removed;
  }

  lemma LookOneZero(p: Pool, u: nat, deletePool: bool)
    requires Inv(p) && OneZero(p) && u in p.removed
    ensures OneZero(LookAtSize(p, u, deletePool))
  {
    var q := LookAtSize(p, u, deletePool);
    assert forall v <- q.removed :: v in p.removed && v != u;
  }

  /** The pool delete is tried at most once while a pool is emptied. */
  lemma {:induction false} TriedAtMostOnce(p: Pool, actions: seq<Action>)
    requires Inv(p) && p.counted == map[] && p.removed == map[] && p.tries == 0
    requires NoCreates(actions)
    ensures Inv(Run(p, actions)) && OneZero(Run(p, actions)) && Run(p, actions).tries <= 1
  {
    RunInv(p, actions);
    if actions != [] {
      TriedAtMostOnce(p, actions[..|actions| - 1]);
      OneZeroStep(Run(p, actions[..|actions| - 1]), actions[|actions| - 1]);
    }
  }

  /** Some finalizer that saw size zero has not looked at it yet. */
  ghost predicate ZeroPending(p: Pool) {
    (exists u <- p.counted :: p.counted[u] == 0) || (exists u <- p.removed :: p.removed[u] == 0)
  }

  ghost predicate TryComes(p: Pool) {
    p.size == 0 && p.tries == 0 ==> ZeroPending(p)
  }

  lemma LowerKeepsTry(p: Pool, u: nat)
    requires TryComes(p)
    ensures p.size > 0 ==> TryComes(LowerSize(p, u))
  {
    assert LowerSize(p, u).counted[u] == p.size - 1;
  }

  lemma RemoveKeepsTry(p: Pool, u: nat)
    requires Inv(p) && TryComes(p) && u in p.counted
    ensures TryComes(RemoveUnit(p, u))
  {
    var q := RemoveUnit(p, u);
    if p.size == 0 && p.tries == 0 {
      if v :| v in p.counted && p.counted[v] == 0 {
        assert if v == u then v in q.removed && q.removed[v] == 0 else v in q.counted && q.counted[v] == 0;
      } else {
        var v :| v in p.removed && p.removed[v] == 0;
        assert v in q.removed && q.removed[v] == 0;
      }
    }
  }

  lemma LookKeepsTry(p: Pool, u: nat)
    requires TryComes(p) && u in p.removed
    ensures TryComes(LookAtSize(p, u, true))
  {
    var q := LookAtSize(p, u, true);
    if p.size == 0 && q.tries == 0 {
      if v :| v in p.removed && p.removed[v] == 0 {
        assert v in q.removed && q.removed[v] == 0;
      }
    }
  }

  lemma StepKeepsTry(p: Pool, a: Action)
    requires Inv(p) && TryComes(p) && !a.CreateSandboxes? && (a.Look? ==> a.deletePool)
    ensures TryComes(Step(p, a))
  {
    if Enabled(p, a) {
      match a
      case Lower(u) =>
        NotEmptyYet(p, u);
        LowerKeepsTry(p, u);
      case Remove(u) => RemoveKeepsTry(p, u);
      case Look(u, deletePool) => LookKeepsTry(p, u);
      case _ =>
    }
  }

  lemma NotEmptyYet(p: Pool, u: nat)
    requires Inv(p) && u in p.units && u !in p.counted
    ensures p.size > 0
  {
    CountedFits(p.counted.Keys + {u}, p.units);
    assert |p.counted.Keys| == |p.counted|;
  }

  /** Every finalizer is to delete the pool when it is empty, as in a forced deletion of the pool. */
  predicate AllDelete(actions: seq<Action>) {
    forall a <- actions :: a.Look? ==> a.deletePool
  }

  lemma {:induction false} TryIsPending(p: Pool, actions: seq<Action>)
    requires Inv(p) && p.size > 0 && NoCreates(actions) && AllDelete(actions)
    ensures TryComes(Run(p, actions))
  {
    if actions != [] {
      var before := actions[..|actions| - 1];
      TryIsPending(p, before);
      RunInv(p, before);
      StepKeepsTry(Run(p, before), actions[|actions| - 1]);
    }
  }

  /**
   Finalizers that are all to delete the pool and that empty it: when the last of them is through,
   exactly one has tried.
   */
  lemma {:induction false} TriedExactlyOnce(p: Pool, actions: seq<Action>)
    requires Inv(p) && p.counted == map[] && p.removed == map[] && p.tries == 0 && p.size > 0
    requires NoCreates(actions) && AllDelete(actions)
    ensures var q := Run(p, actions);
            q.size == 0 && q.counted == map[] && q.removed == map[] ==> q.tries == 1
  {
    TriedAtMostOnce(p, actions);
    TryIsPending(p, actions);
  }

  /**
   The one try deletes the pool exactly when no new units have come, every other finalizer has already
   removed its unit, and no training holds a lock on the pool.
   */
  lemma {:induction false} TryDeletesIff(p: Pool, u: nat)
    requires Inv(p) && p.present && u in p.removed && p.removed[u] == 0
    ensures !LookAtSize(p, u, true).present <==> p.size == 0 && p.counted == map[] && !p.locked
  {
    assert |p.counted.Keys| == |p.counted|;
    if p.counted == map[] {
      assert p.size == 0 <==> p.units == {};
    } else {
      var v :| v in p.counted;
      assert v in p.units;
    }
  }

  /** A finalizer that saw another size, or is not to delete the pool, leaves the pool alone. */
  lemma {:induction false} OnlyZeroTries(p: Pool, u: nat, deletePool: bool)
    requires u in p.removed
    ensures var q := Step(p, Look(u, deletePool));
            && q.removed == p.removed - {u}
            && (deletePool && p.removed[u] == 0 ==>
                  q == p.(removed := q.removed, tries := p.tries + 1, present := q.present))
            && (!deletePool || p.removed[u] != 0 ==> q == p.(removed := q.removed))
  {
  }

  /** Over all runs nothing but a finalizer that is to delete the pool ever tries to. */
  lemma {:induction false} OrdinaryCleanupKeepsPool(p: Pool, actions: seq<Action>)
    requires forall a <- actions :: a.Look? ==> !a.deletePool
    ensures Run(p, actions).present == p.present && Run(p, actions).tries == p.tries
  {
    if actions != [] {
      OrdinaryCleanupKeepsPool(p, actions[..|actions| - 1]);
    }
  }

  /** Over all runs a locked pool stays, whatever is tried, until it is unlocked. */
  lemma {:induction false} LockedPoolStays(p: Pool, actions: seq<Action>)
    requires p.present && UnlockPool !in actions
    ensures var q := Run(Step(p, LockPool), actions);
            q.present && q.locked && Step(q, UnlockPool) == q.(locked := false)
  {
    if actions != [] {
      LockedPoolStays(p, actions[..|actions| - 1]);
      assert actions[|actions| - 1] in actions;
    }
  }

  /**
   A pool of two units that both finalizers leave behind empty: the one that saw size zero tried
   while the other unit was still there, and no one tries again.
   */
  lemma {:induction false} EmptiedPoolCanStay(p: Pool)
    requires Inv(p) && p.present && p.units == {0, 1} && p.counted == map[] && p.removed == map[] && p.tries == 0
    ensures var lowered := Step(Step(p, Lower(0)), Lower(1));
            var tried := Step(Step(lowered, Remove(1)), Look(1, true));
            var q := Step(Step(tried, Remove(0)), Look(0, true));
            q.present && q.units == {} && q.size == 0 && q.counted == map[] && q.removed == map[] && q.tries == 1
  {
    var p2 := Step(Step(p, Lower(0)), Lower(1));
    BothLower(p);
    hide Inv;
    var p3 := Step(p2, Remove(1));
    var p4 := Step(p3, Look(1, true));
    var p5 := Step(p4, Remove(0));
    assert p3.units == {0} && p3.counted == map[0 := 1] && p3.removed == map[1 := 0];
    assert p4.present && p4.removed == map[] && p4.tries == 1;
    assert p5.units == {} && p5.counted == map[] && p5.removed == map[0 := 1];
    LookKeeps(p5, 0);
  }

  lemma BothLower(p: Pool)
    requires Inv(p) && p.present && p.units == {0, 1} && p.counted == map[]
    ensures var p2 := Step(Step(p, Lower(0)), Lower(1));
            p2.size == 0 && p2.counted == map[0 := 1, 1 := 0] && p2.units == p.units && p2.present
            && p2.removed == p.removed && p2.tries == p.tries
  {
    assert |p.units| == 2;
    var p1 := Step(p, Lower(0));
    assert p1.counted == map[0 := 1];
  }

  /** Such a pool comes about from a new one. */
  lemma {:induction false} TwoUnitsAreReached(maxSize: nat)
    requires maxSize >= 2
    ensures var p := Run(NewPool(maxSize), [CreateSandboxes(Some(2), true)]);
            Inv(p) && p.present && p.units == {0, 1} && p.counted == map[] && p.removed == map[] && p.tries == 0
  {
    var create := CreateSandboxes(Some(2), true);
    var p := NewPool(maxSize);
    assert [create][..0] == [] && Run(p, [create]) == Step(Run(p, []), create);
    RunInv(p, [create]);
    assert NewUnits(p, 2) == {0, 1};
  }

  lemma LookKeeps(p: Pool, u: nat)
    requires p.removed == map[u := 1]
    ensures Step(p, Look(u, true)) == p.(removed := map[])
  {
    assert p.removed - {u} == map[];
  }

  // ---- The stored pool ----

  class PoolStore {
    var size: int
    var maxSize: int
    var units: set<nat>
    var nextUnit: nat
    ghost var rest: Pool     // finalizers under way and history

    ghost function View(): Pool
      reads this
    {
      rest.(size := size, maxSize := maxSize, units := units, nextUnit := nextUnit, present := true)
    }

    constructor (maxSize: int)
      ensures View() == NewPool(maxSize)
    {
      size, this.maxSize, units, nextUnit, rest := 0, maxSize, {}, 0, NewPool(maxSize);
    }

    /** The loop of `create_allocations_requests`. */
    method CreateAllocations(count: int) returns (created: seq<nat>)
      modifies this`units, this`nextUnit
      ensures |created| == (if count > 0 then count else 0) && nextUnit == old(nextUnit) + |created|
      ensures forall i: nat | i < |created| :: created[i] == old(nextUnit) + i
      ensures units == old(units) + NewUnits(old(View()), count)
    {
      created := [];
      var i := 0;
      while i < count
        invariant 0 <= i && (i <= count || (i == 0 && count < 0))
        invariant |created| == i && nextUnit == old(nextUnit) + i
        invariant forall k: nat | k < i :: created[k] == old(nextUnit) + k
        invariant units == old(units) + Numbers(old(nextUnit), i)
      {
        units := units + {nextUnit};
        created := created + [nextUnit];
        nextUnit := nextUnit + 1;
        i := i + 1;
      }
    }

    /** `create_sandboxes_in_pool`; `None` means the request was rejected and rolled back. */
    method CreateSandboxesInPool(count: Option<int>, hardwareOk: bool) returns (created: Option<seq<nat>>)
      modifies this`size, this`units, this`nextUnit
      ensures View() == Create(old(View()), count, hardwareOk)
      ensures created.Some? <==> CreateAccepted(old(View()), count, hardwareOk)
      ensures created.Some? && EffectiveCount(old(View()), count) >= 0 ==>
                |created.value| == EffectiveCount(old(View()), count)
                && forall i: nat | i < |created.value| :: created.value[i] == old(nextUnit) + i
    {
      var n := if count.Some? then count.value else maxSize - size;
      if size + n > maxSize || !hardwareOk || size + n < 0 {
        return None;
      }
      var made := CreateAllocations(n);
      size := size + n;
      created := Some(made);
    }

    /** The first commit of `_delete_allocation_unit`; returns the size it saw. */
    method LowerPoolSize(ghost u: nat) returns (seen: int)
      modifies this`size, this`rest
      ensures View() == LowerSize(old(View()), u) && seen == size
    {
      size := size - 1;
      seen := size;
      rest := rest.(counted := rest.counted[u := seen], seen := rest.seen + [seen]);
    }
  }
}
