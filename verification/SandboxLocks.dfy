/** Handing out the sandboxes of one pool: who holds which sandbox, over all runs. */
module SandboxLocks {
  import opened Common
  import opened Text

  /** A lock names the user that took it; anonymous locks name none. */
  datatype Lock = Lock(user: Option<nat>)

  datatype Sandbox = Sandbox(id: string, ready: bool, lock: Option<Lock>)

  /** The sandboxes of the pool, in the order of their ids. */
  ghost predicate Sorted(pool: seq<Sandbox>) {
    forall i, j | 0 <= i < j < |pool| :: Less(pool[i].id, pool[j].id)
  }

  predicate Free(s: Sandbox) {
    s.ready && s.lock.None?
  }

  predicate HeldBy(s: Sandbox, user: Option<nat>) {
    user.Some? && s.ready && s.lock == Some(Lock(user))
  }

  datatype Answer = Refused | NoneFree | Given(index: nat)

  /** The first free sandbox from `i` on. */
  function FirstFree(pool: seq<Sandbox>, i: nat): (k: nat)
    requires i <= |pool|
    ensures i <= k <= |pool| && (k < |pool| ==> Free(pool[k])) && forall j | i <= j < k :: !Free(pool[j])
    decreases |pool| - i
  {
    if i == |pool| || Free(pool[i]) then i else FirstFree(pool, i + 1)
  }

  function GetUnlocked(pool: seq<Sandbox>, user: Option<nat>): (seq<Sandbox>, Answer) {
    if exists s <- pool :: HeldBy(s, user) then (pool, Refused)
    else
      var k := FirstFree(pool, 0);
      if k == |pool| then (pool, NoneFree) else (pool[k := pool[k].(lock := Some(Lock(user)))], Given(k))
  }

  class SandboxTable {
    var pool: seq<Sandbox>

    constructor ()
      ensures pool == []
    {
      pool := [];
    }

    method HasLockedSandbox(user: Option<nat>) returns (b: bool)
      ensures b <==> user.Some? && exists s <- pool :: s.ready && s.lock == Some(Lock(user))
      ensures b <==> exists s <- pool :: HeldBy(s, user)
    {
      if user.None? {
        return false;
      }
      b := false;
      for i := 0 to |pool|
        invariant b == exists s <- pool[..i] :: HeldBy(s, user)
      {
        assert pool[..i + 1] == pool[..i] + [pool[i]];
        assert b || HeldBy(pool[i], user) <==> exists s <- pool[..i + 1] :: HeldBy(s, user);
        b := b || (pool[i].ready && pool[i].lock == Some(Lock(user)));
      }
      assert pool[..|pool|] == pool;
    }

    /** `get_unlocked_sandbox`. */
    method GetUnlockedSandbox(user: Option<nat>) returns (a: Answer)
      modifies this
      ensures (pool, a) == GetUnlocked(old(pool), user)
    {
      var has := HasLockedSandbox(user);
      if has {
        return Refused;
      }
      var i := 0;
      while i < |pool| && !(pool[i].ready && pool[i].lock.None?)
        invariant 0 <= i <= |pool| && FirstFree(pool, 0) == FirstFree(pool, i)
      {
        i := i + 1;
      }
      if i == |pool| {
        return NoneFree;
      }
      pool := pool[i := pool[i].(lock := Some(Lock(user)))];
      a := Given(i);
    }
  }

  /**
   What a caller gets: a refusal, which changes nothing, exactly when it names a user that holds a ready
   sandbox; the free sandbox with the least id, which was locked by nobody and is now locked for the caller
   alone; nothing only when every ready sandbox is locked.
   */
  lemma {:induction false} GivenIsLeastFree(pool: seq<Sandbox>, user: Option<nat>)
    requires Sorted(pool)
    ensures var (pool', a) := GetUnlocked(pool, user);
            && (a.Refused? <==> user.Some? && exists s <- pool :: s.ready && s.lock == Some(Lock(user)))
            && (a.Refused? ==> pool' == pool)
            && (a.NoneFree? ==> pool' == pool && forall s <- pool :: s.ready ==> s.lock.Some?)
            && (a.Given? ==>
                  && a.index < |pool| && pool[a.index].ready && pool[a.index].lock.None?
                  && pool'[a.index] == pool[a.index].(lock := Some(Lock(user)))
                  && (forall s <- pool ::
                        s.ready && s.lock.None? ==> s == pool[a.index] || Less(pool[a.index].id, s.id))
                  && |pool'| == |pool| && forall i | 0 <= i < |pool| && i != a.index :: pool'[i] == pool[i])
  {
    var (pool', a) := GetUnlocked(pool, user);
    assert forall s <- pool :: HeldBy(s, user) <==> user.Some? && s.ready && s.lock == Some(Lock(user));
    if a.Given? {
      forall s <- pool | Free(s)
        ensures s == pool[a.index] || Less(pool[a.index].id, s.id)
      {
        var i :| 0 <= i < |pool| && pool[i] == s;
        assert i >= a.index;
      }
    }
  }

  // ---- Runs ----

  datatype Action =
    | Get(user: Option<nat>)
    | Unlock(index: nat)
    | MarkReady(index: nat)
    | Add(at: nat, id: string)
    | Delete(index: nat)                        // refused for a locked sandbox
    | LockDirectly(index: nat, user: Option<nat>)

  predicate FitsAt(pool: seq<Sandbox>, at: nat, id: string) {
    at <= |pool| && (at > 0 ==> Less(pool[at - 1].id, id)) && (at < |pool| ==> Less(id, pool[at].id))
  }

  function Step(pool: seq<Sandbox>, a: Action): seq<Sandbox> {
    match a
    case Get(user) => GetUnlocked(pool, user).0
    case Unlock(i) => if i < |pool| then pool[i := pool[i].(lock := None)] else pool
    case MarkReady(i) => if i < |pool| then pool[i := pool[i].(ready := true)] else pool
    case Add(at, id) => if FitsAt(pool, at, id) then pool[..at] + [Sandbox(id, false, None)] + pool[at..] else pool
    case Delete(i) => if i < |pool| && pool[i].lock.None? then pool[..i] + pool[i + 1..] else pool
    case LockDirectly(i, user) =>
      if i < |pool| && pool[i].lock.None? then pool[i := pool[i].(lock := Some(Lock(user)))] else pool
  }

  function Run(pool: seq<Sandbox>, actions: seq<Action>): seq<Sandbox> {
    if actions == [] then pool else Step(Run(pool, actions[..|actions| - 1]), actions[|actions| - 1])
  }

  /** No named user holds two ready sandboxes. */
  ghost predicate OneEach(pool: seq<Sandbox>) {
    forall i, j, user | 0 <= i < |pool| && 0 <= j < |pool| && HeldBy(pool[i], user) && HeldBy(pool[j], user) :: i == j
  }

  predicate NamedLock(s: Sandbox) {
    s.lock.Some? && s.lock.value.user.Some?
  }

  /** Named users hold ready sandboxes only, one each. */
  ghost predicate Safe(pool: seq<Sandbox>) {
    OneEach(pool) && forall i | 0 <= i < |pool| && NamedLock(pool[i]) :: pool[i].ready
  }

  ghost predicate Inv(pool: seq<Sandbox>) {
    Sorted(pool) && Safe(pool)
  }

  lemma AddKeeps(pool: seq<Sandbox>, at: nat, id: string)
    requires Inv(pool) && FitsAt(pool, at, id)
    ensures Inv(Step(pool, Add(at, id)))
  {
    var pool' := Step(pool, Add(at, id));
    forall i, j | 0 <= i < j < |pool'|
      ensures Less(pool'[i].id, pool'[j].id)
    {
      if i < at - 1 && j == at {
        LessIsTransitive(pool[i].id, pool[at - 1].id, id);
      } else if i == at && j > at + 1 {
        LessIsTransitive(id, pool[at].id, pool[j - 1].id);
      }
    }
    forall i, j, user | 0 <= i < |pool'| && 0 <= j < |pool'| && HeldBy(pool'[i], user) && HeldBy(pool'[j], user)
      ensures i == j
    {
      assert i != at && j != at;
      assert HeldBy(pool[if i < at then i else i - 1], user) && HeldBy(pool[if j < at then j else j - 1], user);
    }
  }

  lemma DeleteKeeps(pool: seq<Sandbox>, k: nat)
    requires Inv(pool) && k < |pool|
    ensures Inv(pool[..k] + pool[k + 1..])
  {
    var pool' := pool[..k] + pool[k + 1..];
    forall i, j, user | 0 <= i < |pool'| && 0 <= j < |pool'| && HeldBy(pool'[i], user) && HeldBy(pool'[j], user)
      ensures i == j
    {
      assert HeldBy(pool[if i < k then i else i + 1], user) && HeldBy(pool[if j < k then j else j + 1], user);
    }
  }

  /** A direct lock that can do no harm: anonymous, or of a ready sandbox by a user that holds none. */
  ghost predicate Harmless(pool: seq<Sandbox>, a: Action) {
    a.LockDirectly? && a.index < |pool| ==>
      a.user.None? || (pool[a.index].ready && !exists s <- pool :: HeldBy(s, a.user))
  }

  lemma GetKeeps(pool: seq<Sandbox>, user: Option<nat>)
    requires Inv(pool)
    ensures Inv(GetUnlocked(pool, user).0)
  {
    var pool' := GetUnlocked(pool, user).0;
    forall i, j, u | 0 <= i < |pool'| && 0 <= j < |pool'| && HeldBy(pool'[i], u) && HeldBy(pool'[j], u)
      ensures i == j
    {
      assert pool[i] in pool && pool[j] in pool;
    }
  }

  lemma LockKeeps(pool: seq<Sandbox>, k: nat, user: Option<nat>)
    requires Inv(pool) && k < |pool| && Harmless(pool, LockDirectly(k, user))
    ensures Inv(Step(pool, LockDirectly(k, user)))
  {
    var pool' := Step(pool, LockDirectly(k, user));
    forall i, j, u | 0 <= i < |pool'| && 0 <= j < |pool'| && HeldBy(pool'[i], u) && HeldBy(pool'[j], u)
      ensures i == j
    {
      assert pool[i] in pool && pool[j] in pool;
    }
  }

  lemma StepInv(pool: seq<Sandbox>, a: Action)
    requires Inv(pool) && Harmless(pool, a)
    ensures Inv(Step(pool, a))
  {
    match a
    case Get(user) => GetKeeps(pool, user);
    case Unlock(i) =>
    case MarkReady(i) =>
      if i < |pool| {
        assert !pool[i].ready ==> !NamedLock(pool[i]);
      }
    case Add(at, id) =>
      if FitsAt(pool, at, id) {
        AddKeeps(pool, at, id);
      }
    case Delete(i) =>
      if i < |pool| {
        DeleteKeeps(pool, i);
      }
    case LockDirectly(i, user) =>
      if i < |pool| {
        LockKeeps(pool, i, user);
      }
  }

  /** Every direct lock of the run is harmless when its turn comes. */
  ghost predicate Careful(pool: seq<Sandbox>, actions: seq<Action>) {
    actions == [] ||
    (var n := |actions| - 1;
     Careful(pool, actions[..n]) && Harmless(Run(pool, actions[..n]), actions[n]))
  }

  lemma {:induction false} RunInv(pool: seq<Sandbox>, actions: seq<Action>)
    requires Inv(pool) && Careful(pool, actions)
    ensures Inv(Run(pool, actions))
  {
    if actions != [] {
      var n := |actions| - 1;
      RunInv(pool, actions[..n]);
      StepInv(Run(pool, actions[..n]), actions[n]);
    }
  }

  /** Over all runs of gets, unlocks and harmless direct locks a named user holds at most one ready sandbox. */
  lemma {:induction false} EachUserHoldsAtMostOne(actions: seq<Action>)
    requires Careful([], actions)
    ensures Inv(Run([], actions)) && OneEach(Run([], actions))
  {
    RunInv([], actions);
  }

  // ---- What locks and unlocks do ----

  /** A sandbox with that id and that lock is in the pool. */
  predicate LockedAs(pool: seq<Sandbox>, id: string, lock: Lock) {
    exists s <- pool :: s.id == id && s.lock == Some(lock)
  }

  lemma LockIsAt(pool: seq<Sandbox>, i: nat, id: string, lock: Lock)
    requires i < |pool| && pool[i].id == id && pool[i].lock == Some(lock)
    ensures LockedAs(pool, id, lock)
  {
    assert pool[i] in pool;
  }

  lemma LockOutlivesStep(pool: seq<Sandbox>, a: Action, id: string, lock: Lock)
    requires LockedAs(pool, id, lock) && !a.Unlock?
    ensures LockedAs(Step(pool, a), id, lock)
  {
    hide LockedAs, Step, FitsAt;
    var i := LockOf(pool, id, lock);
    var k := LockStays(pool, a, i);
    LockIsAt(Step(pool, a), k, id, lock);
  }

  lemma GetSparesLocked(pool: seq<Sandbox>, user: Option<nat>, i: nat)
    requires i < |pool| && pool[i].lock.Some?
    ensures var pool' := GetUnlocked(pool, user).0; |pool'| == |pool| && pool'[i] == pool[i]
  {
  }

  /** Where a locked sandbox is after a step. */
  lemma LockStays(pool: seq<Sandbox>, a: Action, i: nat) returns (k: nat)
    requires i < |pool| && pool[i].lock.Some? && !a.Unlock?
    ensures var pool' := Step(pool, a); k < |pool'| && pool'[k].id == pool[i].id && pool'[k].lock == pool[i].lock
  {
    hide GetUnlocked, Less;
    if a.Get? {
      GetSparesLocked(pool, a.user, i);
    }
    if a.Add? && FitsAt(pool, a.at, a.id) {
      k := if i < a.at then i else i + 1;
    } else if a.Delete? && a.index < |pool| && pool[a.index].lock.None? {
      k := if i < a.index then i else i - 1;
    } else {
      k := i;
    }
  }

  lemma LockOf(pool: seq<Sandbox>, id: string, lock: Lock) returns (i: nat)
    requires LockedAs(pool, id, lock)
    ensures i < |pool| && pool[i].id == id && pool[i].lock == Some(lock)
  {
    i :| i < |pool| && pool[i].id == id && pool[i].lock == Some(lock);
  }

  /** Over all runs a lock lasts until it is taken off: nobody else is given the sandbox, and it is not deleted. */
  lemma {:induction false} LocksLast(pool: seq<Sandbox>, actions: seq<Action>, id: string, lock: Lock)
    requires LockedAs(pool, id, lock) && forall a <- actions :: !a.Unlock?
    ensures LockedAs(Run(pool, actions), id, lock)
  {
    if actions != [] {
      LocksLast(pool, actions[..|actions| - 1], id, lock);
      LockOutlivesStep(Run(pool, actions[..|actions| - 1]), actions[|actions| - 1], id, lock);
    }
  }

  /** A ready sandbox that was unlocked is free: a caller who is not refused is given it, or one before it. */
  lemma {:induction false} UnlockedIsGivenAgain(pool: seq<Sandbox>, i: nat, user: Option<nat>)
    requires i < |pool| && pool[i].ready
    ensures var pool' := Step(pool, Unlock(i));
            && |pool'| == |pool| && (forall k | 0 <= k < |pool| && k != i :: pool'[k] == pool[k])
            && var a := GetUnlocked(pool', user).1; a.Refused? || (a.Given? && a.index <= i)
  {
    assert Free(Step(pool, Unlock(i))[i]);
  }

  // ---- Exactly which locks do harm ----

  predicate NoDirectLocks(actions: seq<Action>) {
    forall a <- actions :: !a.LockDirectly?
  }

  /** Whatever comes, other than further direct locks, no named user will hold two ready sandboxes. */
  ghost predicate StaysLawful(pool: seq<Sandbox>) {
    forall actions | NoDirectLocks(actions) :: OneEach(Run(pool, actions))
  }

  lemma {:induction false} NoDirectLocksAreCareful(pool: seq<Sandbox>, actions: seq<Action>)
    requires NoDirectLocks(actions)
    ensures Careful(pool, actions)
  {
    if actions != [] {
      NoDirectLocksAreCareful(pool, actions[..|actions| - 1]);
    }
  }

  lemma {:induction false} LongerIsLater(a: string)
    ensures Less(a, a + "a")
  {
    if a != [] {
      LongerIsLater(a[1..]);
      assert (a + "a")[1..] == a[1..] + "a";
    }
  }

  /** A named lock on a sandbox that is not ready: another one is added and given out, then the first gets ready. */
  function Undoing(pool: seq<Sandbox>, i: nat): seq<Action>
    requires i < |pool| && NamedLock(pool[i])
  {
    [Add(|pool|, pool[|pool| - 1].id + "a"), MarkReady(|pool|), Get(pool[i].lock.value.user), MarkReady(i)]
  }

  lemma FourSteps(pool: seq<Sandbox>, a: Action, b: Action, c: Action, d: Action)
    ensures Run(pool, [a, b, c, d]) == Step(Step(Step(Step(pool, a), b), c), d)
  {
    OneMoreStep(pool, [], a);
    OneMoreStep(pool, [a], b);
    OneMoreStep(pool, [a, b], c);
    OneMoreStep(pool, [a, b, c], d);
    assert [] + [a] == [a] && [a] + [b] == [a, b] && [a, b] + [c] == [a, b, c] && [a, b, c] + [d] == [a, b, c, d];
  }

  lemma OneMoreStep(pool: seq<Sandbox>, actions: seq<Action>, a: Action)
    ensures Run(pool, actions + [a]) == Step(Run(pool, actions), a)
  {
    assert (actions + [a])[..|actions|] == actions;
  }

  lemma UndoingWorks(pool: seq<Sandbox>, i: nat)
    requires i < |pool| && NamedLock(pool[i]) && !pool[i].ready
    ensures !OneEach(Run(pool, Undoing(pool, i)))
  {
    hide Run, Step, OneEach;
    var n, user := |pool|, pool[i].lock.value.user;
    var id := pool[n - 1].id + "a";
    FourSteps(pool, Add(n, id), MarkReady(n), Get(user), MarkReady(i));
    AddAndReady(pool);
    ReadyAfterGet(pool + [Sandbox(id, true, None)], user, i, n);
  }

  lemma AddAndReady(pool: seq<Sandbox>)
    requires pool != []
    ensures var n := |pool|; var id := pool[n - 1].id + "a";
            Step(Step(pool, Add(n, id)), MarkReady(n)) == pool + [Sandbox(id, true, None)]
  {
    var n := |pool|;
    var id := pool[n - 1].id + "a";
    LongerIsLater(pool[n - 1].id);
    assert pool[n..] == [] && pool[..n] == pool;
    assert Step(pool, Add(n, id)) == pool + [Sandbox(id, false, None)];
  }

  lemma ReadyAfterGet(pool: seq<Sandbox>, user: Option<nat>, i: nat, free: nat)
    requires i < |pool| && pool[i].lock == Some(Lock(user)) && user.Some? && !pool[i].ready
    requires free < |pool| && Free(pool[free])
    ensures !OneEach(Step(Step(pool, Get(user)), MarkReady(i)))
  {
    var p1 := Step(pool, Get(user));
    var k := HolderAfterGet(pool, user, i, free);
    hide GetUnlocked;
    var p2 := Step(p1, MarkReady(i));
    assert HeldBy(p2[i], user) && HeldBy(p2[k], user) && k != i;
  }

  lemma HolderAfterGet(pool: seq<Sandbox>, user: Option<nat>, i: nat, free: nat) returns (k: nat)
    requires i < |pool| && pool[i].lock == Some(Lock(user)) && user.Some? && !pool[i].ready
    requires free < |pool| && Free(pool[free])
    ensures var pool' := Step(pool, Get(user));
            |pool'| == |pool| && pool'[i] == pool[i] && k < |pool| && k != i && HeldBy(pool'[k], user)
  {
    if exists s <- pool :: HeldBy(s, user) {
      var s :| s in pool && HeldBy(s, user);
      k :| k < |pool| && pool[k] == s;
    } else {
      k := FirstFree(pool, 0);
    }
  }

  /** The law holds for good exactly in the safe states. */
  lemma {:induction false} LawfulIffSafe(pool: seq<Sandbox>)
    requires Sorted(pool)
    ensures StaysLawful(pool) <==> Safe(pool)
  {
    if Safe(pool) {
      forall actions | NoDirectLocks(actions)
        ensures OneEach(Run(pool, actions))
      {
        NoDirectLocksAreCareful(pool, actions);
        RunInv(pool, actions);
      }
    } else if !OneEach(pool) {
      assert NoDirectLocks([]) && Run(pool, []) == pool;
    } else {
      var i: nat :| i < |pool| && NamedLock(pool[i]) && !pool[i].ready;
      UndoingWorks(pool, i);
      assert NoDirectLocks(Undoing(pool, i));
    }
  }

  /**
   Locking a given sandbox directly keeps the law for good exactly when the lock is anonymous, or the
   sandbox is ready and its user holds none.  Holding none is not enough: the user of a sandbox that is
   not ready yet is given another one.
   */
  lemma {:induction false} LockDirectlyKeepsIff(pool: seq<Sandbox>, i: nat, user: Option<nat>)
    requires Inv(pool) && i < |pool| && pool[i].lock.None?
    ensures StaysLawful(Step(pool, LockDirectly(i, user))) <==> Harmless(pool, LockDirectly(i, user))
  {
    var pool' := Step(pool, LockDirectly(i, user));
    LawfulIffSafe(pool');
    if Harmless(pool, LockDirectly(i, user)) {
      LockKeeps(pool, i, user);
    } else if pool[i].ready {
      var s :| s in pool && HeldBy(s, user);
      var k: nat :| k < |pool| && pool[k] == s;
      assert HeldBy(pool'[i], user) && HeldBy(pool'[k], user) && k != i;
    } else {
      assert NamedLock(pool'[i]) && !pool'[i].ready;
    }
  }
}
