/**
 The documented overrun of a teardown, at most the one call in flight: exactly for which rows and shared
 objects it is true of every run.
 */
module NetbirdOverrun {
  import opened Common
  import opened NetbirdWorld
  import opened NetbirdTeardown
  import opened NetbirdDeadline
  import opened NetbirdCrashes

  ghost predicate EndBy(w: World, w': World, moment: real) {
    forall k | |w.trace| <= k < |w'.trace| :: w'.trace[k].until <= moment
  }

  /** The calls of a teardown that loads these rows end within one timeout of the deadline. */
  ghost predicate WithinOneCall(script: Script, w: World, budget: int, rows: seq<Resources>, access: Option<Access>,
                                limit: real) {
    Timely(script, limit) && Loaded(script, w).1 == access && Loaded(script, w).2 == rows ==>
      EndBy(w, Destroy(script, w, budget), DeadlineOf(script, w, budget) + limit)
  }

  ghost predicate OverrunsByOneCall(rows: seq<Resources>, access: Option<Access>, limit: real) {
    forall script: Script, w: World, budget: int :: WithinOneCall(script, w, budget, rows, access, limit)
  }

  lemma WithinWithoutBoth(script: Script, w: World, budget: int, rows: seq<Resources>, access: Option<Access>,
                          limit: real)
    requires !SomeBoth(rows) && !AccessBoth(access)
    ensures WithinOneCall(script, w, budget, rows, access, limit)
  {
    hide Loaded, Destroy, SomeBoth, AccessBoth;
    if Timely(script, limit) && Loaded(script, w).1 == access && Loaded(script, w).2 == rows {
      TeardownIsBounded(script, w, budget, limit);
    }
  }

  // ---- A script whose listing comes late ----

  /** Quick successes, but for the crashes that skip the first `skipped` rows and two slow calls from `slow` on. */
  function SlowAt(skipped: nat, slow: nat, limit: Span): Script {
    t => Tick(if 3 <= t < 3 + skipped then Crashes else Succeeds, if slow <= t <= slow + 1 then limit else 0.0, 0.0,
              false, "", [])
  }

  ghost predicate QuickFor(script: Script, a: nat, n: nat) {
    forall t: nat | a <= t < a + n :: script(t).verdict.Succeeds? && script(t).duration == 0.0
  }

  ghost predicate SlowTwice(script: Script, t: nat, limit: real) {
    && script(t).verdict.Succeeds?
    && script(t).duration == limit && script(t + 1).duration == limit
  }

  lemma QuickAttempt(script: Script, w: World, target: seq<Obj>)
    requires |target| <= 1 && QuickFor(script, w.tick, |target|)
    ensures var (w', raised) := Attempt(script, w, target);
            !raised && w'.tick == w.tick + |target| && w'.clock == w.clock
  {
  }

  lemma {:induction false} QuickRoutes(script: Script, w: World, ids: seq<string>, deadline: real)
    requires QuickFor(script, w.tick, |ids|) && w.clock <= deadline
    ensures var (w', flow) := DeleteRoutes(script, w, ids, Some(deadline));
            flow.GoesOn? && w'.tick == w.tick + |ids| && w'.clock == w.clock
    decreases |ids|
  {
    if ids != [] {
      QuickRoutes(script, DeleteObject(script, w, Obj(Route, ids[0])).0, ids[1..], deadline);
    }
  }

  /** A key deleted in time but slowly, and a slow listing behind it. */
  lemma LateListing(script: Script, w: World, key: Option<string>, group: Option<string>, limit: real)
    requires Both(key, group) && SlowTwice(script, w.tick, limit) && 0.0 < limit
    ensures !EndBy(w, DestroyGroup(script, w, key, group, Some(w.clock)).0, w.clock + limit)
  {
    var w1 := DeleteObject(script, w, Obj(SetupKey, key.value)).0;
    LatePeers(script, w1, group, w.clock);
    var w2 := Called(script, w1, ListPeers(group.value));
    assert w2.trace[|w.trace| + 1].until == w.clock + limit + limit;
  }

  lemma LateStays(w: World, w1: World, w2: World, w3: World, moment: real)
    requires w.trace <= w1.trace && w2.trace <= w3.trace && !EndBy(w1, w2, moment)
    ensures !EndBy(w, w3, moment)
  {
  }

  lemma LateRow(script: Script, w: World, row: Resources, limit: real)
    requires Both(row.key, row.group) && 0.0 < limit
    requires var n := |Named(Policy, row.policy)| + |ListOf(row.routeIds)|;
             QuickFor(script, w.tick, n) && SlowTwice(script, w.tick + n, limit)
    ensures !EndBy(w, DestroyEntrypoint(script, w, row, Some(w.clock)).0, w.clock + limit)
  {
    hide DestroyGroup, DeleteRoutes, Attempt, ListOf, EndBy, SlowTwice;
    var w1 := Attempt(script, w, Named(Policy, row.policy)).0;
    var w2 := DeleteRoutes(script, w1, ListOf(row.routeIds), Some(w.clock)).0;
    QuickAttempt(script, w, Named(Policy, row.policy));
    QuickRoutes(script, w1, ListOf(row.routeIds), w.clock);
    LateListing(script, w2, row.key, row.group, limit);
    LateStays(w, w2, DestroyGroup(script, w2, row.key, row.group, Some(w.clock)).0,
              DestroyEntrypoint(script, w, row, Some(w.clock)).0, w.clock + limit);
  }

  lemma LateAccess(script: Script, w: World, access: Access, limit: real)
    requires Both(access.key, access.group) && 0.0 < limit
    requires var n := |Named(Nameservers, access.nameservers)|;
             QuickFor(script, w.tick, n) && SlowTwice(script, w.tick + n, limit)
    ensures !EndBy(w, DestroyAccess(script, w, access, Some(w.clock)).0, w.clock + limit)
  {
    hide DestroyGroup, Attempt, EndBy, SlowTwice;
    var w1 := Attempt(script, w, Named(Nameservers, access.nameservers)).0;
    QuickAttempt(script, w, Named(Nameservers, access.nameservers));
    LateListing(script, w1, access.key, access.group, limit);
    LateStays(w, w1, DestroyGroup(script, w1, access.key, access.group, Some(w.clock)).0,
              DestroyAccess(script, w, access, Some(w.clock)).0, w.clock + limit);
  }

  /** The rows before it are skipped by crashes, so that row `i` is begun at the deadline. */
  lemma LateRows(script: Script, w: World, rows: seq<Resources>, i: nat, limit: real)
    requires i < |rows| && Both(rows[i].key, rows[i].group) && 0.0 < limit
    requires var n := |Named(Policy, rows[i].policy)| + |ListOf(rows[i].routeIds)|;
             && CrashesFor(script, w.tick, i) && QuickFor(script, w.tick + i, n)
             && SlowTwice(script, w.tick + i + n, limit)
    ensures !EndBy(w, DestroyRows(script, w, rows, Some(w.clock)), w.clock + limit)
  {
    hide DestroyRows, DestroyEntrypoint, EndBy, FlatMap, ListOf, QuickFor, SlowTwice, CrashesFor;
    var w1 := DestroyRows(script, w, rows[..i], Some(w.clock));
    CrashedRows(script, w, rows[..i], Some(w.clock));
    LateRow(script, w1, rows[i], limit);
    RowsGoOnFrom(script, w, rows, i, w.clock);
    LateStays(w, w1, DestroyEntrypoint(script, w1, rows[i], Some(w.clock)).0,
              DestroyRows(script, w, rows, Some(w.clock)), w.clock + limit);
  }

  lemma RowOverruns(rows: seq<Resources>, access: Option<Access>, i: nat, limit: real)
    requires i < |rows| && Both(rows[i].key, rows[i].group) && 0.0 < limit
    ensures !OverrunsByOneCall(rows, access, limit)
  {
    hide DestroyRows, DestroyAccess, Loaded, EndBy, ListOf;
    var n := |Named(Policy, rows[i].policy)| + |ListOf(rows[i].routeIds)|;
    var script, w := SlowAt(i, 3 + i + n, limit), Stored(rows, access);
    var w1 := w.(tick := 3);
    StoredIsLoaded(script, rows, access);
    LateRows(script, w1, rows, i, limit);
    LateStays(w, w1, DestroyRows(script, w1, rows, Some(0.0)), Destroy(script, w, 0), limit);
    assert !WithinOneCall(script, w, 0, rows, access, limit);
  }

  lemma AccessOverruns(rows: seq<Resources>, access: Access, limit: real)
    requires Both(access.key, access.group) && 0.0 < limit
    ensures !OverrunsByOneCall(rows, Some(access), limit)
  {
    hide DestroyRows, DestroyAccess, Loaded, EndBy, FlatMap;
    var n := 3 + |rows| + |Named(Nameservers, access.nameservers)|;
    var script, w := SlowAt(|rows|, n, limit), Stored(rows, Some(access));
    var w1 := w.(tick := 3);
    StoredIsLoaded(script, rows, Some(access));
    CrashedRows(script, w1, rows, Some(0.0));
    var w2 := DestroyRows(script, w1, rows, Some(0.0));
    LateAccess(script, w2, access, limit);
    LateStays(w, w2, DestroyAccess(script, w2, access, Some(0.0)).0, Destroy(script, w, 0), limit);
    assert !WithinOneCall(script, w, 0, rows, Some(access), limit);
  }

  /**
   The documented bound is true of every teardown of these rows exactly when neither one of them nor the
   shared record has both a setup key and a group.
   */
  lemma {:induction false} DocumentedBoundIff(rows: seq<Resources>, access: Option<Access>, limit: real)
    requires 0.0 < limit
    ensures OverrunsByOneCall(rows, access, limit) <==> !SomeBoth(rows) && !AccessBoth(access)
  {
    if SomeBoth(rows) {
      var i: nat :| i < |rows| && Both(rows[i].key, rows[i].group);
      RowOverruns(rows, access, i, limit);
    } else if AccessBoth(access) {
      AccessOverruns(rows, access.value, limit);
    } else {
      forall script: Script, w: World, budget: int
        ensures WithinOneCall(script, w, budget, rows, access, limit)
      {
        WithinWithoutBoth(script, w, budget, rows, access, limit);
      }
    }
  }
}
