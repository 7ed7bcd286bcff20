/**
 How long a teardown with a time budget can take: one call may start after the deadline, the listing
 of peers right behind the deletion of a setup key.
 */
module NetbirdDeadline {
  import opened Common
  import opened NetbirdWorld
  import opened NetbirdTeardown

  /** The calls between `w` and `w'` started by the deadline, and ended within one timeout of it. */
  ghost predicate OnTime(w: World, w': World, deadline: real, limit: real) {
    && w.trace <= w'.trace
    && w.clock <= w'.clock
    && (forall k | |w.trace| <= k < |w'.trace| :: w'.trace[k].at <= deadline && w'.trace[k].until <= deadline + limit)
  }

  /** One late call at most, the last one: a listing of peers behind the deletion of a setup key. */
  ghost predicate Overran(w: World, w': World, deadline: real, limit: real) {
    var n := |w'.trace|;
    && w.trace <= w'.trace
    && |w.trace| + 2 <= n
    && w.clock <= w'.clock
    && (forall k | |w.trace| <= k < n - 1 :: w'.trace[k].at <= deadline && w'.trace[k].until <= deadline + limit)
    && deadline < w'.trace[n - 1].at <= deadline + limit && w'.trace[n - 1].until <= deadline + limit + limit
    && w'.trace[n - 1].call.ListPeers?
    && w'.trace[n - 2].call.Delete? && w'.trace[n - 2].call.obj.kind.SetupKey?
    && deadline < w'.clock
  }

  ghost predicate Bounded(w: World, w': World, deadline: real, limit: real) {
    OnTime(w, w', deadline, limit) || Overran(w, w', deadline, limit)
  }

  lemma BoundedJoins(w: World, w1: World, w2: World, deadline: real, limit: real)
    requires OnTime(w, w1, deadline, limit) && Bounded(w1, w2, deadline, limit)
    ensures Bounded(w, w2, deadline, limit)
  {
    assert forall k | |w.trace| <= k < |w1.trace| :: w2.trace[k] == w1.trace[k];
  }

  lemma OnTimeJoins(w: World, w1: World, w2: World, deadline: real, limit: real)
    requires OnTime(w, w1, deadline, limit) && OnTime(w1, w2, deadline, limit)
    ensures OnTime(w, w2, deadline, limit)
  {
    assert forall k | |w.trace| <= k < |w1.trace| :: w2.trace[k] == w1.trace[k];
  }

  lemma CallOnTime(script: Script, w: World, call: Call, deadline: real, limit: real)
    requires Timely(script, limit) && w.clock <= deadline
    ensures OnTime(w, Called(script, w, call), deadline, limit)
  {
  }

  lemma AttemptOnTime(script: Script, w: World, target: seq<Obj>, deadline: real, limit: real)
    requires Timely(script, limit) && w.clock <= deadline && |target| <= 1
    ensures OnTime(w, Attempt(script, w, target).0, deadline, limit)
  {
    if target != [] {
      CallOnTime(script, w, Delete(target[0]), deadline, limit);
    }
  }

  lemma {:induction false} EachPeerOnTime(script: Script, w: World, peers: seq<string>, deadline: real, limit: real)
    requires Timely(script, limit)
    ensures OnTime(w, DeleteEachPeer(script, w, peers, Some(deadline)).0, deadline, limit)
    decreases |peers|
  {
    if peers != [] && !Expired(w, Some(deadline)) {
      var (w1, verdict) := DeleteOnePeer(script, w, peers[0]);
      CallOnTime(script, w, DeletePeer(peers[0]), deadline, limit);
      if !verdict.Crashes? {
        EachPeerOnTime(script, w1, peers[1..], deadline, limit);
        OnTimeJoins(w, w1, DeleteEachPeer(script, w1, peers[1..], Some(deadline)).0, deadline, limit);
      }
    }
  }

  lemma PeersOnTime(script: Script, w: World, group: Option<string>, deadline: real, limit: real)
    requires Timely(script, limit) && w.clock <= deadline
    ensures OnTime(w, DeleteGroupPeers(script, w, group, Some(deadline)).0, deadline, limit)
  {
    if Truthy(group) {
      var (w1, verdict, peers) := ListGroupPeers(script, w, group.value);
      CallOnTime(script, w, ListPeers(group.value), deadline, limit);
      if verdict.Succeeds? {
        EachPeerOnTime(script, w1, peers, deadline, limit);
        OnTimeJoins(w, w1, DeleteEachPeer(script, w1, peers, Some(deadline)).0, deadline, limit);
      }
    }
  }

  /** Past the deadline the listing is the only call: the peers are left alone. */
  lemma LatePeers(script: Script, w: World, group: Option<string>, deadline: real)
    requires w.clock > deadline
    ensures DeleteGroupPeers(script, w, group, Some(deadline)).0
            == if Truthy(group) then Called(script, w, ListPeers(group.value)) else w
  {
  }

  lemma {:induction false} RoutesOnTime(script: Script, w: World, ids: seq<string>, deadline: real, limit: real)
    requires Timely(script, limit)
    ensures OnTime(w, DeleteRoutes(script, w, ids, Some(deadline)).0, deadline, limit)
    decreases |ids|
  {
    if ids != [] && !Expired(w, Some(deadline)) {
      var (w1, verdict) := DeleteObject(script, w, Obj(Route, ids[0]));
      CallOnTime(script, w, Delete(Obj(Route, ids[0])), deadline, limit);
      if !verdict.Crashes? {
        RoutesOnTime(script, w1, ids[1..], deadline, limit);
        OnTimeJoins(w, w1, DeleteRoutes(script, w1, ids[1..], Some(deadline)).0, deadline, limit);
      }
    }
  }

  /** The peers and the group itself, begun in time. */
  lemma GroupTailOnTime(script: Script, w: World, group: Option<string>, deadline: real, limit: real)
    requires Timely(script, limit) && w.clock <= deadline
    ensures var (w1, raised) := DeleteGroupPeers(script, w, group, Some(deadline));
            && OnTime(w, w1, deadline, limit)
            && (!Expired(w1, Some(deadline)) ==>
                  OnTime(w, Attempt(script, w1, Named(Group, group)).0, deadline, limit))
  {
    var (w1, raised) := DeleteGroupPeers(script, w, group, Some(deadline));
    PeersOnTime(script, w, group, deadline, limit);
    if !Expired(w1, Some(deadline)) {
      AttemptOnTime(script, w1, Named(Group, group), deadline, limit);
      OnTimeJoins(w, w1, Attempt(script, w1, Named(Group, group)).0, deadline, limit);
    }
  }

  /** The call to delete the key, when it is the one that ends late. */
  lemma LateKey(script: Script, w: World, key: Option<string>, deadline: real, limit: real)
    requires Timely(script, limit) && w.clock <= deadline
    requires Attempt(script, w, Named(SetupKey, key)).0.clock > deadline
    ensures Truthy(key)
    ensures var w1 := Attempt(script, w, Named(SetupKey, key)).0;
            && w1.clock <= deadline + limit
            && w1.trace == w.trace + [Event(Delete(Obj(SetupKey, key.value)), w.clock, w1.clock, [])]
  {
  }

  /** A setup key whose deletion ends late: the listing behind it is the last call. */
  lemma GroupOverruns(script: Script, w: World, key: Option<string>, group: Option<string>, deadline: real, limit: real)
    requires Timely(script, limit) && w.clock <= deadline
    requires Attempt(script, w, Named(SetupKey, key)).0.clock > deadline
    ensures Truthy(key)
    ensures var w' := DestroyGroup(script, w, key, group, Some(deadline)).0;
            if Truthy(group) && !Attempt(script, w, Named(SetupKey, key)).1 then Overran(w, w', deadline, limit)
            else OnTime(w, w', deadline, limit)
  {
    hide DeleteGroupPeers, DeleteObject;
    LateKey(script, w, key, deadline, limit);
    LatePeers(script, Attempt(script, w, Named(SetupKey, key)).0, group, deadline);
  }

  /** What can overrun: a setup key with a group. */
  predicate Both(key: Option<string>, group: Option<string>) {
    Truthy(key) && Truthy(group)
  }

  ghost predicate BoundedIf(both: bool, w: World, w': World, deadline: real, limit: real) {
    if both then Bounded(w, w', deadline, limit) else OnTime(w, w', deadline, limit)
  }

  lemma GroupBounded(script: Script, w: World, key: Option<string>, group: Option<string>, deadline: real, limit: real)
    requires Timely(script, limit)
    ensures BoundedIf(Both(key, group), w, DestroyGroup(script, w, key, group, Some(deadline)).0, deadline, limit)
  {
    if !Expired(w, Some(deadline)) {
      var (w1, raised1) := Attempt(script, w, Named(SetupKey, key));
      AttemptOnTime(script, w, Named(SetupKey, key), deadline, limit);
      if w1.clock > deadline {
        GroupOverruns(script, w, key, group, deadline, limit);
      } else if !raised1 {
        GroupTailOnTime(script, w1, group, deadline, limit);
        OnTimeJoins(w, w1, DestroyGroup(script, w, key, group, Some(deadline)).0, deadline, limit);
      }
    }
  }

  lemma ThenBounded(both: bool, w: World, w1: World, w2: World, deadline: real, limit: real)
    requires OnTime(w, w1, deadline, limit) && BoundedIf(both, w1, w2, deadline, limit)
    ensures BoundedIf(both, w, w2, deadline, limit)
  {
    if both {
      BoundedJoins(w, w1, w2, deadline, limit);
    } else {
      OnTimeJoins(w, w1, w2, deadline, limit);
    }
  }

  lemma RestBounded(script: Script, w: World, row: Resources, deadline: real, limit: real)
    requires Timely(script, limit)
    ensures BoundedIf(Both(row.key, row.group), w, DestroyRest(script, w, row, Some(deadline)).0, deadline, limit)
  {
    var (w1, flow) := DeleteRoutes(script, w, ListOf(row.routeIds), Some(deadline));
    RoutesOnTime(script, w, ListOf(row.routeIds), deadline, limit);
    if flow.GoesOn? {
      GroupBounded(script, w1, row.key, row.group, deadline, limit);
      var w2 := DestroyGroup(script, w1, row.key, row.group, Some(deadline)).0;
      ThenBounded(Both(row.key, row.group), w, w1, w2, deadline, limit);
    }
  }

  lemma ObjectsBounded(script: Script, w: World, row: Resources, deadline: real, limit: real)
    requires Timely(script, limit)
    ensures BoundedIf(Both(row.key, row.group), w, DestroyObjects(script, w, row, Some(deadline)).0, deadline, limit)
  {
    if !Expired(w, Some(deadline)) {
      var (w1, raised) := Attempt(script, w, Named(Policy, row.policy));
      AttemptOnTime(script, w, Named(Policy, row.policy), deadline, limit);
      if !raised {
        RestBounded(script, w1, row, deadline, limit);
        ThenBounded(Both(row.key, row.group), w, w1, DestroyRest(script, w1, row, Some(deadline)).0, deadline, limit);
      }
    }
  }

  /** A query at the end makes no call. */
  lemma QueryKeepsBound(both: bool, script: Script, w: World, w1: World, w2: World, deadline: real, limit: real)
    requires BoundedIf(both, w, w1, deadline, limit) && w2.trace == w1.trace && w1.clock <= w2.clock
    ensures BoundedIf(both, w, w2, deadline, limit)
  {
  }

  /** One entrypoint: only with both a setup key and a group can a call start late. */
  lemma {:induction false} EntrypointBounded(script: Script, w: World, row: Resources, deadline: real, limit: real)
    requires Timely(script, limit)
    ensures BoundedIf(Both(row.key, row.group), w, DestroyEntrypoint(script, w, row, Some(deadline)).0, deadline, limit)
  {
    hide DestroyObjects, BoundedIf;
    ObjectsBounded(script, w, row, deadline, limit);
    var (w1, flow) := DestroyObjects(script, w, row, Some(deadline));
    if flow.GoesOn? {
      QueryKeepsBound(Both(row.key, row.group), script, w, w1, DeleteRow(script, w1, row.host), deadline, limit);
    }
  }

  lemma AccessObjectsBounded(script: Script, w: World, access: Access, deadline: real, limit: real)
    requires Timely(script, limit)
    ensures BoundedIf(Both(access.key, access.group), w, DestroyAccessObjects(script, w, access, Some(deadline)).0,
                      deadline, limit)
  {
    if !Expired(w, Some(deadline)) {
      var (w1, raised) := Attempt(script, w, Named(Nameservers, access.nameservers));
      AttemptOnTime(script, w, Named(Nameservers, access.nameservers), deadline, limit);
      if !raised {
        GroupBounded(script, w1, access.key, access.group, deadline, limit);
        ThenBounded(Both(access.key, access.group), w, w1,
                    DestroyGroup(script, w1, access.key, access.group, Some(deadline)).0, deadline, limit);
      }
    }
  }

  lemma AccessBounded(script: Script, w: World, access: Access, deadline: real, limit: real)
    requires Timely(script, limit)
    ensures BoundedIf(Both(access.key, access.group), w, DestroyAccess(script, w, access, Some(deadline)).0, deadline,
                      limit)
  {
    hide DestroyAccessObjects, BoundedIf;
    AccessObjectsBounded(script, w, access, deadline, limit);
    var (w1, flow) := DestroyAccessObjects(script, w, access, Some(deadline));
    if flow.GoesOn? {
      QueryKeepsBound(Both(access.key, access.group), script, w, w1, DeleteAccess(script, w1), deadline, limit);
    }
  }

  predicate SomeBoth(rows: seq<Resources>) {
    exists r <- rows :: Both(r.key, r.group)
  }

  predicate AccessBoth(access: Option<Access>) {
    access.Some? && Both(access.value.key, access.value.group)
  }

  lemma {:induction false} RowsBounded(script: Script, w: World, rows: seq<Resources>, deadline: real, limit: real)
    requires Timely(script, limit)
    ensures BoundedIf(SomeBoth(rows), w, DestroyRows(script, w, rows, Some(deadline)), deadline, limit)
  {
    if rows != [] {
      var k := |rows| - 1;
      RowsBounded(script, w, rows[..k], deadline, limit);
      RowsGoOnBounded(script, w, rows, deadline, limit);
    }
  }

  lemma SomeBothSnoc(rows: seq<Resources>)
    requires rows != []
    ensures SomeBoth(rows) <==> SomeBoth(rows[..|rows| - 1]) || Both(rows[|rows| - 1].key, rows[|rows| - 1].group)
  {
    assert rows == rows[..|rows| - 1] + [rows[|rows| - 1]];
  }

  lemma RowsGoOnBounded(script: Script, w: World, rows: seq<Resources>, deadline: real, limit: real)
    requires Timely(script, limit) && rows != []
    requires BoundedIf(SomeBoth(rows[..|rows| - 1]), w, DestroyRows(script, w, rows[..|rows| - 1], Some(deadline)),
                       deadline, limit)
    ensures BoundedIf(SomeBoth(rows), w, DestroyRows(script, w, rows, Some(deadline)), deadline, limit)
  {
    hide DestroyEntrypoint;
    var k := |rows| - 1;
    var w1 := DestroyRows(script, w, rows[..k], Some(deadline));
    SomeBothSnoc(rows);
    hide SomeBoth;
    if !Expired(w1, Some(deadline)) {
      EntrypointBounded(script, w1, rows[k], deadline, limit);
      ThenBounded(Both(rows[k].key, rows[k].group), w, w1,
                  DestroyEntrypoint(script, w1, rows[k], Some(deadline)).0, deadline, limit);
    }
  }

  lemma AllBounded(script: Script, w: World, rows: seq<Resources>, access: Option<Access>, deadline: real, limit: real)
    requires Timely(script, limit)
    ensures BoundedIf(SomeBoth(rows) || AccessBoth(access), w, DestroyAll(script, w, rows, access, Some(deadline)),
                      deadline, limit)
  {
    hide DestroyRows, DestroyAccess;
    var w1 := DestroyRows(script, w, rows, Some(deadline));
    RowsBounded(script, w, rows, deadline, limit);
    if access.Some? && !Expired(w1, Some(deadline)) {
      AccessBounded(script, w1, access.value, deadline, limit);
      ThenBounded(AccessBoth(access), w, w1, DestroyAccess(script, w1, access.value, Some(deadline)).0, deadline,
                  limit);
    }
  }

  lemma LoadsMakeNoCalls(script: Script, w: World)
    ensures Loaded(script, w).0.trace == w.trace && w.clock <= Loaded(script, w).0.clock
  {
  }

  lemma BoundedFrom(both: bool, w: World, w1: World, w2: World, deadline: real, limit: real)
    requires w1.trace == w.trace && w.clock <= w1.clock && BoundedIf(both, w1, w2, deadline, limit)
    ensures BoundedIf(both, w, w2, deadline, limit)
  {
  }

  /**
   For any rows, any answers and any number of peers: all calls of a teardown but possibly its last
   start by the deadline; a late last call is a listing of peers right behind the deletion of a setup
   key; and all calls end within two timeouts of the deadline.  Without a record that has both a key and
   a group no call starts late.
   */
  lemma {:induction false} TeardownIsBounded(script: Script, w: World, budget: int, limit: real)
    requires Timely(script, limit)
    ensures var (_, access, rows) := Loaded(script, w);
            BoundedIf(SomeBoth(rows) || AccessBoth(access), w, Destroy(script, w, budget),
                      DeadlineOf(script, w, budget), limit)
  {
    hide DestroyAll, Loaded, BoundedIf, SomeBoth, AccessBoth;
    var (w1, access, rows) := Loaded(script, w);
    LoadsMakeNoCalls(script, w);
    AllBounded(script, w1, rows, access, DeadlineOf(script, w, budget), limit);
    BoundedFrom(SomeBoth(rows) || AccessBoth(access), w, w1, Destroy(script, w, budget),
                DeadlineOf(script, w, budget), limit);
  }

  // ---- How late the teardown itself can end ----

  ghost predicate Prompt(script: Script, query: real) {
    forall t: nat :: script(t).query <= query
  }

  lemma ClockBounded(both: bool, w: World, w': World, deadline: real, limit: real)
    requires BoundedIf(both, w, w', deadline, limit) && CallsMoveTheClock(w, w') && 0.0 <= limit
    ensures w'.clock <= w.clock || w'.clock <= deadline + limit + limit
  {
  }

  lemma EntrypointEnds(script: Script, w: World, row: Resources, deadline: real, limit: real, query: real)
    requires Timely(script, limit) && Prompt(script, query) && 0.0 <= limit && w.clock <= deadline
    ensures DestroyEntrypoint(script, w, row, Some(deadline)).0.clock <= deadline + limit + limit + query
  {
    hide DestroyObjects, BoundedIf;
    var (w1, flow) := DestroyObjects(script, w, row, Some(deadline));
    ObjectsBounded(script, w, row, deadline, limit);
    ClockBounded(Both(row.key, row.group), w, w1, deadline, limit);
    assert 0.0 <= script(0).query <= query;
  }

  lemma AccessEnds(script: Script, w: World, access: Access, deadline: real, limit: real, query: real)
    requires Timely(script, limit) && Prompt(script, query) && 0.0 <= limit && w.clock <= deadline
    ensures DestroyAccess(script, w, access, Some(deadline)).0.clock <= deadline + limit + limit + query
  {
    hide DestroyAccessObjects, BoundedIf;
    var (w1, flow) := DestroyAccessObjects(script, w, access, Some(deadline));
    AccessObjectsBounded(script, w, access, deadline, limit);
    ClockBounded(Both(access.key, access.group), w, w1, deadline, limit);
    assert 0.0 <= script(0).query <= query;
  }

  lemma {:induction false} RowsEnd(script: Script, w: World, rows: seq<Resources>, deadline: real, limit: real,
                                   query: real)
    requires Timely(script, limit) && Prompt(script, query) && 0.0 <= limit
    ensures var w' := DestroyRows(script, w, rows, Some(deadline));
            w'.clock <= w.clock || w'.clock <= deadline + limit + limit + query
  {
    if rows != [] {
      var k := |rows| - 1;
      var w1 := DestroyRows(script, w, rows[..k], Some(deadline));
      RowsEnd(script, w, rows[..k], deadline, limit, query);
      if !Expired(w1, Some(deadline)) {
        EntrypointEnds(script, w1, rows[k], deadline, limit, query);
      }
    }
  }

  /** The teardown ends within two timeouts and one query of its deadline, or right after its loads. */
  lemma {:induction false} TeardownEnds(script: Script, w: World, budget: int, limit: real, query: real)
    requires Timely(script, limit) && Prompt(script, query) && 0.0 <= limit
    ensures var w' := Destroy(script, w, budget);
            w'.clock <= Loaded(script, w).0.clock || w'.clock <= DeadlineOf(script, w, budget) + limit + limit + query
  {
    hide DestroyRows, DestroyAccess, Loaded;
    var deadline := DeadlineOf(script, w, budget);
    var (w1, access, rows) := Loaded(script, w);
    RowsEnd(script, w1, rows, deadline, limit, query);
    var w2 := DestroyRows(script, w1, rows, Some(deadline));
    if access.Some? && !Expired(w2, Some(deadline)) {
      AccessEnds(script, w2, access.value, deadline, limit, query);
    }
  }

  // ---- When nothing is called at all ----

  lemma {:induction false} NothingOnceExpired(script: Script, w: World, rows: seq<Resources>, n: nat, deadline: real)
    requires n <= |rows| && Expired(DestroyRows(script, w, rows[..n], Some(deadline)), Some(deadline))
    ensures DestroyRows(script, w, rows, Some(deadline)) == DestroyRows(script, w, rows[..n], Some(deadline))
    decreases |rows|
  {
    if n < |rows| {
      assert rows[..|rows| - 1][..n] == rows[..n];
      NothingOnceExpired(script, w, rows[..|rows| - 1], n, deadline);
    } else {
      assert rows[..n] == rows;
    }
  }

  /** Rows that name nothing are deleted without a call. */
  lemma {:induction false} BlankRowsMakeNoCalls(script: Script, w: World, rows: seq<Resources>, deadline: real)
    requires forall r <- rows :: Targets(r) == []
    ensures DestroyRows(script, w, rows, Some(deadline)).trace == w.trace
  {
    if rows != [] {
      var k := |rows| - 1;
      BlankRowsMakeNoCalls(script, w, rows[..k], deadline);
      var w1 := DestroyRows(script, w, rows[..k], Some(deadline));
      BlankRowMakesNoCall(script, w1, rows[k], deadline);
    }
  }

  lemma BlankRowMakesNoCall(script: Script, w: World, row: Resources, deadline: real)
    requires Targets(row) == []
    ensures DestroyEntrypoint(script, w, row, Some(deadline)).0.trace == w.trace
  {
    NothingNamed(row);
  }

  lemma NothingNamed(row: Resources)
    ensures Targets(row) == [] <==>
              !Truthy(row.policy) && ListOf(row.routeIds) == [] && !Truthy(row.key) && !Truthy(row.group)
  {
    assert |Routes(ListOf(row.routeIds))| == |ListOf(row.routeIds)|;
  }

  /** A row that names something, or shared objects, begun in time: something is called. */
  lemma BusyRowCalls(script: Script, w: World, row: Resources, deadline: real)
    requires Targets(row) != [] && w.clock <= deadline
    ensures |DestroyEntrypoint(script, w, row, Some(deadline)).0.trace| > |w.trace|
  {
    NothingNamed(row);
    BusyObjectsCall(script, w, row, deadline);
  }

  lemma BusyObjectsCall(script: Script, w: World, row: Resources, deadline: real)
    requires w.clock <= deadline
    requires Truthy(row.policy) || ListOf(row.routeIds) != [] || Truthy(row.key) || Truthy(row.group)
    ensures |DestroyObjects(script, w, row, Some(deadline)).0.trace| > |w.trace|
  {
    if Truthy(row.policy) {
      var w1 := Attempt(script, w, Named(Policy, row.policy)).0;
      assert w1.trace <= DestroyObjects(script, w, row, Some(deadline)).0.trace;
    } else {
      BusyRestCalls(script, w, row, deadline);
    }
  }

  lemma BusyRestCalls(script: Script, w: World, row: Resources, deadline: real)
    requires w.clock <= deadline
    requires ListOf(row.routeIds) != [] || Truthy(row.key) || Truthy(row.group)
    ensures |DestroyRest(script, w, row, Some(deadline)).0.trace| > |w.trace|
  {
    var ids := ListOf(row.routeIds);
    if ids != [] {
      var (w1, verdict) := DeleteObject(script, w, Obj(Route, ids[0]));
      var w2 := DeleteRoutes(script, w, ids, Some(deadline)).0;
      assert w1.trace <= w2.trace <= DestroyRest(script, w, row, Some(deadline)).0.trace;
    } else {
      BusyGroupCalls(script, w, row.key, row.group, deadline);
    }
  }

  lemma BusyGroupCalls(script: Script, w: World, key: Option<string>, group: Option<string>, deadline: real)
    requires w.clock <= deadline && (Truthy(key) || Truthy(group))
    ensures |DestroyGroup(script, w, key, group, Some(deadline)).0.trace| > |w.trace|
  {
    var w1 := Attempt(script, w, Named(SetupKey, key)).0;
    var w2 := DeleteGroupPeers(script, w1, group, Some(deadline)).0;
    if !Truthy(key) {
      assert Called(script, w, ListPeers(group.value)).trace <= w2.trace;
    }
  }

  lemma BusyAccessCalls(script: Script, w: World, access: Access, deadline: real)
    requires AccessTargets(access) != [] && w.clock <= deadline
    ensures |DestroyAccess(script, w, access, Some(deadline)).0.trace| > |w.trace|
  {
    if Truthy(access.nameservers) {
      var w1 := Attempt(script, w, Named(Nameservers, access.nameservers)).0;
      assert w1.trace <= DestroyAccessObjects(script, w, access, Some(deadline)).0.trace;
    } else {
      BusyGroupCalls(script, w, access.key, access.group, deadline);
    }
  }

  /** The first row from `i` on that names something; the number of rows when none does. */
  function BusyFrom(rows: seq<Resources>, i: nat): (n: nat)
    requires i <= |rows|
    ensures i <= n <= |rows| && (n < |rows| ==> Targets(rows[n]) != [])
    ensures forall j | i <= j < n :: Targets(rows[j]) == []
    decreases |rows| - i
  {
    hide Targets;
    if i == |rows| || Targets(rows[i]) != [] then i else BusyFrom(rows, i + 1)
  }

  function Busy(rows: seq<Resources>): (n: nat)
    ensures n <= |rows|
  {
    BusyFrom(rows, 0)
  }

  /**
   A teardown with something to delete calls nothing exactly when its time is over once it has deleted the
   rows that name nothing.
   */
  lemma {:induction false} NoCallIff(script: Script, w: World, rows: seq<Resources>, access: Option<Access>,
                                     deadline: real)
    requires Busy(rows) < |rows| || (access.Some? && AccessTargets(access.value) != [])
    ensures DestroyAll(script, w, rows, access, Some(deadline)).trace == w.trace
            <==> Expired(DestroyRows(script, w, rows[..Busy(rows)], Some(deadline)), Some(deadline))
  {
    hide DestroyEntrypoint, DestroyAccess, Targets, AccessTargets;
    var n := Busy(rows);
    var blank := DestroyRows(script, w, rows[..n], Some(deadline));
    var all := DestroyRows(script, w, rows, Some(deadline));
    assert forall r <- rows[..n] :: Targets(r) == [];
    BlankRowsMakeNoCalls(script, w, rows[..n], deadline);
    if Expired(blank, Some(deadline)) {
      NothingOnceExpired(script, w, rows, n, deadline);
    } else if n < |rows| {
      BusyRowCalls(script, blank, rows[n], deadline);
      RowsGoOnFrom(script, w, rows, n, deadline);
      assert all.trace <= DestroyAll(script, w, rows, access, Some(deadline)).trace;
    } else {
      assert rows[..n] == rows;
      BusyAccessCalls(script, blank, access.value, deadline);
    }
  }

  lemma {:induction false} RowsGoOnFrom(script: Script, w: World, rows: seq<Resources>, n: nat, deadline: real)
    requires n < |rows| && !Expired(DestroyRows(script, w, rows[..n], Some(deadline)), Some(deadline))
    ensures var w1 := DestroyRows(script, w, rows[..n], Some(deadline));
            DestroyEntrypoint(script, w1, rows[n], Some(deadline)).0.trace
            <= DestroyRows(script, w, rows, Some(deadline)).trace
    decreases |rows|
  {
    hide DestroyEntrypoint;
    var k := |rows| - 1;
    if n < k {
      assert rows[..k][..n] == rows[..n] && rows[..k][n] == rows[n];
      RowsGoOnFrom(script, w, rows[..k], n, deadline);
      assert DestroyRows(script, w, rows[..k], Some(deadline)).trace
             <= DestroyRows(script, w, rows, Some(deadline)).trace;
    }
  }

  /**
   So the budget switches a teardown off exactly when the load of the rows takes longer than it; for this
   the first thing loaded has to name something.
   */
  lemma {:induction false} BudgetDisablesIff(script: Script, w: World, budget: int)
    requires var (_, access, rows) := Loaded(script, w);
             && (rows != [] ==> Targets(rows[0]) != [])
             && (rows == [] ==> access.Some? && AccessTargets(access.value) != [])
    ensures Destroy(script, w, budget).trace == w.trace <==> script(w.tick + 2).query > budget as real
  {
    var (w1, access, rows) := Loaded(script, w);
    LoadsMakeNoCalls(script, w);
    NoCallIff(script, w1, rows, access, DeadlineOf(script, w, budget));
    assert rows[..0] == [];
  }
}
