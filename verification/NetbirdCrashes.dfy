/**
 The order of the deletes when calls may crash, that is raise something other than an API error: exactly
 which rows can have the access group deleted before their own objects.
 */
module NetbirdCrashes {
  import opened Common
  import opened NetbirdWorld
  import opened NetbirdTeardown
  import opened NetbirdDeadline

  /** What is still deleted of a row when its first operation crashes. */
  function FirstDelete(row: Resources): seq<Obj> {
    if Targets(row) == [] || Targets(row)[0].kind.Group? then [] else [Targets(row)[0]]
  }

  /** One object at most, and no group: there is nothing between its delete and a crash. */
  predicate Lone(row: Resources) {
    |Targets(row)| <= 1 && forall o <- Targets(row) :: !o.kind.Group?
  }

  lemma ShorterUnlessLone(row: Resources)
    ensures |FirstDelete(row)| <= |Targets(row)|
    ensures |FirstDelete(row)| == |Targets(row)| <==> Lone(row)
  {
  }

  // ---- Rows whose first operation crashes ----

  lemma FirstTarget(row: Resources)
    ensures Truthy(row.policy) ==> Targets(row) != [] && Targets(row)[0] == Obj(Policy, row.policy.value)
    ensures !Truthy(row.policy) && ListOf(row.routeIds) != [] ==>
              Targets(row) != [] && Targets(row)[0] == Obj(Route, ListOf(row.routeIds)[0])
    ensures !Truthy(row.policy) && ListOf(row.routeIds) == [] && Truthy(row.key) ==>
              Targets(row) != [] && Targets(row)[0] == Obj(SetupKey, row.key.value)
    ensures !Truthy(row.policy) && ListOf(row.routeIds) == [] && !Truthy(row.key) && Truthy(row.group) ==>
              Targets(row) != [] && Targets(row)[0] == Obj(Group, row.group.value)
  {
    var routes := Routes(ListOf(row.routeIds));
    assert ListOf(row.routeIds) == [] ==> routes == [];
  }

  /** `w'` is one operation behind `w`; it deleted `target`, and it may have taken time. */
  ghost predicate OneOp(script: Script, w: World, w': World, target: seq<Obj>) {
    && w'.tick == w.tick + 1
    && (script(w.tick).duration == 0.0 && script(w.tick).query == 0.0 ==> w'.clock == w.clock)
    && Deletes(w'.trace) == Deletes(w.trace) + target
  }

  lemma CalledOnce(script: Script, w: World, call: Call)
    ensures OneOp(script, w, Called(script, w, call), if call.Delete? then [call.obj] else [])
  {
    var w' := Called(script, w, call);
    assert w'.trace[..|w'.trace| - 1] == w.trace;
  }

  lemma CrashedGroup(script: Script, w: World, key: Option<string>, group: Option<string>, deadline: Option<real>)
    requires script(w.tick).verdict.Crashes? && !Expired(w, deadline) && (Truthy(key) || Truthy(group))
    ensures var (w', flow) := DestroyGroup(script, w, key, group, deadline);
            flow.Raises? && OneOp(script, w, w', Named(SetupKey, key))
  {
    if Truthy(key) {
      CalledOnce(script, w, Delete(Obj(SetupKey, key.value)));
    } else {
      CalledOnce(script, w, ListPeers(group.value));
    }
  }

  lemma CrashedObjects(script: Script, w: World, row: Resources, deadline: Option<real>)
    requires script(w.tick).verdict.Crashes? && !Expired(w, deadline) && Targets(row) != []
    ensures var (w', flow) := DestroyObjects(script, w, row, deadline);
            flow.Raises? && OneOp(script, w, w', FirstDelete(row))
  {
    FirstTarget(row);
    NothingNamed(row);
    hide Targets, OneOp;
    if Truthy(row.policy) {
      CalledOnce(script, w, Delete(Obj(Policy, row.policy.value)));
    } else if ListOf(row.routeIds) != [] {
      CalledOnce(script, w, Delete(Obj(Route, ListOf(row.routeIds)[0])));
    } else {
      CrashedGroup(script, w, row.key, row.group, deadline);
    }
  }

  lemma CrashedRow(script: Script, w: World, row: Resources, deadline: Option<real>)
    requires script(w.tick).verdict.Crashes? && !Expired(w, deadline)
    ensures OneOp(script, w, DestroyEntrypoint(script, w, row, deadline).0, FirstDelete(row))
  {
    if Targets(row) == [] {
      NothingNamed(row);
      assert DestroyEntrypoint(script, w, row, deadline).0 == DeleteRow(script, w, row.host);
      assert Deletes(w.trace) + [] == Deletes(w.trace);
    } else {
      CrashedObjects(script, w, row, deadline);
    }
  }

  ghost predicate CrashesFor(script: Script, a: nat, n: nat) {
    forall t: nat | a <= t < a + n ::
      script(t).verdict.Crashes? && script(t).duration == 0.0 && script(t).query == 0.0
  }

  lemma CrashedNext(script: Script, w: World, w1: World, rows: seq<Resources>, done: seq<Obj>, deadline: Option<real>)
    requires rows != [] && CrashesFor(script, w.tick, |rows|) && !Expired(w, deadline)
    requires w1.tick == w.tick + |rows| - 1 && w1.clock == w.clock && Deletes(w1.trace) == Deletes(w.trace) + done
    ensures var w' := DestroyEntrypoint(script, w1, rows[|rows| - 1], deadline).0;
            && w'.tick == w.tick + |rows| && w'.clock == w.clock
            && Deletes(w'.trace) == Deletes(w.trace) + (done + FirstDelete(rows[|rows| - 1]))
  {
    assert script(w1.tick).verdict.Crashes?;
    CrashedRow(script, w1, rows[|rows| - 1], deadline);
    hide DestroyEntrypoint, FirstDelete, Deletes, CrashesFor;
  }

  lemma DestroyRowsLast(script: Script, w: World, rows: seq<Resources>, deadline: Option<real>)
    requires rows != []
    ensures var w1 := DestroyRows(script, w, rows[..|rows| - 1], deadline);
            !Expired(w1, deadline) ==>
              DestroyRows(script, w, rows, deadline) == DestroyEntrypoint(script, w1, rows[|rows| - 1], deadline).0
  {
  }

  /** When every row crashes at once, each takes one operation. */
  lemma {:induction false} CrashedRows(script: Script, w: World, rows: seq<Resources>, deadline: Option<real>)
    requires CrashesFor(script, w.tick, |rows|) && !Expired(w, deadline)
    ensures var w' := DestroyRows(script, w, rows, deadline);
            && w'.tick == w.tick + |rows| && w'.clock == w.clock
            && Deletes(w'.trace) == Deletes(w.trace) + FlatMap(FirstDelete, rows)
  {
    if rows != [] {
      var before := rows[..|rows| - 1];
      CrashedRows(script, w, before, deadline);
      DestroyRowsLast(script, w, rows, deadline);
      hide DestroyRows, DestroyEntrypoint, FirstDelete, Deletes, CrashesFor;
      CrashedNext(script, w, DestroyRows(script, w, before, deadline), rows, FlatMap(FirstDelete, before), deadline);
    } else {
      assert Deletes(w.trace) + [] == Deletes(w.trace);
    }
  }

  lemma {:induction false} FewerUnlessAllLone(rows: seq<Resources>)
    ensures |FlatMap(FirstDelete, rows)| <= |FlatMap(Targets, rows)|
    ensures (exists r <- rows :: !Lone(r)) ==> |FlatMap(FirstDelete, rows)| < |FlatMap(Targets, rows)|
  {
    hide FirstDelete, Targets, Lone;
    if rows != [] {
      var k := |rows| - 1;
      FewerUnlessAllLone(rows[..k]);
      ShorterUnlessLone(rows[k]);
      assert rows == rows[..k] + [rows[k]];
    }
  }

  // ---- Rows that crashes cannot cut short ----

  /** A lone object is deleted by the first call, whatever becomes of that call. */
  lemma LoneIsDeleted(script: Script, w: World, row: Resources, deadline: Option<real>)
    requires Lone(row) && !Expired(w, deadline)
    ensures Deletes(DestroyEntrypoint(script, w, row, deadline).0.trace) == Deletes(w.trace) + Targets(row)
  {
    NothingNamed(row);
    if Targets(row) == [] {
      assert DestroyEntrypoint(script, w, row, deadline).0 == DeleteRow(script, w, row.host);
    } else {
      LoneObjectIsDeleted(script, w, row, deadline);
    }
  }

  lemma LoneKinds(row: Resources)
    requires Lone(row) && Targets(row) != []
    ensures !Truthy(row.group)
    ensures Truthy(row.policy) ==> ListOf(row.routeIds) == [] && !Truthy(row.key)
    ensures ListOf(row.routeIds) != [] ==> |ListOf(row.routeIds)| == 1 && !Truthy(row.key)
  {
    GroupTarget(row, if row.group.Some? then row.group.value else "");
    assert |Targets(row)| == |Named(Policy, row.policy)| + |ListOf(row.routeIds)| + |Named(SetupKey, row.key)|
                             + |Named(Group, row.group)|;
  }

  lemma LoneObjectIsDeleted(script: Script, w: World, row: Resources, deadline: Option<real>)
    requires Lone(row) && Targets(row) != [] && !Expired(w, deadline)
    ensures Deletes(DestroyEntrypoint(script, w, row, deadline).0.trace) == Deletes(w.trace) + Targets(row)
  {
    LoneKinds(row);
    FirstTarget(row);
    NothingNamed(row);
    hide Targets;
    var first := if Truthy(row.policy) then Obj(Policy, row.policy.value)
                 else if ListOf(row.routeIds) != [] then Obj(Route, ListOf(row.routeIds)[0])
                 else Obj(SetupKey, row.key.value);
    assert Targets(row) == [first];
    CalledOnce(script, w, Delete(first));
    OnlyCall(script, w, row, first, deadline);
  }

  lemma NoGroup(script: Script, w: World, row: Resources, deadline: Option<real>)
    requires !Truthy(row.key) && !Truthy(row.group)
    ensures DestroyGroup(script, w, row.key, row.group, deadline).0 == w
  {
  }

  lemma OnlyKey(script: Script, w: World, row: Resources, deadline: Option<real>)
    requires Truthy(row.key) && !Truthy(row.group) && !Expired(w, deadline)
    ensures DestroyGroup(script, w, row.key, row.group, deadline).0
            == DeleteObject(script, w, Obj(SetupKey, row.key.value)).0
  {
    hide DeleteObject;
  }

  lemma OnlyRoute(script: Script, w: World, ids: seq<string>, deadline: Option<real>)
    requires |ids| == 1 && !Expired(w, deadline)
    ensures DeleteRoutes(script, w, ids, deadline).0 == DeleteObject(script, w, Obj(Route, ids[0])).0
  {
    hide DeleteObject;
    var w1 := DeleteObject(script, w, Obj(Route, ids[0])).0;
    assert ids[1..] == [] && DeleteRoutes(script, w1, [], deadline) == (w1, GoesOn);
  }

  lemma OnlyCall(script: Script, w: World, row: Resources, first: Obj, deadline: Option<real>)
    requires !Expired(w, deadline) && !Truthy(row.group)
    requires Truthy(row.policy) ==>
               ListOf(row.routeIds) == [] && !Truthy(row.key) && first == Obj(Policy, row.policy.value)
    requires ListOf(row.routeIds) != [] ==>
               |ListOf(row.routeIds)| == 1 && !Truthy(row.key) && first == Obj(Route, ListOf(row.routeIds)[0])
    requires !Truthy(row.policy) && ListOf(row.routeIds) == [] ==>
               Truthy(row.key) && first == Obj(SetupKey, row.key.value)
    ensures DestroyEntrypoint(script, w, row, deadline).0.trace == DeleteObject(script, w, first).0.trace
  {
    var w1 := DeleteObject(script, w, first).0;
    if Truthy(row.policy) {
      NoGroup(script, w1, row, deadline);
    } else if ListOf(row.routeIds) != [] {
      OnlyRoute(script, w, ListOf(row.routeIds), deadline);
      NoGroup(script, w1, row, deadline);
    } else {
      OnlyKey(script, w, row, deadline);
    }
    hide ListOf, DestroyGroup, DeleteObject;
  }

  lemma {:induction false} LoneRowsAreDeleted(script: Script, w: World, rows: seq<Resources>, deadline: Option<real>)
    returns (n: nat)
    requires forall r <- rows :: Lone(r)
    ensures var w' := DestroyRows(script, w, rows, deadline);
            && n <= |RowsTargets(rows)| && Deletes(w'.trace) == Deletes(w.trace) + RowsTargets(rows)[..n]
            && (n == |RowsTargets(rows)| || Expired(w', deadline))
  {
    hide Lone, Targets, DestroyEntrypoint, Deletes;
    if rows == [] {
      n := 0;
      assert RowsTargets(rows)[..0] == [] && Deletes(w.trace) + [] == Deletes(w.trace);
    } else {
      var k := |rows| - 1;
      var w1 := DestroyRows(script, w, rows[..k], deadline);
      n := LoneRowsAreDeleted(script, w, rows[..k], deadline);
      var first, last := RowsTargets(rows[..k]), Targets(rows[k]);
      assert RowsTargets(rows) == first + last;
      if Expired(w1, deadline) {
        assert (first + last)[..n] == first[..n];
      } else {
        LoneIsDeleted(script, w1, rows[k], deadline);
        assert first[..n] == first;
        n := |first + last|;
        assert (first + last)[..n] == first + last;
      }
    }
  }

  // ---- The exact condition ----

  /** Whatever crashes, a delete of the access group comes behind those of everything else. */
  ghost predicate OrderSurvives(rows: seq<Resources>, access: Access, g: string) {
    forall script: Script, w: World, budget: int ::
      SurvivesIn(script, w, budget, rows, access, g)
  }

  ghost predicate SurvivesIn(script: Script, w: World, budget: int, rows: seq<Resources>, access: Access, g: string) {
    Loaded(script, w).1 == Some(access) && Loaded(script, w).2 == rows
    && Deletes(w.trace) <= Deletes(Destroy(script, w, budget).trace)
    && Obj(Group, g) in Issued(w, Destroy(script, w, budget)) ==>
      Issued(w, Destroy(script, w, budget)) == AllTargets(rows, Some(access))
  }

  lemma GroupIsLast(access: Access, g: string, n: nat)
    requires access.group == Some(g) && g != "" && n <= |AccessTargets(access)|
    ensures Obj(Group, g) in AccessTargets(access)[..n] <==> n == |AccessTargets(access)|
  {
    var all := AccessTargets(access);
    assert all[|all| - 1] == Obj(Group, g);
    assert forall i | 0 <= i < |all| - 1 :: !all[i].kind.Group?;
    if n == |all| {
      assert all[..n][n - 1] == Obj(Group, g);
    }
  }

  lemma AccessDeletes(script: Script, w: World, access: Access, deadline: Option<real>) returns (n: nat)
    ensures n <= |AccessTargets(access)|
    ensures Deletes(DestroyAccess(script, w, access, deadline).0.trace) == Deletes(w.trace) + AccessTargets(access)[..n]
  {
    hide DestroyAccessObjects, AccessTargets;
    n := AccessObjectsPiece(script, w, access, deadline);
  }

  lemma LoneRowsSurvive(script: Script, w: World, budget: int, rows: seq<Resources>, access: Access, g: string)
    requires access.group == Some(g) && g != "" && forall r <- rows :: r.group != Some(g)
    requires forall r <- rows :: Lone(r)
    ensures SurvivesIn(script, w, budget, rows, access, g)
  {
    if Loaded(script, w).1 == Some(access) && Loaded(script, w).2 == rows {
      var w1 := Loaded(script, w).0;
      var deadline := Some(DeadlineOf(script, w, budget));
      LoadsMakeNoCalls(script, w);
      SurviveFrom(script, w1, rows, access, g, deadline);
    }
  }

  lemma SurviveFrom(script: Script, w: World, rows: seq<Resources>, access: Access, g: string, deadline: Option<real>)
    requires access.group == Some(g) && g != "" && forall r <- rows :: r.group != Some(g)
    requires forall r <- rows :: Lone(r)
    ensures var w' := DestroyAll(script, w, rows, Some(access), deadline);
            && Deletes(w.trace) <= Deletes(w'.trace)
            && (Obj(Group, g) in Issued(w, w') ==> Issued(w, w') == AllTargets(rows, Some(access)))
  {
    hide DestroyRows, DestroyAccess, Lone, AccessTargets;
    var w1 := DestroyRows(script, w, rows, deadline);
    var n := LoneRowsAreDeleted(script, w, rows, deadline);
    NotInRows(rows, g);
    if Expired(w1, deadline) {
      assert Issued(w, w1) == RowsTargets(rows)[..n];
    } else {
      var m := AccessDeletes(script, w1, access, deadline);
      var w2 := DestroyAccess(script, w1, access, deadline).0;
      GroupIsLast(access, g, m);
      assert RowsTargets(rows)[..n] == RowsTargets(rows);
      assert Deletes(w2.trace) == Deletes(w.trace) + (RowsTargets(rows) + AccessTargets(access)[..m]);
      assert Issued(w, w2) == RowsTargets(rows) + AccessTargets(access)[..m];
      assert m == |AccessTargets(access)| ==> AccessTargets(access)[..m] == AccessTargets(access);
    }
  }

  // ---- A script that breaks the order ----

  /** All rows crash at once, behind the three loads; then everything succeeds. */
  function CrashAll(rows: nat): Script {
    t => Tick(if 3 <= t < 3 + rows then Crashes else Succeeds, 0.0, 0.0, false, "", [])
  }

  function Stored(rows: seq<Resources>, access: Option<Access>): World {
    World(0, 0.0, map[], [], false, true, access, rows, {})
  }

  lemma StoredIsLoaded(script: Script, rows: seq<Resources>, access: Option<Access>)
    requires forall t: nat | t < 3 :: !script(t).vanish && script(t).query == 0.0
    requires rows != [] || access.Some?
    ensures Loaded(script, Stored(rows, access)) == (Stored(rows, access).(tick := 3), access, rows)
    ensures forall budget :: DeadlineOf(script, Stored(rows, access), budget) == budget as real
  {
  }

  lemma CrashesBreakOrder(rows: seq<Resources>, access: Access, g: string)
    requires access.group == Some(g) && g != "" && exists r <- rows :: !Lone(r)
    ensures !SurvivesIn(CrashAll(|rows|), Stored(rows, Some(access)), 0, rows, access, g)
  {
    hide DestroyRows, DestroyAccess, FlatMap, AccessTargets, FirstDelete, Targets, Lone, Loaded;
    var script, w := CrashAll(|rows|), Stored(rows, Some(access));
    var w1, deadline := w.(tick := 3), Some(0.0);
    StoredIsLoaded(script, rows, Some(access));
    CrashedRows(script, w1, rows, deadline);
    var w2 := DestroyRows(script, w1, rows, deadline);
    SharedStillGoes(script, w2, access, deadline);
    FewerUnlessAllLone(rows);
    var w3 := DestroyAccess(script, w2, access, deadline).0;
    assert Destroy(script, w, 0) == w3;
    assert Deletes(w.trace) == [];
    assert Issued(w, w3) == FlatMap(FirstDelete, rows) + AccessTargets(access);
    GroupIsLast(access, g, |AccessTargets(access)|);
    assert AccessTargets(access)[..|AccessTargets(access)|] == AccessTargets(access);
  }

  lemma SharedStillGoes(script: Script, w: World, access: Access, deadline: Option<real>)
    requires forall t: nat | w.tick <= t :: script(t).verdict.Succeeds?
    requires forall t: nat :: script(t).duration == 0.0 && script(t).query == 0.0
    requires w.clock == 0.0 && deadline == Some(0.0)
    ensures Deletes(DestroyAccess(script, w, access, deadline).0.trace) == Deletes(w.trace) + AccessTargets(access)
  {
    hide DestroyAccess, AccessTargets;
    AccessEnds(script, w, access, 0.0, 0.0, 0.0);
    var n := AccessPiece(script, w, access, deadline);
    assert n == |AccessTargets(access)| ==> AccessTargets(access)[..n] == AccessTargets(access);
  }

  /**
   The order survives every crash exactly when each row names one object at most, and no group: the delete
   of a lone policy, route or key is issued before it can crash, while a group is deleted behind a listing,
   and of two objects the second is deleted behind the first.
   */
  lemma {:induction false} CrashesKeepOrderIff(rows: seq<Resources>, access: Access, g: string)
    requires access.group == Some(g) && g != "" && forall r <- rows :: r.group != Some(g)
    ensures OrderSurvives(rows, access, g) <==> forall r <- rows :: Lone(r)
  {
    if forall r <- rows :: Lone(r) {
      forall script: Script, w: World, budget: int
        ensures SurvivesIn(script, w, budget, rows, access, g)
      {
        LoneRowsSurvive(script, w, budget, rows, access, g);
      }
    } else {
      CrashesBreakOrder(rows, access, g);
    }
  }
}
