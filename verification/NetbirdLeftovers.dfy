/** The two promises about what NetBird provisioning leaves behind in the cloud. */
module NetbirdLeftovers {
  import opened Common
  import opened NetbirdWorld
  import opened NetbirdTeardown
  import opened NetbirdProvision
  import opened NetbirdResidue

  /** A sandbox that nothing was provisioned for yet. */
  ghost predicate Start(script: Script, w: World) {
    GoodIds(script) && Fresh(script, w) && w.sandbox && w.rows == [] && w.access == None && w.lost == {}
  }

  /** No call fails, and the sandbox is not deleted either. */
  ghost predicate Quiet(script: Script, n: nat) {
    HealthyFrom(script, n) && forall t: nat | n <= t :: !script(t).vanish
  }

  /** What provisioning has come to at its end guard. */
  ghost predicate Settled(script: Script, w0: World, w: World, done: seq<Resources>, access: Option<Access>,
                          stray: set<Obj>) {
    && Grows(script, w0, w) && LostThere(w)
    && Accounted(w0, w, AllTargets(done, access), stray)
    && InOrder(w.objs, AllTargets(done, access)) && Blank(w.objs, AllTargets(done, access))
    && (w.sandbox ==> w.rows == done && w.access == access && stray == {})
  }

  lemma SortedInOrder(objs: Objects, rows: seq<Obj>, access: Access)
    requires Sorted(objs, rows, AccessTargets(access), Ids(access.group))
    ensures InOrder(objs, rows + AccessTargets(access)) && Blank(objs, rows + AccessTargets(access))
  {
    AccessInOrder(objs, access);
    forall a <- rows, b <- AccessTargets(access) | a.kind.Group?
      ensures a.id !in objs[b]
    {
      NamedGroup(BlankRow(""), access, a.id);
      assert a == Obj(Group, a.id);
    }
    InOrderAppends(objs, rows, AccessTargets(access));
  }

  lemma LoopBegins(script: Script, w0: World, w: World, access: Access)
    requires Sound(script, w0) && w0.rows == [] && w0.lost == {} && Grows(script, w0, w) && SharedMine(w0, w, access)
    ensures Loop(script, w0, w, [], access, {})
  {
    assert RowsTargets([]) + AccessTargets(access) == AccessTargets(access);
  }

  lemma LoopSettles(script: Script, w0: World, w: World, done: seq<Resources>, access: Access, stray: set<Obj>)
    requires Loop(script, w0, w, done, access, stray)
    ensures Settled(script, w0, w, done, Some(access), stray)
  {
    SortedInOrder(w.objs, RowsTargets(done), access);
  }

  /** What was made in the round of the entrypoint loop during which the sandbox disappeared. */
  function StrayOf(script: Script, w: World, entrypoints: seq<Entrypoint>, dns: Option<seq<string>>): set<Obj> {
    var (w1, access) := ProvisionShared(script, w, dns);
    if access.Some? && Truthy(access.value.group) then Stray(script, w1, entrypoints, Ids(access.value.group)) else {}
  }

  lemma ProvisioningSettles(script: Script, w: World, entrypoints: seq<Entrypoint>, dns: Option<seq<string>>)
    requires Start(script, w) && DistinctNames(entrypoints)
    ensures var (w', done, access) := ProvisionAll(script, w, entrypoints, dns);
            Settled(script, w, w', done, access, StrayOf(script, w, entrypoints, dns))
  {
    var (w1, access) := ProvisionShared(script, w, dns);
    ProvisionSharedMine(script, w, dns);
    if access.Some? {
      LoopBegins(script, w, w1, access.value);
      if Truthy(access.value.group) {
        LoopHolds(script, w, w1, entrypoints, access.value);
        var (w2, done) := ProvisionEach(script, w1, entrypoints, Ids(access.value.group));
        LoopSettles(script, w, w2, done, access.value, Stray(script, w1, entrypoints, Ids(access.value.group)));
      } else {
        LoopSettles(script, w, w1, [], access.value, {});
      }
    } else {
      assert AllTargets([], None) == [];
    }
  }

  /** A successful teardown of all that is named leaves what was there before, the lost and the strays. */
  lemma TeardownLeaves(script: Script, w0: World, w: World, done: seq<Resources>, access: Option<Access>,
                       stray: set<Obj>, objs': Objects)
    requires Fresh(script, w0) && Settled(script, w0, w, done, access, stray)
    requires objs' == RemoveAll(w.strict, w.objs, AllTargets(done, access))
    ensures objs'.Keys == w0.objs.Keys + w.lost + stray + Pinned(w.strict, w.objs, w.lost + stray)
    ensures forall o <- w0.objs :: o in objs' && objs'[o] == w0.objs[o]
  {
    LeavesTheRest(script, w0, w, AllTargets(done, access), stray, objs');
  }

  lemma LeavesTheRest(script: Script, w0: World, w: World, all: seq<Obj>, stray: set<Obj>, objs': Objects)
    requires Fresh(script, w0) && Grows(script, w0, w) && LostThere(w) && Accounted(w0, w, all, stray)
    requires InOrder(w.objs, all) && Blank(w.objs, all)
    requires objs' == RemoveAll(w.strict, w.objs, all)
    ensures objs'.Keys == w0.objs.Keys + w.lost + stray + Pinned(w.strict, w.objs, w.lost + stray)
    ensures forall o <- w0.objs :: o in objs' && objs'[o] == w0.objs[o]
  {
    var others := w.objs.Keys - AsSet(all);
    RemoveAllLeaves(w.strict, w.objs, others, all, |all|);
    assert all[..|all|] == all;
    forall g <- all
      ensures g in Pinned(w.strict, w.objs, others) <==> g in Pinned(w.strict, w.objs, w.lost + stray)
    {
      OnlyLostPin(script, w0, w, all, stray, others, g);
    }
  }

  lemma OnlyLostPin(script: Script, w0: World, w: World, all: seq<Obj>, stray: set<Obj>, others: set<Obj>, g: Obj)
    requires Fresh(script, w0) && Grows(script, w0, w) && Accounted(w0, w, all, stray) && g in all
    requires others == w.objs.Keys - AsSet(all)
    requires LostThere(w)
    ensures g in Pinned(w.strict, w.objs, others) <==> g in Pinned(w.strict, w.objs, w.lost + stray)
  {
    assert Made(script, w0.tick, w.tick, g);
    var t: nat :| w0.tick <= t < w.tick && g.id == script(t).id;
    assert forall o <- w0.objs :: g.id !in w.objs[o];
  }

  // ---- Provisioning, then teardown ----

  lemma TeardownClears(script: Script, w: World, done: seq<Resources>, access: Option<Access>, deadline: Option<real>)
    requires HealthyFrom(script, w.tick)
    requires !Expired(DestroyAll(script, w, done, access, deadline), deadline)
    ensures var w' := DestroyAll(script, w, done, access, deadline);
            && w'.objs == RemoveAll(w.strict, w.objs, AllTargets(done, access))
            && (w.rows == done ==> w'.rows == [])
            && (w.access == access ==> w'.access == None)
            && w'.lost == w.lost
  {
    var n := AllPiece(script, w, done, access, deadline);
    WholePrefix(AllTargets(done, access), n);
    if w.rows == done {
      NoneLeft(DestroyAll(script, w, done, access, deadline).rows, done);
    }
  }

  lemma WholePrefix<T>(all: seq<T>, n: nat)
    ensures n == |all| ==> all[..n] == all
  {
  }

  lemma NoneLeft(rows: seq<Resources>, done: seq<Resources>)
    requires RowsGone(rows, done) && forall r <- rows :: r in done
    ensures rows == []
  {
    HasMember(rows);
  }

  lemma HasMember<T>(s: seq<T>)
    ensures s == [] || exists x :: x in s
  {
    if s != [] {
      assert s[0] in s;
    }
  }

  lemma QuietLoads(script: Script, w: World)
    requires Quiet(script, w.tick)
    ensures var (w1, access, rows) := Loaded(script, w);
            && w1.tick >= w.tick && w1 == w.(tick := w1.tick, clock := w1.clock)
            && access == w.access && rows == w.rows
  {
  }

  /** The teardown ends before its deadline. */
  predicate InTime(script: Script, w: World, budget: int) {
    Destroy(script, w, budget).clock <= DeadlineOf(script, w, budget)
  }

  /** What is left of a sandbox that was provisioned from `w` to `w1` and torn down from `w1` to `w2`. */
  ghost predicate Residue(w: World, w1: World, w2: World) {
    && w2.rows == [] && w2.access == None
    && w2.objs.Keys == w.objs.Keys + w1.lost + Pinned(w.strict, w1.objs, w1.lost)
    && (forall o <- w.objs :: o in w2.objs && w2.objs[o] == w.objs[o])
    && (forall o <- w1.lost :: o.kind.Route? && o !in w.objs)
  }

  /**
   Provisioning, whatever creates fail, and then a successful teardown within its budget: no row is
   left, and the cloud holds what it held before and the routes of interrupted route loops.  A strict
   server also keeps the groups that these routes use.
   */
  lemma {:induction false} ProvisionThenDestroy(script: Script, w: World, entrypoints: seq<Entrypoint>,
                                                dns: Option<seq<string>>, budget: int)
    requires Start(script, w) && DistinctNames(entrypoints)
    ensures var w1 := Provision(script, w, entrypoints, dns);
            w1.sandbox && Quiet(script, w1.tick) && InTime(script, w1, budget) ==>
              Residue(w, w1, Destroy(script, w1, budget))
  {
    hide Provision, Destroy, Quiet, InOrder, Blank, RemoveAll;
    var w1 := Provision(script, w, entrypoints, dns);
    if w1.sandbox && Quiet(script, w1.tick) && InTime(script, w1, budget) {
      ProvisionSettles(script, w, entrypoints, dns);
      QuietDestroyClears(script, w1, budget);
      TeardownLeaves(script, w, w1, w1.rows, w1.access, {}, Destroy(script, w1, budget).objs);
      assert w1.lost + {} == w1.lost;
    }
  }

  lemma QuietDestroyClears(script: Script, w: World, budget: int)
    requires Quiet(script, w.tick) && InTime(script, w, budget)
    ensures var w' := Destroy(script, w, budget);
            && w'.objs == RemoveAll(w.strict, w.objs, AllTargets(w.rows, w.access))
            && w'.rows == [] && w'.access == None
  {
    hide RemoveAll, AllTargets, DestroyAll;
    QuietLoads(script, w);
    TeardownClears(script, Loaded(script, w).0, w.rows, w.access, Some(DeadlineOf(script, w, budget)));
  }

  lemma SettledStays(script: Script, w0: World, w: World, w': World, done: seq<Resources>, access: Option<Access>,
                     stray: set<Obj>)
    requires Settled(script, w0, w, done, access, stray) && Grows(script, w, w')
    requires w'.objs == w.objs && w'.lost == w.lost
    requires w'.sandbox ==> w'.rows == w.rows && w'.access == w.access
    ensures Settled(script, w0, w', done, access, stray)
  {
    GrowsJoins(script, w0, w, w');
  }

  lemma StartSettled(script: Script, w: World)
    requires Start(script, w)
    ensures Settled(script, w, w, w.rows, w.access, {})
  {
    assert AllTargets([], None) == [];
  }

  /** Provisioning of a sandbox that stays: its rows name all that was made but the lost routes. */
  lemma ProvisionSettles(script: Script, w: World, entrypoints: seq<Entrypoint>, dns: Option<seq<string>>)
    requires Start(script, w) && DistinctNames(entrypoints) && Provision(script, w, entrypoints, dns).sandbox
    ensures var w1 := Provision(script, w, entrypoints, dns);
            Settled(script, w, w1, w1.rows, w1.access, {})
  {
    hide ProvisionAll, DestroyAll, Accounted, InOrder, Blank, LostThere;
    var w1 := Provision(script, w, entrypoints, dns);
    if entrypoints == [] && dns.None? {
      StartSettled(script, w);
    } else {
      var w0 := Asked(script, w);
      AskedGrows(script, w);
      if w0.sandbox {
        var (w2, done, access) := ProvisionAll(script, w0, entrypoints, dns);
        ProvisioningSettles(script, w0, entrypoints, dns);
        AskedGrows(script, w2);
        if Asked(script, w2).sandbox {
          SettledStays(script, w0, w2, w1, done, access, StrayOf(script, w0, entrypoints, dns));
          SettledSince(script, w, w0, w1, done, access, {});
        }
      }
    }
  }

  lemma SettledSince(script: Script, w: World, w0: World, w1: World, done: seq<Resources>, access: Option<Access>,
                     stray: set<Obj>)
    requires Grows(script, w, w0) && w0.objs == w.objs && Settled(script, w0, w1, done, access, stray)
    ensures Settled(script, w, w1, done, access, stray)
  {
    GrowsJoins(script, w, w0, w1);
  }

  // ---- When nothing fails, nothing is lost ----

  lemma {:induction false} QuietRoutes(script: Script, w: World, routes: seq<string>, groups: set<string>)
    requires Quiet(script, w.tick) && w.sandbox
    ensures var (w', _, ok) := CreateRoutes(script, w, routes, groups);
            ok && w'.sandbox && w'.lost == w.lost && w.tick <= w'.tick
  {
    if routes != [] {
      QuietRoutes(script, w, routes[..|routes| - 1], groups);
    }
  }

  lemma QuietStage(script: Script, w: World, row: Resources, kind: Kind, groups: set<string>)
    requires Quiet(script, w.tick) && w.sandbox
    ensures var (w', _, ok) := Stage(script, w, row, kind, groups);
            ok && w'.sandbox && w'.lost == w.lost && w.tick <= w'.tick
  {
  }

  lemma QuietAccessStage(script: Script, w: World, access: Access, kind: Kind, groups: set<string>)
    requires Quiet(script, w.tick) && w.sandbox
    ensures var (w', _, ok) := AccessStage(script, w, access, kind, groups);
            ok && w'.sandbox && w'.lost == w.lost && w.tick <= w'.tick
  {
  }

  lemma QuietLinks(script: Script, w: World, row: Resources, routes: seq<string>, shared: set<string>)
    requires Quiet(script, w.tick) && w.sandbox
    ensures var (w', result) := ProvisionLinks(script, w, row, routes, shared);
            result.Some? && w'.sandbox && w'.lost == w.lost && w.tick <= w'.tick
  {
    QuietRoutes(script, w, routes, Ids(row.group) + shared);
    var (w1, row1, ok1) := StageRoutes(script, w, row, routes, Ids(row.group) + shared);
    QuietStage(script, w1, row1, Policy, Ids(row1.group) + shared);
  }

  lemma QuietEntrypoint(script: Script, w: World, ep: Entrypoint, shared: set<string>)
    requires Quiet(script, w.tick) && w.sandbox
    ensures var (w', result) := ProvisionEntrypoint(script, w, ep, shared);
            result.Some? && w'.sandbox && w'.lost == w.lost && w.tick <= w'.tick
  {
    var (w1, row) := GetOrCreateRow(script, w, ep.name);
    QuietStage(script, w1, row.value, Group, {});
    var (w2, row2, _) := Stage(script, w1, row.value, Group, {});
    QuietStage(script, w2, row2, SetupKey, Ids(row2.group));
    var (w3, row3, _) := Stage(script, w2, row2, SetupKey, Ids(row2.group));
    QuietLinks(script, w3, row3, ep.routes, shared);
  }

  lemma {:induction false} QuietEach(script: Script, w: World, entrypoints: seq<Entrypoint>, shared: set<string>)
    requires Quiet(script, w.tick) && w.sandbox
    ensures var w' := ProvisionEach(script, w, entrypoints, shared).0;
            w'.sandbox && w'.lost == w.lost && w.tick <= w'.tick
  {
    if entrypoints != [] {
      var k := |entrypoints| - 1;
      QuietEach(script, w, entrypoints[..k], shared);
      QuietEntrypoint(script, ProvisionEach(script, w, entrypoints[..k], shared).0, entrypoints[k], shared);
    }
  }

  lemma QuietShared(script: Script, w: World, dns: Option<seq<string>>)
    requires Quiet(script, w.tick) && w.sandbox
    ensures var w' := ProvisionShared(script, w, dns).0;
            w'.sandbox && w'.lost == w.lost && w.tick <= w'.tick
  {
    var (w1, handle) := GetOrCreateAccess(script, w);
    QuietAccessStage(script, w1, handle.value, Group, {});
    var (w2, access2, _) := AccessStage(script, w1, handle.value, Group, {});
    QuietAccessStage(script, w2, access2, SetupKey, Ids(access2.group));
    var (w3, access3, _) := AccessStage(script, w2, access2, SetupKey, Ids(access2.group));
    QuietAccessStage(script, w3, access3, Nameservers, Ids(access3.group));
  }

  lemma QuietProvision(script: Script, w: World, entrypoints: seq<Entrypoint>, dns: Option<seq<string>>)
    requires Quiet(script, w.tick) && w.sandbox
    ensures var w' := Provision(script, w, entrypoints, dns);
            w'.sandbox && w'.lost == w.lost && w.tick <= w'.tick
  {
    var w1 := Asked(script, w);
    QuietShared(script, w1, dns);
    var (w2, access) := ProvisionShared(script, w1, dns);
    if access.Some? {
      QuietEach(script, w2, entrypoints, Ids(access.value.group));
    }
  }

  /**
   When no call fails the round trip is the identity on the cloud, even for a strict server: the
   teardown deletes nothing that is still in use.
   */
  lemma {:induction false} QuietRoundTripIsIdentity(script: Script, w: World, entrypoints: seq<Entrypoint>,
                                                    dns: Option<seq<string>>, budget: int)
    requires Start(script, w) && DistinctNames(entrypoints) && Quiet(script, w.tick)
    ensures var w1 := Provision(script, w, entrypoints, dns);
            InTime(script, w1, budget) ==> Destroy(script, w1, budget).objs == w.objs
  {
    hide Provision, Destroy;
    QuietProvision(script, w, entrypoints, dns);
    var w1 := Provision(script, w, entrypoints, dns);
    assert Quiet(script, w1.tick);
    ProvisionThenDestroy(script, w, entrypoints, dns, budget);
    assert Pinned(w.strict, w1.objs, {}) == {};
  }

  // ---- A sandbox deleted while it is provisioned ----

  /** Provisioning that passed its start guard, up to and including its end guard. */
  function AtEndGuard(script: Script, w: World, entrypoints: seq<Entrypoint>, dns: Option<seq<string>>)
    : (World, seq<Resources>, Option<Access>)
  {
    var (w1, done, access) := ProvisionAll(script, Asked(script, w), entrypoints, dns);
    (Asked(script, w1), done, access)
  }

  lemma GuardSettles(script: Script, w: World, entrypoints: seq<Entrypoint>, dns: Option<seq<string>>)
    requires Start(script, w) && DistinctNames(entrypoints) && !script(w.tick).vanish
    ensures var (w1, done, access) := AtEndGuard(script, w, entrypoints, dns);
            Settled(script, w, w1, done, access, StrayOf(script, Asked(script, w), entrypoints, dns)) || w1.sandbox
  {
    var w0 := Asked(script, w);
    var (w1, done, access) := ProvisionAll(script, w0, entrypoints, dns);
    var stray := StrayOf(script, w0, entrypoints, dns);
    AskedGrows(script, w);
    AskedGrows(script, w1);
    ProvisioningSettles(script, w0, entrypoints, dns);
    if !Asked(script, w1).sandbox {
      SettledStays(script, w0, w1, Asked(script, w1), done, access, stray);
      SettledSince(script, w, w0, Asked(script, w1), done, access, stray);
    }
  }

  lemma GuardTearsDown(script: Script, w: World, w1: World, done: seq<Resources>, access: Option<Access>,
                       stray: set<Obj>)
    requires Fresh(script, w) && Settled(script, w, w1, done, access, stray) && HealthyFrom(script, w1.tick)
    ensures var w2 := DestroyAll(script, w1, done, access, None);
            var left := w1.lost + stray;
            && w2.objs.Keys == w.objs.Keys + left + Pinned(w.strict, w1.objs, left)
            && (forall o <- w.objs :: o in w2.objs && w2.objs[o] == w.objs[o])
            && (access.Some? ==> forall o <- AccessTargets(access.value) ::
                  o !in w.objs && (o in w2.objs ==> w.strict && o.kind.Group?))
  {
    hide DestroyAll, RemoveAll;
    TeardownClears(script, w1, done, access, None);
    var w2 := DestroyAll(script, w1, done, access, None);
    TeardownLeaves(script, w, w1, done, access, stray, w2.objs);
    if access.Some? {
      forall o <- AccessTargets(access.value)
        ensures o !in w.objs && (o in w2.objs ==> w.strict && o.kind.Group?)
      {
        InAllTargets(done, access.value, o);
      }
    }
  }

  lemma InAllTargets(rows: seq<Resources>, access: Access, o: Obj)
    requires o in AccessTargets(access)
    ensures o in AllTargets(rows, Some(access))
  {
  }

  /**
   The sandbox is deleted somewhere between the guards, and all deletes of the end guard succeed.  What
   remains of its objects was made in the one round during which it disappeared, or is a route of an
   interrupted route loop; a strict server keeps the groups these use.
   */
  lemma {:induction false} RacingDelete(script: Script, w: World, entrypoints: seq<Entrypoint>,
                                        dns: Option<seq<string>>)
    requires Start(script, w) && DistinctNames(entrypoints) && (entrypoints != [] || dns.Some?)
    requires !script(w.tick).vanish
    requires var (w1, _, _) := AtEndGuard(script, w, entrypoints, dns);
             !w1.sandbox && HealthyFrom(script, w1.tick)
    ensures var (w1, _, access) := AtEndGuard(script, w, entrypoints, dns);
            var w2 := Provision(script, w, entrypoints, dns);
            var left := w1.lost + StrayOf(script, Asked(script, w), entrypoints, dns);
            && w2.objs.Keys == w.objs.Keys + left + Pinned(w.strict, w1.objs, left)
            && (forall o <- w.objs :: o in w2.objs && w2.objs[o] == w.objs[o])
            && (access.Some? ==> forall o <- AccessTargets(access.value) ::
                  o !in w.objs && (o in w2.objs ==> w.strict && o.kind.Group?))
  {
    var (w1, done, access) := AtEndGuard(script, w, entrypoints, dns);
    GuardSettles(script, w, entrypoints, dns);
    GuardTearsDown(script, w, w1, done, access, StrayOf(script, Asked(script, w), entrypoints, dns));
  }

  /** Strays come from a single round: the one that began with the sandbox and ended without it. */
  lemma {:induction false} StraysAreOfOneRound(script: Script, w: World, entrypoints: seq<Entrypoint>,
                                               shared: set<string>)
    returns (k: nat)
    ensures Stray(script, w, entrypoints, shared) != {} ==>
              && k < |entrypoints|
              && ProvisionEach(script, w, entrypoints[..k], shared).0.sandbox
              && !ProvisionEach(script, w, entrypoints[..k + 1], shared).0.sandbox
              && Stray(script, w, entrypoints, shared)
                 == ProvisionEach(script, w, entrypoints[..k + 1], shared).0.objs.Keys
                    - ProvisionEach(script, w, entrypoints[..k], shared).0.objs.Keys
  {
    hide ProvisionEach;
    k := 0;
    if entrypoints != [] {
      var n := |entrypoints| - 1;
      assert entrypoints[..n + 1] == entrypoints;
      if ProvisionEach(script, w, entrypoints[..n], shared).0.sandbox
         && !ProvisionEach(script, w, entrypoints, shared).0.sandbox {
        k := n;
      } else {
        k := StraysAreOfOneRound(script, w, entrypoints[..n], shared);
        if k < n {
          assert entrypoints[..n][..k] == entrypoints[..k] && entrypoints[..n][..k + 1] == entrypoints[..k + 1];
        }
      }
    }
  }
}
