/** Between any two operations of provisioning it is known which object belongs to what. */
module NetbirdTracking {
  import opened Common
  import opened Text
  import opened NetbirdWorld
  import opened NetbirdProvision
  import opened NetbirdResidue
  import opened NetbirdLeftovers

  // ---- The moments of a run: the worlds behind each operation, in order ----

  function StageMoments(script: Script, w: World, row: Resources, kind: Kind, groups: set<string>): seq<World> {
    var (w1, id) := CreateObject(script, w, kind, groups);
    [w1] + if id.Some? then [SaveRow(script, w1, WithId(row, kind, id.value)).0] else []
  }

  function AccessStageMoments(script: Script, w: World, access: Access, kind: Kind, groups: set<string>): seq<World> {
    var (w1, id) := CreateObject(script, w, kind, groups);
    [w1] + if id.Some? then [SaveAccess(script, w1, AccessWithId(access, kind, id.value)).0] else []
  }

  function RoutesMoments(script: Script, w: World, routes: seq<string>, groups: set<string>): seq<World> {
    if routes == [] then []
    else
      var before := routes[..|routes| - 1];
      var (w1, _, ok) := CreateRoutes(script, w, before, groups);
      RoutesMoments(script, w, before, groups) + if ok then [CreateObject(script, w1, Route, groups).0] else []
  }

  function StageRoutesMoments(script: Script, w: World, row: Resources, routes: seq<string>,
                              groups: set<string>): seq<World> {
    var (w1, ids, ok) := CreateRoutes(script, w, routes, groups);
    var row1 := row.(routeIds := Some(Join(ids)), routeCidrs := Some(Join(routes)));
    RoutesMoments(script, w, routes, groups) + if ok then [SaveRow(script, w1, row1).0] else []
  }

  function LinksMoments(script: Script, w: World, row: Resources, routes: seq<string>,
                        shared: set<string>): seq<World> {
    var (w1, row1, ok1) := StageRoutes(script, w, row, routes, Ids(row.group) + shared);
    StageRoutesMoments(script, w, row, routes, Ids(row.group) + shared)
    + if ok1 then StageMoments(script, w1, row1, Policy, Ids(row1.group) + shared) else []
  }

  function RowMoments(script: Script, w: World, row: Resources, routes: seq<string>, shared: set<string>): seq<World> {
    var (w1, row1, ok1) := Stage(script, w, row, Group, {});
    var (w2, row2, ok2) := Stage(script, w1, row1, SetupKey, Ids(row1.group));
    StageMoments(script, w, row, Group, {})
    + (if ok1 then StageMoments(script, w1, row1, SetupKey, Ids(row1.group)) else [])
    + (if ok1 && ok2 then LinksMoments(script, w2, row2, routes, shared) else [])
  }

  function EntrypointMoments(script: Script, w: World, ep: Entrypoint, shared: set<string>): seq<World> {
    var (w1, row) := GetOrCreateRow(script, w, ep.name);
    [w1] + if row.Some? then RowMoments(script, w1, row.value, ep.routes, shared) else []
  }

  function OneMoments(script: Script, w: World, ep: Entrypoint, shared: set<string>): seq<World> {
    var (w1, row) := ProvisionEntrypoint(script, w, ep, shared);
    EntrypointMoments(script, w, ep, shared) + if row.None? then [GetRow(script, w1, ep.name).0] else []
  }

  function EachMoments(script: Script, w: World, entrypoints: seq<Entrypoint>, shared: set<string>): seq<World> {
    if entrypoints == [] then []
    else
      var before := entrypoints[..|entrypoints| - 1];
      EachMoments(script, w, before, shared)
      + OneMoments(script, ProvisionEach(script, w, before, shared).0, entrypoints[|entrypoints| - 1], shared)
  }

  function SharedMoments(script: Script, w: World, dns: Option<seq<string>>): seq<World> {
    var (w1, handle) := GetOrCreateAccess(script, w);
    if handle.None? then [w1]
    else
      var (w2, access2, ok2) := AccessStage(script, w1, handle.value, Group, {});
      var (w3, access3, _) := ProvisionAccess(script, w1, handle.value);
      [w1] + AccessStageMoments(script, w1, handle.value, Group, {})
      + (if ok2 then AccessStageMoments(script, w2, access2, SetupKey, Ids(access2.group)) else [])
      + (if Truthy(access3.group) && dns.Some? && dns.value != []
         then AccessStageMoments(script, w3, access3, Nameservers, Ids(access3.group)) else [])
  }

  function AllMoments(script: Script, w: World, entrypoints: seq<Entrypoint>, dns: Option<seq<string>>): seq<World> {
    var (w1, access) := ProvisionShared(script, w, dns);
    SharedMoments(script, w, dns)
    + if access.Some? && Truthy(access.value.group)
      then EachMoments(script, w1, entrypoints, Ids(access.value.group))
      else []
  }

  /** One moment for each operation between two points of a run. */
  ghost predicate Complete(moments: seq<World>, from: World, to: World) {
    && from.tick + |moments| == to.tick
    && forall i | 0 <= i < |moments| :: moments[i].tick == from.tick + i + 1
  }

  lemma CompleteJoins(first: seq<World>, second: seq<World>, a: World, b: World, c: World)
    requires Complete(first, a, b) && Complete(second, b, c)
    ensures Complete(first + second, a, c)
  {
  }

  lemma {:induction false} RoutesComplete(script: Script, w: World, routes: seq<string>, groups: set<string>)
    ensures Complete(RoutesMoments(script, w, routes, groups), w, CreateRoutes(script, w, routes, groups).0)
  {
    if routes != [] {
      RoutesComplete(script, w, routes[..|routes| - 1], groups);
    }
  }

  lemma StageRoutesComplete(script: Script, w: World, row: Resources, routes: seq<string>, groups: set<string>)
    ensures Complete(StageRoutesMoments(script, w, row, routes, groups), w,
                     StageRoutes(script, w, row, routes, groups).0)
  {
    RoutesComplete(script, w, routes, groups);
  }

  lemma LinksComplete(script: Script, w: World, row: Resources, routes: seq<string>, shared: set<string>)
    ensures Complete(LinksMoments(script, w, row, routes, shared), w, ProvisionLinks(script, w, row, routes, shared).0)
  {
    var groups := Ids(row.group) + shared;
    var (w1, row1, ok1) := StageRoutes(script, w, row, routes, groups);
    StageRoutesComplete(script, w, row, routes, groups);
    hide StageRoutes, StageRoutesMoments;
    if ok1 {
      CompleteJoins(StageRoutesMoments(script, w, row, routes, groups),
                    StageMoments(script, w1, row1, Policy, Ids(row1.group) + shared), w, w1,
                    Stage(script, w1, row1, Policy, Ids(row1.group) + shared).0);
    }
  }

  lemma StageComplete(script: Script, w: World, row: Resources, kind: Kind, groups: set<string>)
    ensures Complete(StageMoments(script, w, row, kind, groups), w, Stage(script, w, row, kind, groups).0)
  {
  }

  lemma RowComplete(script: Script, w: World, row: Resources, routes: seq<string>, shared: set<string>)
    ensures Complete(RowMoments(script, w, row, routes, shared), w, ProvisionRow(script, w, row, routes, shared).0)
  {
    var (w1, row1, ok1) := Stage(script, w, row, Group, {});
    var (w2, row2, ok2) := Stage(script, w1, row1, SetupKey, Ids(row1.group));
    var a, b := StageMoments(script, w, row, Group, {}), StageMoments(script, w1, row1, SetupKey, Ids(row1.group));
    StageComplete(script, w, row, Group, {});
    StageComplete(script, w1, row1, SetupKey, Ids(row1.group));
    if ok1 {
      CompleteJoins(a, b, w, w1, w2);
      if ok2 {
        LinksComplete(script, w2, row2, routes, shared);
        CompleteJoins(a + b, LinksMoments(script, w2, row2, routes, shared), w, w2,
                      ProvisionLinks(script, w2, row2, routes, shared).0);
      }
    }
  }

  lemma OneComplete(script: Script, w: World, done: seq<Resources>, ep: Entrypoint, shared: set<string>)
    ensures Complete(OneMoments(script, w, ep, shared), w, ProvisionOne(script, w, done, ep, shared).0)
  {
    var (w1, row) := GetOrCreateRow(script, w, ep.name);
    if row.Some? {
      RowComplete(script, w1, row.value, ep.routes, shared);
      CompleteJoins([w1], RowMoments(script, w1, row.value, ep.routes, shared), w, w1,
                    ProvisionRow(script, w1, row.value, ep.routes, shared).0);
    }
    var (w2, result) := ProvisionEntrypoint(script, w, ep, shared);
    assert Complete(EntrypointMoments(script, w, ep, shared), w, w2);
    if result.None? {
      var w3 := GetRow(script, w2, ep.name).0;
      CompleteJoins(EntrypointMoments(script, w, ep, shared), [w3], w, w2, w3);
    }
  }

  lemma {:induction false} EachComplete(script: Script, w: World, entrypoints: seq<Entrypoint>, shared: set<string>)
    ensures Complete(EachMoments(script, w, entrypoints, shared), w, ProvisionEach(script, w, entrypoints, shared).0)
  {
    if entrypoints != [] {
      var k := |entrypoints| - 1;
      var (w1, done) := ProvisionEach(script, w, entrypoints[..k], shared);
      EachComplete(script, w, entrypoints[..k], shared);
      OneComplete(script, w1, done, entrypoints[k], shared);
      CompleteJoins(EachMoments(script, w, entrypoints[..k], shared), OneMoments(script, w1, entrypoints[k], shared), w,
                    w1, ProvisionOne(script, w1, done, entrypoints[k], shared).0);
    }
  }

  lemma AccessStageComplete(script: Script, w: World, access: Access, kind: Kind, groups: set<string>)
    ensures Complete(AccessStageMoments(script, w, access, kind, groups), w,
                     AccessStage(script, w, access, kind, groups).0)
  {
  }

  lemma SharedComplete(script: Script, w: World, dns: Option<seq<string>>)
    ensures Complete(SharedMoments(script, w, dns), w, ProvisionShared(script, w, dns).0)
  {
    var (w1, handle) := GetOrCreateAccess(script, w);
    if handle.Some? {
      var (w2, access2, ok2) := AccessStage(script, w1, handle.value, Group, {});
      var (w3, access3, _) := ProvisionAccess(script, w1, handle.value);
      var a := AccessStageMoments(script, w1, handle.value, Group, {});
      AccessStageComplete(script, w1, handle.value, Group, {});
      AccessStageComplete(script, w2, access2, SetupKey, Ids(access2.group));
      AccessStageComplete(script, w3, access3, Nameservers, Ids(access3.group));
      CompleteJoins([w1], a, w, w1, w2);
      var b := if ok2 then AccessStageMoments(script, w2, access2, SetupKey, Ids(access2.group)) else [];
      CompleteJoins([w1] + a, b, w, w2, w3);
      var c := if Truthy(access3.group) && dns.Some? && dns.value != []
               then AccessStageMoments(script, w3, access3, Nameservers, Ids(access3.group)) else [];
      CompleteJoins([w1] + a + b, c, w, w3, ProvisionShared(script, w, dns).0);
    }
  }

  /** The moments leave out no operation of provisioning. */
  lemma {:induction false} AllComplete(script: Script, w: World, entrypoints: seq<Entrypoint>, dns: Option<seq<string>>)
    ensures Complete(AllMoments(script, w, entrypoints, dns), w, ProvisionAll(script, w, entrypoints, dns).0)
  {
    var (w1, access) := ProvisionShared(script, w, dns);
    SharedComplete(script, w, dns);
    if access.Some? && Truthy(access.value.group) {
      var shared := Ids(access.value.group);
      EachComplete(script, w1, entrypoints, shared);
      CompleteJoins(SharedMoments(script, w, dns), EachMoments(script, w1, entrypoints, shared), w, w1,
                    ProvisionEach(script, w1, entrypoints, shared).0);
    }
  }

  // ---- What is known at each of them ----

  /** The object is the result of the call that has just returned. */
  predicate JustMade(script: Script, p: World, o: Obj) {
    p.tick > 0 && o.id == script(p.tick - 1).id
  }

  /** The object is a route of the entrypoint in progress, whose row does not have its route ids yet. */
  predicate InRouteLoop(p: World, o: Obj)
    requires o in p.objs
  {
    && o.kind.Route? && p.rows != []
    && var row := p.rows[|p.rows| - 1];
       row.routeIds.None? && Ids(row.group) != {} && Ids(row.group) <= p.objs[o]
  }

  /** Every object made since `w0` is named by a row, lost, just made, or a route on its way to its row. */
  ghost predicate Tracked(script: Script, w0: World, p: World) {
    p.sandbox ==>
      forall o <- p.objs ::
        o in w0.objs || o in AllTargets(p.rows, p.access) || o in p.lost || JustMade(script, p, o) || InRouteLoop(p, o)
  }

  /** The same for what was made for one entrypoint since `w`, with its row behind those of the others. */
  ghost predicate Local(script: Script, w: World, p: World, done: seq<Resources>) {
    p.sandbox ==>
      && p.rows != [] && p.rows[..|p.rows| - 1] == done && p.access == w.access && w.lost <= p.lost
      && forall o <- p.objs ::
           o in w.objs || o in Targets(p.rows[|p.rows| - 1]) || o in p.lost || JustMade(script, p, o)
           || InRouteLoop(p, o)
  }

  lemma MineIsLocal(script: Script, w: World, p: World, done: seq<Resources>, row: Resources, shared: set<string>)
    requires Mine(w, p, done, row, shared) && w.lost <= p.lost
    ensures Local(script, w, p, done)
  {
    assert p.rows[..|p.rows| - 1] == done;
  }

  /** One more object, just made, and nothing else is new. */
  lemma MadeIsLocal(script: Script, w0: World, w: World, w': World, done: seq<Resources>, row: Resources,
                    shared: set<string>)
    requires Mine(w0, w, done, row, shared) && w0.lost <= w.lost && w'.lost == w.lost
    requires w'.sandbox ==> w'.rows == w.rows && w'.access == w.access
    requires forall o <- w'.objs :: o in w.objs || JustMade(script, w', o)
    ensures Local(script, w0, w', done)
  {
    hide Targets, Shaped, JustMade, InRouteLoop;
    assert w.rows[..|w.rows| - 1] == done && w.rows[|w.rows| - 1] == row;
  }

  lemma CreatedIsLocal(script: Script, w0: World, w: World, done: seq<Resources>, row: Resources, shared: set<string>,
                       kind: Kind, groups: set<string>)
    requires Mine(w0, w, done, row, shared) && w0.lost <= w.lost
    ensures Local(script, w0, CreateObject(script, w, kind, groups).0, done)
  {
    hide Mine, Local;
    MadeIsLocal(script, w0, w, CreateObject(script, w, kind, groups).0, done, row, shared);
  }

  lemma StageLocal(script: Script, w0: World, w: World, done: seq<Resources>, row: Resources, shared: set<string>,
                   kind: Kind, groups: set<string>)
    requires Sound(script, w0) && LostThere(w0) && Grows(script, w0, w)
    requires Mine(w0, w, done, row, shared) && Unset(row, kind)
    requires Known(w, groups) && groups <= if kind.Group? then {} else Ids(row.group) + shared
    ensures forall p <- StageMoments(script, w, row, kind, groups) :: Local(script, w0, p, done)
  {
    hide Sound, Known, Mine, Unset, LostThere, JustMade, InRouteLoop;
    SoundStays(script, w0, w);
    StageMine(script, w0, w, done, row, shared, kind, groups);
    CreatedIsLocal(script, w0, w, done, row, shared, kind, groups);
    var (w', row', ok) := Stage(script, w, row, kind, groups);
    if w'.sandbox {
      MineIsLocal(script, w0, w', done, row', shared);
    }
  }

  lemma RouteIsLocal(script: Script, w0: World, w: World, p: World, done: seq<Resources>, row: Resources,
                     shared: set<string>, ids: seq<string>, groups: set<string>)
    requires Mine(w0, w, done, row, shared) && w0.lost <= w.lost
    requires row.routeIds.None? && Ids(row.group) != {} && Ids(row.group) <= groups
    requires RoutesMade(script, w, p, ids, groups)
    ensures Local(script, w0, p, done)
  {
    assert w.rows[..|w.rows| - 1] == done;
  }

  lemma {:induction false} RoutesLocal(script: Script, w0: World, w: World, done: seq<Resources>, row: Resources,
                                       shared: set<string>, routes: seq<string>, groups: set<string>)
    requires Sound(script, w) && Known(w, groups) && w0.lost <= w.lost
    requires Mine(w0, w, done, row, shared)
    requires row.routeIds.None? && Ids(row.group) != {} && Ids(row.group) <= groups
    ensures forall p <- RoutesMoments(script, w, routes, groups) :: Local(script, w0, p, done)
  {
    if routes != [] {
      var before := routes[..|routes| - 1];
      RoutesLocal(script, w0, w, done, row, shared, before, groups);
      var (w1, ids, ok) := CreateRoutes(script, w, before, groups);
      RoutesGrow(script, w, before, groups);
      RouteMade(script, w, w1, ids, groups);
      var (w2, id) := CreateObject(script, w1, Route, groups);
      RouteIsLocal(script, w0, w, w2, done, row, shared, if id.Some? then ids + [id.value] else ids, groups);
    }
  }

  lemma StageRoutesLocal(script: Script, w0: World, w: World, done: seq<Resources>, row: Resources, shared: set<string>,
                         routes: seq<string>, groups: set<string>)
    requires Sound(script, w0) && LostThere(w0) && Grows(script, w0, w)
    requires Mine(w0, w, done, row, shared) && row.routeIds.None? && Ids(row.group) != {}
    requires Known(w, groups) && Ids(row.group) <= groups <= Ids(row.group) + shared
    ensures forall p <- StageRoutesMoments(script, w, row, routes, groups) :: Local(script, w0, p, done)
  {
    hide Known, Mine, LostThere, JustMade, InRouteLoop;
    SoundStays(script, w0, w);
    hide Sound, Grows;
    RoutesLocal(script, w0, w, done, row, shared, routes, groups);
    StageRoutesMine(script, w0, w, done, row, shared, routes, groups);
    var (w', row', ok) := StageRoutes(script, w, row, routes, groups);
    if ok {
      MineIsLocal(script, w0, w', done, row', shared);
    }
  }

  lemma LinksLocal(script: Script, w0: World, w: World, done: seq<Resources>, row: Resources, routes: seq<string>,
                   shared: set<string>)
    requires Sound(script, w0) && LostThere(w0) && Known(w0, shared) && Grows(script, w0, w)
    requires Mine(w0, w, done, row, shared) && row.routeIds.None? && row.policy.None? && Ids(row.group) != {}
    ensures forall p <- LinksMoments(script, w, row, routes, shared) :: Local(script, w0, p, done)
  {
    hide Local, Stage, StageRoutes, Mine, Grows;
    var groups := Ids(row.group) + shared;
    GroupKnown(w0, w, done, row, shared);
    KnownStays(script, w0, w, shared);
    var (w1, row1, ok1) := StageRoutes(script, w, row, routes, groups);
    StageRoutesLocal(script, w0, w, done, row, shared, routes, groups);
    StageRoutesMine(script, w0, w, done, row, shared, routes, groups);
    if ok1 {
      GroupKnown(w0, w1, done, row1, shared);
      KnownStays(script, w0, w1, shared);
      StageLocal(script, w0, w1, done, row1, shared, Policy, groups);
    }
  }

  lemma RowLocal(script: Script, w0: World, w: World, done: seq<Resources>, row: Resources, routes: seq<string>,
                 shared: set<string>)
    requires Sound(script, w0) && LostThere(w0) && Known(w0, shared) && Grows(script, w0, w)
    requires row == BlankRow(row.host) && Mine(w0, w, done, row, shared)
    ensures forall p <- RowMoments(script, w, row, routes, shared) :: Local(script, w0, p, done)
  {
    var (w1, row1, ok1) := Stage(script, w, row, Group, {});
    StageMine(script, w0, w, done, row, shared, Group, {});
    StageLocal(script, w0, w, done, row, shared, Group, {});
    if ok1 {
      GroupKnown(w0, w1, done, row1, shared);
      var (w2, row2, ok2) := Stage(script, w1, row1, SetupKey, Ids(row1.group));
      StageMine(script, w0, w1, done, row1, shared, SetupKey, Ids(row1.group));
      StageLocal(script, w0, w1, done, row1, shared, SetupKey, Ids(row1.group));
      if ok2 {
        LinksLocal(script, w0, w2, done, row2, routes, shared);
      }
    }
  }

  lemma EntrypointLocal(script: Script, w0: World, done: seq<Resources>, ep: Entrypoint, shared: set<string>)
    requires Sound(script, w0) && LostThere(w0) && Known(w0, shared)
    requires w0.sandbox && w0.rows == done && Find(done, ep.name).None?
    ensures forall p <- EntrypointMoments(script, w0, ep, shared) :: Local(script, w0, p, done)
  {
    var (w1, found) := GetOrCreateRow(script, w0, ep.name);
    NewRowMine(script, w0, done, ep.name, shared);
    GetOrCreateGrows(script, w0, ep.name);
    if found.Some? {
      MineIsLocal(script, w0, w1, done, found.value, shared);
      RowLocal(script, w0, w1, done, found.value, ep.routes, shared);
    }
  }

  lemma OneLocal(script: Script, w0: World, done: seq<Resources>, ep: Entrypoint, shared: set<string>)
    requires Sound(script, w0) && LostThere(w0) && Known(w0, shared)
    requires w0.sandbox && w0.rows == done && Find(done, ep.name).None?
    ensures forall p <- OneMoments(script, w0, ep, shared) :: Local(script, w0, p, done)
  {
    EntrypointLocal(script, w0, done, ep, shared);
    var row := EntrypointMine(script, w0, done, ep, shared);
    var (w1, result) := ProvisionEntrypoint(script, w0, ep, shared);
    var p := GetRow(script, w1, ep.name).0;
    if p.sandbox {
      assert Mine(w0, p, done, row, shared);
      MineIsLocal(script, w0, p, done, row, shared);
    }
  }

  lemma LocalIsTracked(script: Script, w0: World, w: World, p: World, done: seq<Resources>, access: Access)
    requires Loop(script, w0, w, done, access, {}) && w.sandbox && Local(script, w, p, done)
    ensures Tracked(script, w0, p)
  {
    if p.sandbox {
      var last := p.rows[|p.rows| - 1];
      assert p.rows == done + [last];
      RowsTargetsSnoc(done, last);
      assert AllTargets(p.rows, p.access) == RowsTargets(done) + Targets(last) + AccessTargets(access);
      assert forall o <- RowsTargets(done) + AccessTargets(access) :: o in AllTargets(p.rows, p.access);
    }
  }

  lemma OneTracked(script: Script, w0: World, w: World, done: seq<Resources>, access: Access, stray: set<Obj>,
                   ep: Entrypoint)
    requires Loop(script, w0, w, done, access, stray) && WellKept(w) && Find(done, ep.name).None?
    ensures forall p <- OneMoments(script, w, ep, Ids(access.group)) :: Tracked(script, w0, p)
  {
    if w.sandbox {
      SharedKnown(script, w0, w, done, access, stray);
      OneLocal(script, w, done, ep, Ids(access.group));
      forall p <- OneMoments(script, w, ep, Ids(access.group))
        ensures Tracked(script, w0, p)
      {
        LocalIsTracked(script, w0, w, p, done, access);
      }
    }
  }

  lemma {:induction false} EachTracked(script: Script, w0: World, w: World, entrypoints: seq<Entrypoint>,
                                       access: Access)
    requires Loop(script, w0, w, [], access, {}) && DistinctNames(entrypoints)
    ensures forall p <- EachMoments(script, w, entrypoints, Ids(access.group)) :: Tracked(script, w0, p)
  {
    if entrypoints != [] {
      var k := |entrypoints| - 1;
      var before, ep := entrypoints[..k], entrypoints[k];
      EachTracked(script, w0, w, before, access);
      LoopHolds(script, w0, w, before, access);
      var (w1, done) := ProvisionEach(script, w, before, Ids(access.group));
      NameIsNew(done, entrypoints);
      OneTracked(script, w0, w1, done, access, Stray(script, w, before, Ids(access.group)), ep);
    }
  }

  // ---- The shared objects ----

  lemma SharedIsTracked(script: Script, w0: World, p: World, access: Access)
    requires SharedMine(w0, p, access) && w0.rows == []
    ensures Tracked(script, w0, p)
  {
    assert RowsTargets([]) == [];
  }

  lemma CreatedIsTracked(script: Script, w0: World, w: World, access: Access, kind: Kind, groups: set<string>)
    requires SharedMine(w0, w, access) && w0.rows == []
    ensures Tracked(script, w0, CreateObject(script, w, kind, groups).0)
  {
    assert RowsTargets([]) == [];
  }

  lemma AccessStageTracked(script: Script, w0: World, w: World, access: Access, kind: Kind, groups: set<string>)
    requires Sound(script, w0) && Grows(script, w0, w) && SharedMine(w0, w, access) && w0.rows == []
    requires AccessUnset(access, kind) && Known(w, groups) && groups <= if kind.Group? then {} else Ids(access.group)
    ensures forall p <- AccessStageMoments(script, w, access, kind, groups) :: Tracked(script, w0, p)
  {
    AccessStageMine(script, w0, w, access, kind, groups);
    CreatedIsTracked(script, w0, w, access, kind, groups);
    var (w', access', ok) := AccessStage(script, w, access, kind, groups);
    SharedIsTracked(script, w0, w', access');
  }

  lemma SharedTracked(script: Script, w0: World, dns: Option<seq<string>>)
    requires Sound(script, w0) && w0.access.None? && w0.rows == []
    ensures forall p <- SharedMoments(script, w0, dns) :: Tracked(script, w0, p)
  {
    var (w1, handle) := GetOrCreateAccess(script, w0);
    GetOrCreateGrows(script, w0, "");
    if handle.Some? {
      assert SharedMine(w0, w1, BLANK_ACCESS);
      SharedStagesTracked(script, w0, w1, dns);
    }
  }

  lemma SharedStagesTracked(script: Script, w0: World, w1: World, dns: Option<seq<string>>)
    requires Sound(script, w0) && w0.rows == [] && Grows(script, w0, w1) && SharedMine(w0, w1, BLANK_ACCESS)
    requires GetOrCreateAccess(script, w0) == (w1, Some(BLANK_ACCESS))
    ensures forall p <- SharedMoments(script, w0, dns) :: Tracked(script, w0, p)
  {
    hide Tracked, SharedMine, Grows, Sound;
    SharedIsTracked(script, w0, w1, BLANK_ACCESS);
    AccessStageTracked(script, w0, w1, BLANK_ACCESS, Group, {});
    AccessStageMine(script, w0, w1, BLANK_ACCESS, Group, {});
    ProvisionAccessMine(script, w0, w1);
    var (w2, access2, ok2) := AccessStage(script, w1, BLANK_ACCESS, Group, {});
    if ok2 {
      AccessGroupKnown(w0, w2, access2);
      AccessStageTracked(script, w0, w2, access2, SetupKey, Ids(access2.group));
    }
    var (w3, access3, _) := ProvisionAccess(script, w1, BLANK_ACCESS);
    AccessGroupKnown(w0, w3, access3);
    AccessStageTracked(script, w0, w3, access3, Nameservers, Ids(access3.group));
  }

  /**
   Behind every operation of provisioning, as long as the sandbox is there: each object made so far is
   named by a row, is the result of the call that has just returned, is a route of the route loop in
   progress, or a route that an interrupted loop has lost.
   */
  lemma {:induction false} EveryMomentIsTracked(script: Script, w: World, entrypoints: seq<Entrypoint>,
                                                dns: Option<seq<string>>)
    requires Start(script, w) && DistinctNames(entrypoints)
    ensures forall p <- AllMoments(script, w, entrypoints, dns) :: Tracked(script, w, p)
  {
    var (w1, access) := ProvisionShared(script, w, dns);
    SharedTracked(script, w, dns);
    ProvisionSharedMine(script, w, dns);
    if access.Some? && Truthy(access.value.group) {
      LoopBegins(script, w, w1, access.value);
      EachTracked(script, w, w1, entrypoints, access.value);
    }
  }
}
