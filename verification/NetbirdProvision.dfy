/**
 Provisioning of a sandbox's NetBird objects, and what it keeps at every step however its calls fail
 and whenever the sandbox disappears.
 */
module NetbirdProvision {
  import opened Common
  import opened Text
  import opened NetbirdWorld
  import opened NetbirdTeardown

  // ---- What the service does ----

  datatype Entrypoint = Entrypoint(name: string, routes: seq<string>)

  function Ids(id: Option<string>): set<string> {
    if Truthy(id) then {id.value} else {}
  }

  function WithId(row: Resources, kind: Kind, id: string): Resources {
    match kind
    case Group => row.(group := Some(id))
    case SetupKey => row.(key := Some(id))
    case Policy => row.(policy := Some(id))
    case _ => row
  }

  function AccessWithId(access: Access, kind: Kind, id: string): Access {
    match kind
    case Group => access.(group := Some(id))
    case SetupKey => access.(key := Some(id))
    case Nameservers => access.(nameservers := Some(id))
    case _ => access
  }

  /** One object created and its id saved in the row; the flag says whether both went well. */
  function Stage(script: Script, w: World, row: Resources, kind: Kind, groups: set<string>): (World, Resources, bool) {
    var (w1, id) := CreateObject(script, w, kind, groups);
    if id.None? then (w1, row, false)
    else
      var row1 := WithId(row, kind, id.value);
      var (w2, saved) := SaveRow(script, w1, row1);
      (w2, row1, saved)
  }

  /** The same for the shared objects. The handle has the id even when saving it fails. */
  function AccessStage(script: Script, w: World, access: Access, kind: Kind, groups: set<string>)
    : (World, Access, bool)
  {
    var (w1, id) := CreateObject(script, w, kind, groups);
    if id.None? then (w1, access, false)
    else
      var access1 := AccessWithId(access, kind, id.value);
      var (w2, saved) := SaveAccess(script, w1, access1);
      (w2, access1, saved)
  }

  /** A shared object is recorded when its call succeeds; going on takes the save as well. */
  lemma AccessStageIs(script: Script, w: World, access: Access, kind: Kind, groups: set<string>)
    ensures var (w', access', ok) := AccessStage(script, w, access, kind, groups);
            var made := script(w.tick).verdict.Succeeds?;
            && access' == (if made then AccessWithId(access, kind, script(w.tick).id) else access)
            && w'.tick == w.tick + (if made then 2 else 1)
            && (ok <==> made && w.sandbox && !script(w.tick).vanish && !script(w.tick + 1).vanish)
            && (ok ==> w'.sandbox && w'.access == Some(access'))
            && (w'.sandbox ==> w'.rows == w.rows)
  {
  }

  /** `_provision_access`. */
  function ProvisionAccess(script: Script, w: World, access: Access): (World, Access, bool) {
    var (w1, access1, ok) := AccessStage(script, w, access, Group, {});
    if ok then AccessStage(script, w1, access1, SetupKey, Ids(access1.group)) else (w1, access1, false)
  }

  /** `_provision_dns`. */
  function ProvisionDns(script: Script, w: World, access: Access, servers: seq<string>): (World, Access, bool) {
    if servers == [] || !Truthy(access.group) then (w, access, true)
    else AccessStage(script, w, access, Nameservers, Ids(access.group))
  }

  /** The route loop; with the ids it collected, and whether it came to its end. */
  function CreateRoutes(script: Script, w: World, routes: seq<string>, groups: set<string>)
    : (World, seq<string>, bool)
  {
    if routes == [] then (w, [], true)
    else
      var (w1, ids, ok) := CreateRoutes(script, w, routes[..|routes| - 1], groups);
      if !ok then (w1, ids, false)
      else
        var (w2, id) := CreateObject(script, w1, Route, groups);
        if id.None? then (w2, ids, false) else (w2, ids + [id.value], true)
  }

  function AsSet(targets: seq<Obj>): set<Obj> {
    set o | o in targets
  }

  /** The routes and the row that names them all; without the save, the routes are lost. */
  function StageRoutes(script: Script, w: World, row: Resources, routes: seq<string>, groups: set<string>)
    : (World, Resources, bool)
  {
    var (w1, ids, ok) := CreateRoutes(script, w, routes, groups);
    var row1 := row.(routeIds := Some(Join(ids)), routeCidrs := Some(Join(routes)));
    var (w2, saved) := if ok then SaveRow(script, w1, row1) else (w1, false);
    if saved then (w2, row1, true) else (w2.(lost := w2.lost + AsSet(Routes(ids))), row, false)
  }

  /** The second half of an entrypoint: what ties its host group to the access group. */
  function ProvisionLinks(script: Script, w: World, row: Resources, routes: seq<string>, shared: set<string>)
    : (World, Option<Resources>)
  {
    var (w1, row1, ok1) := StageRoutes(script, w, row, routes, Ids(row.group) + shared);
    if !ok1 then (w1, None)
    else
      var (w2, row2, ok2) := Stage(script, w1, row1, Policy, Ids(row1.group) + shared);
      (w2, if ok2 then Some(row2) else None)
  }

  function ProvisionRow(script: Script, w: World, row: Resources, routes: seq<string>, shared: set<string>)
    : (World, Option<Resources>)
  {
    var (w1, row1, ok1) := Stage(script, w, row, Group, {});
    if !ok1 then (w1, None)
    else
      var (w2, row2, ok2) := Stage(script, w1, row1, SetupKey, Ids(row1.group));
      if !ok2 then (w2, None) else ProvisionLinks(script, w2, row2, routes, shared)
  }

  /** `_provision_single_entrypoint`; `None` when it raises. */
  function ProvisionEntrypoint(script: Script, w: World, ep: Entrypoint, shared: set<string>)
    : (World, Option<Resources>)
  {
    var (w1, row) := GetOrCreateRow(script, w, ep.name);
    if row.None? then (w1, None) else ProvisionRow(script, w1, row.value, ep.routes, shared)
  }

  /** One round of the entrypoint loop: after a failure the partial row is loaded, if it still exists. */
  function ProvisionOne(script: Script, w: World, created: seq<Resources>, ep: Entrypoint, shared: set<string>)
    : (World, seq<Resources>)
  {
    var (w1, row) := ProvisionEntrypoint(script, w, ep, shared);
    var (w2, found) := if row.Some? then (w1, row) else GetRow(script, w1, ep.name);
    (w2, if found.Some? then created + [found.value] else created)
  }

  function ProvisionEach(script: Script, w: World, entrypoints: seq<Entrypoint>, shared: set<string>)
    : (World, seq<Resources>)
  {
    if entrypoints == [] then (w, [])
    else
      var (w1, created) := ProvisionEach(script, w, entrypoints[..|entrypoints| - 1], shared);
      ProvisionOne(script, w1, created, entrypoints[|entrypoints| - 1], shared)
  }

  lemma NextRound(script: Script, w: World, entrypoints: seq<Entrypoint>, shared: set<string>, k: nat)
    requires k < |entrypoints|
    ensures var (w1, created) := ProvisionEach(script, w, entrypoints[..k], shared);
            ProvisionEach(script, w, entrypoints[..k + 1], shared)
            == ProvisionOne(script, w1, created, entrypoints[k], shared)
  {
    assert entrypoints[..k + 1][..k] == entrypoints[..k];
  }

  /** The shared access objects; `None` when not even their row could be made. */
  function ProvisionShared(script: Script, w: World, dns: Option<seq<string>>): (World, Option<Access>) {
    var (w1, handle) := GetOrCreateAccess(script, w);
    if handle.None? then (w1, None)
    else
      var (w2, access, ok) := ProvisionAccess(script, w1, handle.value);
      if Truthy(access.group) && dns.Some? then
        var (w3, access3, ok3) := ProvisionDns(script, w2, access, dns.value);
        (w3, Some(access3))
      else (w2, Some(access))
  }

  /** What has come of provisioning when it reaches its end guard. */
  function ProvisionAll(script: Script, w: World, entrypoints: seq<Entrypoint>, dns: Option<seq<string>>)
    : (World, seq<Resources>, Option<Access>)
  {
    var (w1, access) := ProvisionShared(script, w, dns);
    if access.Some? && Truthy(access.value.group) then
      var (w2, created) := ProvisionEach(script, w1, entrypoints, Ids(access.value.group));
      (w2, created, access)
    else (w1, [], access)
  }

  /** When the sandbox is gone, everything recorded is torn down. */
  function EndGuard(script: Script, w: World, created: seq<Resources>, access: Option<Access>): World {
    var (w1, alive) := Exists(script, w);
    if alive then w1 else DestroyAll(script, w1, created, access, None)
  }

  /** `_provision_netbird_for_sandbox` with a configured client and known settings. */
  function Provision(script: Script, w: World, entrypoints: seq<Entrypoint>, dns: Option<seq<string>>): World {
    if entrypoints == [] && dns.None? then w
    else
      var (w1, alive) := Exists(script, w);
      if !alive then w1
      else
        var (w2, created, access) := ProvisionAll(script, w1, entrypoints, dns);
        EndGuard(script, w2, created, access)
  }

  // ---- What every step keeps ----

  /** Ids the server hands out are all different, and can stand in a comma-separated list. */
  ghost predicate GoodIds(script: Script) {
    && (forall t: nat :: Plain(script(t).id))
    && (forall t: nat, u: nat :: t != u ==> Differ(script, t, u))
  }

  /** The ids handed out at two points of a run differ. */
  predicate Differ(script: Script, t: nat, u: nat) {
    script(t).id != script(u).id
  }

  /** Ids still to be handed out are not in use. */
  ghost predicate Fresh(script: Script, w: World) {
    forall t: nat, o <- w.objs :: w.tick <= t ==> o.id != script(t).id && script(t).id !in w.objs[o]
  }

  ghost predicate Made(script: Script, a: nat, b: nat, o: Obj) {
    exists t: nat :: a <= t < b && o.id == script(t).id
  }

  predicate WellKept(w: World) {
    !w.sandbox ==> w.rows == [] && w.access == None
  }

  /** Provisioning only adds objects, and a sandbox that is gone stays gone. */
  ghost predicate Grows(script: Script, w: World, w': World) {
    && w.tick <= w'.tick && w'.strict == w.strict
    && (w'.sandbox ==> w.sandbox)
    && (WellKept(w) ==> WellKept(w'))
    && (forall o <- w.objs :: o in w'.objs && w'.objs[o] == w.objs[o])
    && (forall o <- w'.objs :: o in w.objs || Made(script, w.tick, w'.tick, o))
    && (Fresh(script, w) ==> Fresh(script, w'))
    && w.lost <= w'.lost
    && (forall o <- w'.lost :: o in w.lost || (o.kind.Route? && o in w'.objs && o !in w.objs))
  }

  ghost predicate Known(w: World, groups: set<string>) {
    forall g <- groups :: exists o <- w.objs :: o.id == g
  }

  lemma GrowsJoins(script: Script, w: World, w1: World, w2: World)
    requires Grows(script, w, w1) && Grows(script, w1, w2)
    ensures Grows(script, w, w2)
  {
    forall o <- w2.objs | o !in w.objs
      ensures Made(script, w.tick, w2.tick, o)
    {
      if o in w1.objs {
        assert Made(script, w.tick, w1.tick, o);
      } else {
        assert Made(script, w1.tick, w2.tick, o);
      }
    }
  }

  lemma AskedGrows(script: Script, w: World)
    ensures Grows(script, w, Asked(script, w))
  {
  }

  lemma KnownStays(script: Script, w: World, w': World, groups: set<string>)
    requires Grows(script, w, w') && Known(w, groups)
    ensures Known(w', groups)
  {
    forall g <- groups
      ensures exists o <- w'.objs :: o.id == g
    {
      var o :| o in w.objs && o.id == g;
      assert o in w'.objs;
    }
  }

  lemma KnownIsUsed(script: Script, w: World, groups: set<string>, t: nat)
    requires Fresh(script, w) && Known(w, groups) && w.tick <= t
    ensures script(t).id !in groups
  {
    forall g <- groups
      ensures g != script(t).id
    {
      var o :| o in w.objs && o.id == g;
      assert o.id != script(t).id;
    }
  }

  /** A created object is new, and it is there with the references it was given. */
  lemma {:induction false} CreateGrows(script: Script, w: World, kind: Kind, groups: set<string>)
    requires GoodIds(script) && Fresh(script, w) && Known(w, groups)
    ensures var (w', id) := CreateObject(script, w, kind, groups);
            && Grows(script, w, w')
            && w'.lost == w.lost
            && (id.None? ==> w'.objs == w.objs)
            && (id.Some? ==> Obj(kind, id.value) !in w.objs && w'.objs == w.objs[Obj(kind, id.value) := groups]
                             && Plain(id.value))
  {
    var (w', id) := CreateObject(script, w, kind, groups);
    if id.Some? {
      var new_ := Obj(kind, id.value);
      assert Made(script, w.tick, w'.tick, new_);
      forall t: nat, o <- w'.objs | w'.tick <= t
        ensures o.id != script(t).id && script(t).id !in w'.objs[o]
      {
        if o == new_ {
          assert Differ(script, w.tick, t);
          KnownIsUsed(script, w, groups, t);
        }
      }
    }
  }

  // ---- Every piece of provisioning only grows the cloud ----

  /** A world that provisioning can be at. */
  ghost predicate Sound(script: Script, w: World) {
    GoodIds(script) && Fresh(script, w) && WellKept(w)
  }

  lemma SoundStays(script: Script, w: World, w': World)
    requires Sound(script, w) && Grows(script, w, w')
    ensures Sound(script, w') && w.lost <= w'.lost
    ensures forall o <- w.objs :: o in w'.objs && w'.objs[o] == w.objs[o]
  {
  }

  lemma SaveRowGrows(script: Script, w: World, row: Resources)
    ensures Grows(script, w, SaveRow(script, w, row).0)
  {
  }

  lemma SaveAccessGrows(script: Script, w: World, access: Access)
    ensures Grows(script, w, SaveAccess(script, w, access).0)
  {
  }

  lemma GetOrCreateGrows(script: Script, w: World, host: string)
    ensures Grows(script, w, GetOrCreateRow(script, w, host).0)
    ensures Grows(script, w, GetOrCreateAccess(script, w).0)
  {
  }

  lemma StageGrows(script: Script, w: World, row: Resources, kind: Kind, groups: set<string>)
    requires Sound(script, w) && Known(w, groups)
    ensures Grows(script, w, Stage(script, w, row, kind, groups).0)
  {
    var (w1, id) := CreateObject(script, w, kind, groups);
    CreateGrows(script, w, kind, groups);
    if id.Some? {
      var row1 := WithId(row, kind, id.value);
      SaveRowGrows(script, w1, row1);
      GrowsJoins(script, w, w1, SaveRow(script, w1, row1).0);
    }
  }

  lemma AccessStageGrows(script: Script, w: World, access: Access, kind: Kind, groups: set<string>)
    requires Sound(script, w) && Known(w, groups)
    ensures Grows(script, w, AccessStage(script, w, access, kind, groups).0)
  {
    var (w1, id) := CreateObject(script, w, kind, groups);
    CreateGrows(script, w, kind, groups);
    if id.Some? {
      var access1 := AccessWithId(access, kind, id.value);
      SaveAccessGrows(script, w1, access1);
      GrowsJoins(script, w, w1, SaveAccess(script, w1, access1).0);
    }
  }

  /** From `w` to `w'` exactly the routes with these ids were made; no row was touched. */
  ghost predicate RoutesMade(script: Script, w: World, w': World, ids: seq<string>, groups: set<string>) {
    && Grows(script, w, w')
    && w'.lost == w.lost
    && (w'.sandbox ==> w'.rows == w.rows && w'.access == w.access)
    && (forall o <- w'.objs :: o in w.objs || o in Routes(ids))
    && (forall o <- Routes(ids) :: o in w'.objs && o !in w.objs && w'.objs[o] == groups)
    && (forall i | 0 <= i < |ids| :: Plain(ids[i]))
  }

  lemma RouteAdded(w: World, w1: World, w2: World, ids: seq<string>, id: string, groups: set<string>)
    requires forall o <- w1.objs :: o in w.objs || o in Routes(ids)
    requires forall o <- Routes(ids) :: o in w1.objs && o !in w.objs && w1.objs[o] == groups
    requires forall o <- w.objs :: o in w1.objs
    requires Obj(Route, id) !in w1.objs && w2.objs == w1.objs[Obj(Route, id) := groups]
    ensures forall o <- w2.objs :: o in w.objs || o in Routes(ids + [id])
    ensures forall o <- Routes(ids + [id]) :: o in w2.objs && o !in w.objs && w2.objs[o] == groups
  {
    OneMoreRoute(ids, id);
  }

  lemma RouteCreated(script: Script, w: World, w1: World, groups: set<string>)
    requires Sound(script, w) && Known(w, groups) && Grows(script, w, w1)
    ensures var (w2, id) := CreateObject(script, w1, Route, groups);
            && Grows(script, w, w2)
            && w2.lost == w1.lost
            && (w2.sandbox ==> w1.sandbox && w2.rows == w1.rows && w2.access == w1.access)
            && (id.None? ==> w2.objs == w1.objs)
            && (id.Some? ==> Obj(Route, id.value) !in w1.objs && w2.objs == w1.objs[Obj(Route, id.value) := groups]
                             && Plain(id.value))
  {
    KnownStays(script, w, w1, groups);
    CreateGrows(script, w1, Route, groups);
    GrowsJoins(script, w, w1, CreateObject(script, w1, Route, groups).0);
  }

  lemma PlainIsTruthy(id: string)
    requires Plain(id)
    ensures Truthy(Some(id))
  {
  }

  lemma AllPlain(ids: seq<string>, id: string)
    requires Plain(id) && forall i | 0 <= i < |ids| :: Plain(ids[i])
    ensures forall i | 0 <= i < |ids + [id]| :: Plain((ids + [id])[i])
  {
    hide Plain;
  }

  lemma RouteMade(script: Script, w: World, w1: World, ids: seq<string>, groups: set<string>)
    requires Sound(script, w) && Known(w, groups) && RoutesMade(script, w, w1, ids, groups)
    ensures var (w2, id) := CreateObject(script, w1, Route, groups);
            RoutesMade(script, w, w2, if id.Some? then ids + [id.value] else ids, groups)
  {
    RouteCreated(script, w, w1, groups);
    var (w2, id) := CreateObject(script, w1, Route, groups);
    if id.Some? {
      OneRouteMore(script, w, w1, w2, ids, id.value, groups);
    }
  }

  lemma OneRouteMore(script: Script, w: World, w1: World, w2: World, ids: seq<string>, id: string,
                     groups: set<string>)
    requires RoutesMade(script, w, w1, ids, groups) && Grows(script, w, w2) && w2.lost == w1.lost && Plain(id)
    requires w2.sandbox ==> w1.sandbox && w2.rows == w1.rows && w2.access == w1.access
    requires Obj(Route, id) !in w1.objs && w2.objs == w1.objs[Obj(Route, id) := groups]
    ensures RoutesMade(script, w, w2, ids + [id], groups)
  {
    assert forall o <- w.objs :: o in w1.objs;
    hide Grows, Plain, Routes;
    AllPlain(ids, id);
    RouteAdded(w, w1, w2, ids, id, groups);
  }

  lemma {:induction false} RoutesGrow(script: Script, w: World, routes: seq<string>, groups: set<string>)
    requires Sound(script, w) && Known(w, groups)
    ensures var (w', ids, ok) := CreateRoutes(script, w, routes, groups);
            RoutesMade(script, w, w', ids, groups)
  {
    if routes != [] {
      var (w1, ids, ok) := CreateRoutes(script, w, routes[..|routes| - 1], groups);
      RoutesGrow(script, w, routes[..|routes| - 1], groups);
      if ok {
        RouteMade(script, w, w1, ids, groups);
      }
    }
  }

  lemma OneMoreRoute(ids: seq<string>, id: string)
    ensures Routes(ids + [id]) == Routes(ids) + [Obj(Route, id)]
  {
  }

  lemma StageRoutesGrows(script: Script, w: World, row: Resources, routes: seq<string>, groups: set<string>)
    requires Sound(script, w) && Known(w, groups)
    ensures Grows(script, w, StageRoutes(script, w, row, routes, groups).0)
  {
    var (w1, ids, ok) := CreateRoutes(script, w, routes, groups);
    RoutesGrow(script, w, routes, groups);
    var row1 := row.(routeIds := Some(Join(ids)), routeCidrs := Some(Join(routes)));
    if ok {
      SaveRowGrows(script, w1, row1);
      GrowsJoins(script, w, w1, SaveRow(script, w1, row1).0);
    }
  }

  // ---- One entrypoint: its row names everything made for it but lost routes ----

  ghost predicate Shaped(objs: Objects, targets: seq<Obj>, groups: set<string>) {
    forall o <- targets :: o in objs && objs[o] <= if o.kind.Group? then {} else groups
  }

  /** What was made from `w0` to `w` is named by the row, or lost; the row is the last one stored. */
  ghost predicate Mine(w0: World, w: World, done: seq<Resources>, row: Resources, shared: set<string>) {
    && w.sandbox && w.rows == done + [row] && w.access == w0.access
    && (forall o <- w.objs :: o in w0.objs || o in Targets(row) || o in w.lost)
    && (forall o <- Targets(row) :: o !in w0.objs && o !in w.lost)
    && Shaped(w.objs, Targets(row), Ids(row.group) + shared)
  }

  predicate Unset(row: Resources, kind: Kind) {
    match kind
    case Group => row.group.None?
    case SetupKey => row.key.None?
    case Policy => row.policy.None?
    case _ => false
  }

  lemma WithIdTargets(row: Resources, kind: Kind, id: string, o: Obj)
    requires Unset(row, kind) && id != ""
    ensures o in Targets(WithId(row, kind, id)) <==> o in Targets(row) || o == Obj(kind, id)
  {
  }

  lemma WithRoutesTargets(row: Resources, ids: seq<string>, cidrs: Option<string>, o: Obj)
    requires row.routeIds.None? && forall i | 0 <= i < |ids| :: Plain(ids[i])
    ensures o in Targets(row.(routeIds := Some(Join(ids)), routeCidrs := cidrs))
            <==> o in Targets(row) || o in Routes(ids)
  {
    ListRoundTrip(ids);
  }

  lemma UpsertLast(done: seq<Resources>, row: Resources, row1: Resources)
    requires row1.host == row.host
    ensures Upsert(done + [row], row1) == done + [row1]
  {
    assert (done + [row])[..|done + [row]| - 1] == done;
  }

  lemma MadeIsMine(w0: World, w: World, w': World, done: seq<Resources>, row: Resources, shared: set<string>,
                   kind: Kind, id: string, groups: set<string>)
    requires Mine(w0, w, done, row, shared) && Unset(row, kind) && id != ""
    requires forall o <- w0.objs :: o in w.objs
    requires forall o <- w.lost :: o in w.objs
    requires Obj(kind, id) !in w.objs && w'.objs == w.objs[Obj(kind, id) := groups] && w'.lost == w.lost
    requires groups <= if kind.Group? then {} else Ids(row.group) + shared
    requires w'.sandbox && w'.access == w0.access && w'.rows == done + [WithId(row, kind, id)]
    ensures Mine(w0, w', done, WithId(row, kind, id), shared)
  {
    forall o {
      WithIdTargets(row, kind, id, o);
    }
    assert Ids(row.group) <= Ids(WithId(row, kind, id).group);
  }

  /** The lost routes are among the objects there are. */
  ghost predicate LostThere(w: World) {
    forall o <- w.lost :: o in w.objs
  }

  lemma LostStayThere(script: Script, w: World, w': World)
    requires Grows(script, w, w') && LostThere(w)
    ensures LostThere(w')
  {
  }

  /** How a stage ends: with the row it began with, or with the row that names the new object. */
  lemma StageEnds(script: Script, w: World, row: Resources, kind: Kind, groups: set<string>)
    ensures var (w', row', ok) := Stage(script, w, row, kind, groups);
            var (w1, id) := CreateObject(script, w, kind, groups);
            && w'.objs == w1.objs && w'.lost == w1.lost && row'.host == row.host
            && row' == (if id.Some? then WithId(row, kind, id.value) else row)
            && (ok ==> id.Some? && w'.sandbox)
            && (w'.sandbox ==>
                  w.sandbox && w'.access == w.access && w'.rows == if id.Some? then Upsert(w.rows, row') else w.rows)
  {
  }

  lemma StageMine(script: Script, w0: World, w: World, done: seq<Resources>, row: Resources, shared: set<string>,
                  kind: Kind, groups: set<string>)
    requires Sound(script, w0) && LostThere(w0) && Grows(script, w0, w)
    requires Mine(w0, w, done, row, shared) && Unset(row, kind)
    requires Known(w, groups) && groups <= if kind.Group? then {} else Ids(row.group) + shared
    ensures var (w', row', ok) := Stage(script, w, row, kind, groups);
            && Grows(script, w0, w')
            && (w'.sandbox ==> Mine(w0, w', done, row', shared) && w'.lost == w.lost)
            && (ok ==> w'.sandbox && exists id :: id != "" && row' == WithId(row, kind, id))
            && row'.host == row.host
  {
    assert Sound(script, w);
    StageGrows(script, w, row, kind, groups);
    StageEnds(script, w, row, kind, groups);
    var (w', row', ok) := Stage(script, w, row, kind, groups);
    GrowsJoins(script, w0, w, w');
    CreateGrows(script, w, kind, groups);
    LostStayThere(script, w0, w);
    StageIsMine(w0, w, w', done, row, shared, kind, CreateObject(script, w, kind, groups).1, groups) by {
      assert forall o <- w0.objs :: o in w.objs;
    }
    hide Grows, Sound, Mine, Known, LostThere, Stage, CreateObject, Unset;
    var id := CreateObject(script, w, kind, groups).1;
    assert ok ==> id.value != "" && row' == WithId(row, kind, id.value);
  }

  lemma StageIsMine(w0: World, w: World, w': World, done: seq<Resources>, row: Resources, shared: set<string>,
                    kind: Kind, id: Option<string>, groups: set<string>)
    requires Mine(w0, w, done, row, shared) && Unset(row, kind) && LostThere(w) && (id.Some? ==> id.value != "")
    requires forall o <- w0.objs :: o in w.objs
    requires groups <= if kind.Group? then {} else Ids(row.group) + shared
    requires w'.lost == w.lost
    requires if id.Some? then Obj(kind, id.value) !in w.objs && w'.objs == w.objs[Obj(kind, id.value) := groups]
             else w'.objs == w.objs
    ensures var row' := if id.Some? then WithId(row, kind, id.value) else row;
            w'.sandbox && w'.access == w.access && w'.rows == (if id.Some? then Upsert(w.rows, row') else w.rows) ==>
              Mine(w0, w', done, row', shared)
  {
    if id.Some? {
      var row' := WithId(row, kind, id.value);
      UpsertLast(done, row, row');
      if w'.sandbox && w'.access == w.access && w'.rows == Upsert(w.rows, row') {
        MadeIsMine(w0, w, w', done, row, shared, kind, id.value, groups);
      }
    }
  }

  lemma ShapedMore(objs: Objects, objs': Objects, targets: seq<Obj>, ids: seq<string>, targets': seq<Obj>,
                   groups: set<string>)
    requires Shaped(objs, targets, groups)
    requires forall o <- objs :: o in objs' && objs'[o] == objs[o]
    requires forall o <- Routes(ids) :: o in objs' && objs'[o] <= groups
    requires forall o :: o in targets' <==> o in targets || o in Routes(ids)
    ensures Shaped(objs', targets', groups)
  {
  }

  lemma RoutesSaved(w0: World, w: World, w': World, done: seq<Resources>, row: Resources, row': Resources,
                    shared: set<string>, ids: seq<string>, groups: set<string>)
    requires Mine(w0, w, done, row, shared) && row'.group == row.group
    requires forall o :: o in Targets(row') <==> o in Targets(row) || o in Routes(ids)
    requires forall o <- w0.objs :: o in w.objs
    requires LostThere(w) && w'.lost == w.lost
    requires forall o <- w.objs :: o in w'.objs && w'.objs[o] == w.objs[o]
    requires forall o <- w'.objs :: o in w.objs || o in Routes(ids)
    requires forall o <- Routes(ids) :: o in w'.objs && o !in w.objs && w'.objs[o] == groups
    requires groups <= Ids(row.group) + shared
    requires w'.sandbox && w'.access == w0.access && w'.rows == done + [row']
    ensures Mine(w0, w', done, row', shared)
  {
    ShapedMore(w.objs, w'.objs, Targets(row), ids, Targets(row'), Ids(row.group) + shared);
  }

  lemma RoutesLost(w0: World, w: World, w': World, done: seq<Resources>, row: Resources, shared: set<string>,
                   ids: seq<string>)
    requires Mine(w0, w, done, row, shared)
    requires forall o <- w.objs :: o in w'.objs && w'.objs[o] == w.objs[o]
    requires forall o <- w'.objs :: o in w.objs || o in Routes(ids)
    requires forall o <- Routes(ids) :: o !in w.objs
    requires w'.lost == w.lost + AsSet(Routes(ids))
    requires w'.sandbox && w'.access == w0.access && w'.rows == w.rows
    ensures Mine(w0, w', done, row, shared)
  {
  }

  lemma StageRoutesEnds(script: Script, w: World, row: Resources, routes: seq<string>, groups: set<string>)
    ensures var (w', row', ok) := StageRoutes(script, w, row, routes, groups);
            var (w1, ids, made) := CreateRoutes(script, w, routes, groups);
            && w'.objs == w1.objs && (w'.sandbox ==> w1.sandbox && w'.access == w1.access)
            && w'.lost == (if ok then w1.lost else w1.lost + AsSet(Routes(ids)))
            && row' == (if ok then row.(routeIds := Some(Join(ids)), routeCidrs := Some(Join(routes))) else row)
            && (ok ==> w'.sandbox && w1.sandbox && w'.rows == Upsert(w1.rows, row'))
            && (w'.sandbox && !ok ==> w'.rows == w1.rows)
  {
    hide CreateRoutes, Upsert, Routes, Join;
  }

  lemma StageRoutesMine(script: Script, w0: World, w: World, done: seq<Resources>, row: Resources, shared: set<string>,
                        routes: seq<string>, groups: set<string>)
    requires Sound(script, w0) && LostThere(w0) && Grows(script, w0, w)
    requires Mine(w0, w, done, row, shared) && row.routeIds.None?
    requires Known(w, groups) && groups <= Ids(row.group) + shared
    ensures var (w', row', ok) := StageRoutes(script, w, row, routes, groups);
            && Grows(script, w0, w')
            && (w'.sandbox ==> Mine(w0, w', done, row', shared))
            && (ok ==> w'.sandbox && row'.policy == row.policy && row'.group == row.group)
            && row'.host == row.host
  {
    SoundStays(script, w0, w);
    StageRoutesGrows(script, w, row, routes, groups);
    var (w', row', ok) := StageRoutes(script, w, row, routes, groups);
    GrowsJoins(script, w0, w, w');
    RoutesGrow(script, w, routes, groups);
    LostStayThere(script, w0, w);
    StageRoutesEnds(script, w, row, routes, groups);
    var (w1, ids, made) := CreateRoutes(script, w, routes, groups);
    hide Sound, Known, StageRoutes;
    if w'.sandbox {
      RoutesAreMine(script, w0, w, w1, w', done, row, row', shared, routes, ids, groups, ok);
    }
  }

  lemma RoutesAreMine(script: Script, w0: World, w: World, w1: World, w': World, done: seq<Resources>, row: Resources,
                      row': Resources, shared: set<string>, routes: seq<string>, ids: seq<string>, groups: set<string>,
                      ok: bool)
    requires Mine(w0, w, done, row, shared) && LostThere(w) && row.routeIds.None?
    requires groups <= Ids(row.group) + shared && forall o <- w0.objs :: o in w.objs
    requires RoutesMade(script, w, w1, ids, groups) && w1.sandbox
    requires w'.objs == w1.objs && w'.sandbox && w'.access == w1.access
    requires w'.lost == if ok then w1.lost else w1.lost + AsSet(Routes(ids))
    requires row' == if ok then row.(routeIds := Some(Join(ids)), routeCidrs := Some(Join(routes))) else row
    requires w'.rows == if ok then Upsert(w1.rows, row') else w1.rows
    ensures Mine(w0, w', done, row', shared)
  {
    assert forall o <- w.objs :: o in w1.objs && w1.objs[o] == w.objs[o];
    hide Grows;
    if ok {
      UpsertLast(done, row, row');
      forall o {
        WithRoutesTargets(row, ids, Some(Join(routes)), o);
      }
      hide Targets, Routes, Upsert, Join, Plain;
      RoutesSaved(w0, w, w', done, row, row', shared, ids, groups);
    } else {
      hide Targets, Upsert, Join, Plain;
      RoutesLost(w0, w, w', done, row, shared, ids);
    }
  }

  lemma NewRowMine(script: Script, w0: World, done: seq<Resources>, host: string, shared: set<string>)
    requires w0.sandbox && w0.rows == done && Find(done, host).None?
    ensures var (w', row) := GetOrCreateRow(script, w0, host);
            && (row.None? ==> !w'.sandbox)
            && (row.Some? ==> row.value == BlankRow(host) && Mine(w0, w', done, BlankRow(host), shared))
            && w'.lost == w0.lost && w'.objs == w0.objs
  {
  }

  /** How (a part of) the provisioning of an entrypoint ends, when it began at `w0`. */
  ghost predicate MineAfter(script: Script, w0: World, done: seq<Resources>, row: Resources, shared: set<string>,
                            w': World, result: Option<Resources>)
  {
    && Grows(script, w0, w')
    && (w'.sandbox ==> Mine(w0, w', done, row, shared))
    && (result.Some? ==> w'.sandbox && result.value == row)
  }

  /**
   Provisioning one entrypoint while the sandbox stays: whatever fails, its row is stored and names all
   that was made for it, except for routes that are lost.
   */
  lemma {:induction false} EntrypointMine(script: Script, w0: World, done: seq<Resources>, ep: Entrypoint,
                                          shared: set<string>)
    returns (row: Resources)
    requires Sound(script, w0) && LostThere(w0) && Known(w0, shared)
    requires w0.sandbox && w0.rows == done && Find(done, ep.name).None?
    ensures var (w', result) := ProvisionEntrypoint(script, w0, ep, shared);
            MineAfter(script, w0, done, row, shared, w', result)
    ensures row.host == ep.name
  {
    row := BlankRow(ep.name);
    var (w1, found) := GetOrCreateRow(script, w0, ep.name);
    NewRowMine(script, w0, done, ep.name, shared);
    GetOrCreateGrows(script, w0, ep.name);
    if found.Some? {
      row := RowMine(script, w0, w1, done, row, ep.routes, shared);
    }
  }

  lemma LinksMine(script: Script, w0: World, w: World, done: seq<Resources>, row: Resources, routes: seq<string>,
                  shared: set<string>) returns (row': Resources)
    requires Sound(script, w0) && LostThere(w0) && Known(w0, shared) && Grows(script, w0, w)
    requires Mine(w0, w, done, row, shared) && row.routeIds.None? && row.policy.None?
    ensures var (w', result) := ProvisionLinks(script, w, row, routes, shared);
            MineAfter(script, w0, done, row', shared, w', result)
    ensures row'.host == row.host
  {
    var groups := Ids(row.group) + shared;
    GroupKnown(w0, w, done, row, shared);
    KnownStays(script, w0, w, shared);
    var (w1, row1, ok1) := StageRoutes(script, w, row, routes, groups);
    StageRoutesMine(script, w0, w, done, row, shared, routes, groups);
    row' := row1;
    if ok1 {
      GroupKnown(w0, w1, done, row1, shared);
      KnownStays(script, w0, w1, shared);
      StageMine(script, w0, w1, done, row1, shared, Policy, groups);
      row' := Stage(script, w1, row1, Policy, groups).1;
    }
  }

  lemma RowMine(script: Script, w0: World, w: World, done: seq<Resources>, row: Resources, routes: seq<string>,
                shared: set<string>) returns (row': Resources)
    requires Sound(script, w0) && LostThere(w0) && Known(w0, shared) && Grows(script, w0, w)
    requires row == BlankRow(row.host) && Mine(w0, w, done, row, shared)
    ensures var (w', result) := ProvisionRow(script, w, row, routes, shared);
            MineAfter(script, w0, done, row', shared, w', result)
    ensures row'.host == row.host
  {
    var (w1, row1, ok1) := Stage(script, w, row, Group, {});
    StageMine(script, w0, w, done, row, shared, Group, {});
    row' := row1;
    if ok1 {
      GroupKnown(w0, w1, done, row1, shared);
      var (w2, row2, ok2) := Stage(script, w1, row1, SetupKey, Ids(row1.group));
      StageMine(script, w0, w1, done, row1, shared, SetupKey, Ids(row1.group));
      row' := row2;
      if ok2 {
        row' := LinksMine(script, w0, w2, done, row2, routes, shared);
      }
    }
  }

  lemma GroupKnown(w0: World, w: World, done: seq<Resources>, row: Resources, shared: set<string>)
    requires Mine(w0, w, done, row, shared)
    ensures Known(w, Ids(row.group))
  {
    if Truthy(row.group) {
      var o := Obj(Group, row.group.value);
      assert o in Named(Group, row.group);
      assert o in Targets(row);
    }
  }
}
