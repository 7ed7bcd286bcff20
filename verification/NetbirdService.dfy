/** The NetBird functions of the service as they run: rows are objects, and calls change the world. */
module NetbirdService {
  import opened Common
  import opened Text
  import opened NetbirdWorld
  import T = NetbirdTeardown
  import P = NetbirdProvision

  class AccessRow {
    var group: Option<string>
    var key: Option<string>
    var nameservers: Option<string>

    constructor (access: Access)
      ensures View() == access
    {
      group, key, nameservers := access.group, access.key, access.nameservers;
    }

    function View(): Access
      reads this
    {
      Access(group, key, nameservers)
    }
  }

  class ResourceRow {
    const host: string
    var group: Option<string>
    var key: Option<string>
    var routeIds: Option<string>
    var routeCidrs: Option<string>
    var policy: Option<string>

    constructor (row: Resources)
      ensures View() == row
    {
      host, group, key := row.host, row.group, row.key;
      routeIds, routeCidrs, policy := row.routeIds, row.routeCidrs, row.policy;
    }

    function View(): Resources
      reads this
    {
      Resources(host, group, key, routeIds, routeCidrs, policy)
    }

    method SetRouteIdList(ids: seq<string>)
      modifies this`routeIds
      ensures View() == old(View()).(routeIds := Some(Join(ids)))
      ensures (forall i | 0 <= i < |ids| :: Plain(ids[i])) ==> ListOf(routeIds) == ids
    {
      ListRoundTripIff(ids);
      routeIds := Some(Join(ids));
    }

    method GetRouteIdList() returns (ids: seq<string>)
      ensures ids == ListOf(routeIds)
    {
      if !Truthy(routeIds) {
        return [];
      }
      return NonEmpty(Split(routeIds.value));
    }

    method SetRouteCidrList(cidrs: seq<string>)
      modifies this`routeCidrs
      ensures View() == old(View()).(routeCidrs := Some(Join(cidrs)))
    {
      routeCidrs := Some(Join(cidrs));
    }
  }

  function Views(rows: seq<ResourceRow>): (views: seq<Resources>)
    reads set r | r in rows
    ensures |views| == |rows| && forall i | 0 <= i < |rows| :: views[i] == rows[i].View()
  {
    if rows == [] then [] else Views(rows[..|rows| - 1]) + [rows[|rows| - 1].View()]
  }

  /** The client and the database, with what happens to their operations one after the other. */
  class Surroundings {
    const script: Script
    var world: World

    constructor (script: Script, world: World)
      ensures this.script == script && this.world == world
    {
      this.script, this.world := script, world;
    }

    method Create(kind: Kind, groups: set<string>) returns (id: Option<string>)
      modifies this
      ensures (world, id) == CreateObject(script, old(world), kind, groups)
    {
      var r := CreateObject(script, world, kind, groups);
      world, id := r.0, r.1;
    }

    method Remove(o: Obj) returns (verdict: Verdict)
      modifies this
      ensures (world, verdict) == DeleteObject(script, old(world), o)
    {
      var r := DeleteObject(script, world, o);
      world, verdict := r.0, r.1;
    }

    method ListPeers(group: string) returns (verdict: Verdict, peers: seq<string>)
      modifies this
      ensures (world, verdict, peers) == ListGroupPeers(script, old(world), group)
    {
      var r := ListGroupPeers(script, world, group);
      world, verdict, peers := r.0, r.1, r.2;
    }

    method RemovePeer(peer: string) returns (verdict: Verdict)
      modifies this
      ensures (world, verdict) == DeleteOnePeer(script, old(world), peer)
    {
      var r := DeleteOnePeer(script, world, peer);
      world, verdict := r.0, r.1;
    }

    method SandboxExists() returns (alive: bool)
      modifies this
      ensures (world, alive) == Exists(script, old(world))
    {
      var r := Exists(script, world);
      world, alive := r.0, r.1;
    }

    /** `objects.get_or_create`; null when it raises. */
    method GetOrCreateAccess() returns (row: AccessRow?)
      modifies this
      ensures row != null ==> fresh(row)
      ensures (world, if row == null then None else Some(row.View()))
              == NetbirdWorld.GetOrCreateAccess(script, old(world))
    {
      var r := NetbirdWorld.GetOrCreateAccess(script, world);
      world := r.0;
      row := null;
      if r.1.Some? {
        row := new AccessRow(r.1.value);
      }
    }

    method SaveAccess(row: AccessRow) returns (saved: bool)
      modifies this
      ensures (world, saved) == NetbirdWorld.SaveAccess(script, old(world), row.View())
    {
      var r := NetbirdWorld.SaveAccess(script, world, row.View());
      world, saved := r.0, r.1;
    }

    method DeleteAccess()
      modifies this
      ensures world == NetbirdWorld.DeleteAccess(script, old(world))
    {
      world := NetbirdWorld.DeleteAccess(script, world);
    }

    method GetOrCreateRow(host: string) returns (row: ResourceRow?)
      modifies this
      ensures row != null ==> fresh(row)
      ensures (world, if row == null then None else Some(row.View()))
              == NetbirdWorld.GetOrCreateRow(script, old(world), host)
    {
      var r := NetbirdWorld.GetOrCreateRow(script, world, host);
      world := r.0;
      row := null;
      if r.1.Some? {
        row := new ResourceRow(r.1.value);
      }
    }

    /** `objects.get`; null when there is no such row. */
    method GetRow(host: string) returns (row: ResourceRow?)
      modifies this
      ensures row != null ==> fresh(row)
      ensures (world, if row == null then None else Some(row.View())) == NetbirdWorld.GetRow(script, old(world), host)
    {
      var r := NetbirdWorld.GetRow(script, world, host);
      world := r.0;
      row := null;
      if r.1.Some? {
        row := new ResourceRow(r.1.value);
      }
    }

    method SaveRow(row: ResourceRow) returns (saved: bool)
      modifies this
      ensures (world, saved) == NetbirdWorld.SaveRow(script, old(world), row.View())
    {
      var r := NetbirdWorld.SaveRow(script, world, row.View());
      world, saved := r.0, r.1;
    }

    method DeleteRow(row: ResourceRow)
      modifies this
      ensures world == NetbirdWorld.DeleteRow(script, old(world), row.host)
    {
      world := NetbirdWorld.DeleteRow(script, world, row.host);
    }

    /** Keeps account of routes whose ids will never be saved; nothing happens here but that. */
    method NoteLost(ids: seq<string>)
      modifies this
      ensures world == old(world).(lost := old(world).lost + P.AsSet(Routes(ids)))
    {
      world := world.(lost := world.lost + P.AsSet(Routes(ids)));
    }

    /** The first loads of a teardown: the access row, and whether there is anything at all. */
    method LoadAccess() returns (access: AccessRow?, any: bool)
      modifies this
      ensures access != null ==> fresh(access)
      ensures world == Asked(script, Asked(script, old(world)))
      ensures (if access == null then None else Some(access.View())) == Asked(script, old(world)).access
      ensures any == (world.rows != [] || access != null)
    {
      world := Asked(script, world);
      access := null;
      if world.access.Some? {
        access := new AccessRow(world.access.value);
      }
      world := Asked(script, world);
      any := world.rows != [] || access != null;
    }

    method LoadRows() returns (rows: seq<ResourceRow>)
      modifies this
      ensures forall r <- rows :: fresh(r)
      ensures world == Asked(script, old(world)) && Views(rows) == world.rows
    {
      world := Asked(script, world);
      rows := RowObjects(world.rows);
    }
  }

  method RowObjects(stored: seq<Resources>) returns (rows: seq<ResourceRow>)
    ensures forall r <- rows :: fresh(r)
    ensures Views(rows) == stored
  {
    rows := [];
    for i := 0 to |stored|
      invariant forall r <- rows :: fresh(r)
      invariant Views(rows) == stored[..i]
    {
      var row := new ResourceRow(stored[i]);
      ghost var before := rows;
      rows := rows + [row];
      assert rows[..|rows| - 1] == before && stored[..i + 1] == stored[..i] + [stored[i]];
    }
  }

  // ---- Teardown ----

  method Attempt(env: Surroundings, kind: Kind, id: Option<string>) returns (raised: bool)
    modifies env
    ensures (env.world, raised) == T.Attempt(env.script, old(env.world), Named(kind, id))
  {
    raised := false;
    if Truthy(id) {
      var verdict := env.Remove(Obj(kind, id.value));
      raised := verdict.Crashes?;
    }
  }

  /** `_delete_group_peers`. */
  method DeleteGroupPeers(env: Surroundings, group: Option<string>, deadline: Option<real>) returns (raised: bool)
    modifies env
    ensures (env.world, raised) == T.DeleteGroupPeers(env.script, old(env.world), group, deadline)
  {
    if !Truthy(group) {
      return false;
    }
    var verdict, peers := env.ListPeers(group.value);
    if !verdict.Succeeds? {
      return verdict.Crashes?;
    }
    ghost var begun := env.world;
    for i := 0 to |peers|
      invariant T.DeleteEachPeer(env.script, begun, peers, deadline)
                == T.DeleteEachPeer(env.script, env.world, peers[i..], deadline)
    {
      if T.Expired(env.world, deadline) {
        return false;
      }
      var dropped := env.RemovePeer(peers[i]);
      if dropped.Crashes? {
        return true;
      }
      assert peers[i..][1..] == peers[i + 1..];
    }
    return false;
  }

  method DeleteRoutes(env: Surroundings, ids: seq<string>, deadline: Option<real>) returns (flow: T.Flow)
    modifies env
    ensures (env.world, flow) == T.DeleteRoutes(env.script, old(env.world), ids, deadline)
  {
    for i := 0 to |ids|
      invariant T.DeleteRoutes(env.script, old(env.world), ids, deadline)
                == T.DeleteRoutes(env.script, env.world, ids[i..], deadline)
    {
      if T.Expired(env.world, deadline) {
        return T.Returns;
      }
      var verdict := env.Remove(Obj(Route, ids[i]));
      if verdict.Crashes? {
        return T.Raises;
      }
      assert ids[i..][1..] == ids[i + 1..];
    }
    return T.GoesOn;
  }

  /** `_destroy_single_entrypoint`. */
  method DestroyEntrypoint(env: Surroundings, row: ResourceRow, deadline: Option<real>) returns (raised: bool)
    modifies env
    ensures (env.world, raised) == T.DestroyEntrypoint(env.script, old(env.world), row.View(), deadline)
  {
    if T.Expired(env.world, deadline) {
      return false;
    }
    raised := Attempt(env, Policy, row.policy);
    if raised {
      return;
    }
    var ids := row.GetRouteIdList();
    var flow := DeleteRoutes(env, ids, deadline);
    if !flow.GoesOn? {
      return flow.Raises?;
    }
    if T.Expired(env.world, deadline) {
      return false;
    }
    raised := Attempt(env, SetupKey, row.key);
    if raised {
      return;
    }
    raised := DeleteGroupPeers(env, row.group, deadline);
    if raised {
      return;
    }
    if T.Expired(env.world, deadline) {
      return false;
    }
    raised := Attempt(env, Group, row.group);
    if raised {
      return;
    }
    env.DeleteRow(row);
  }

  /** `_destroy_access`. */
  method DestroyAccess(env: Surroundings, access: AccessRow, deadline: Option<real>) returns (raised: bool)
    modifies env
    ensures (env.world, raised) == T.DestroyAccess(env.script, old(env.world), access.View(), deadline)
  {
    if T.Expired(env.world, deadline) {
      return false;
    }
    raised := Attempt(env, Nameservers, access.nameservers);
    if raised {
      return;
    }
    if T.Expired(env.world, deadline) {
      return false;
    }
    raised := Attempt(env, SetupKey, access.key);
    if raised {
      return;
    }
    raised := DeleteGroupPeers(env, access.group, deadline);
    if raised {
      return;
    }
    if T.Expired(env.world, deadline) {
      return false;
    }
    raised := Attempt(env, Group, access.group);
    if raised {
      return;
    }
    env.DeleteAccess();
  }

  /** Past the deadline the rest of the rows changes nothing. */
  lemma {:induction false} ExpiredForGood(script: Script, w: World, rows: seq<Resources>, n: nat,
                                          deadline: Option<real>)
    requires n <= |rows| && T.Expired(T.DestroyRows(script, w, rows[..n], deadline), deadline)
    ensures T.DestroyRows(script, w, rows, deadline) == T.DestroyRows(script, w, rows[..n], deadline)
    decreases |rows|
  {
    if n < |rows| {
      assert rows[..|rows| - 1][..n] == rows[..n];
      ExpiredForGood(script, w, rows[..|rows| - 1], n, deadline);
    } else {
      assert rows[..n] == rows;
    }
  }

  lemma NextRow(script: Script, w: World, rows: seq<Resources>, i: nat, deadline: Option<real>)
    requires i < |rows| && !T.Expired(T.DestroyRows(script, w, rows[..i], deadline), deadline)
    ensures T.DestroyRows(script, w, rows[..i + 1], deadline)
            == T.DestroyEntrypoint(script, T.DestroyRows(script, w, rows[..i], deadline), rows[i], deadline).0
  {
    assert rows[..i + 1][..i] == rows[..i];
  }

  /** The entrypoint loop of both teardowns; only one of them has a deadline. */
  method DestroyRows(env: Surroundings, rows: seq<ResourceRow>, deadline: Option<real>)
    modifies env
    ensures env.world == T.DestroyRows(env.script, old(env.world), Views(rows), deadline)
  {
    ghost var views, begun := Views(rows), env.world;
    for i := 0 to |rows|
      invariant Views(rows) == views
      invariant env.world == T.DestroyRows(env.script, begun, views[..i], deadline)
    {
      if T.Expired(env.world, deadline) {
        ExpiredForGood(env.script, begun, views, i, deadline);
        return;
      }
      NextRow(env.script, begun, views, i, deadline);
      var raised := DestroyEntrypoint(env, rows[i], deadline);
    }
    assert views[..|rows|] == views;
  }

  /**
   The entrypoints and then the shared objects: `_teardown_provisioned_resources` without a deadline, and
   the body of `destroy_netbird_for_sandbox` with one.
   */
  method DestroyAll(env: Surroundings, rows: seq<ResourceRow>, access: AccessRow?, deadline: Option<real>)
    modifies env
    ensures env.world == T.DestroyAll(env.script, old(env.world), old(Views(rows)),
                                      if access == null then None else Some(old(access.View())), deadline)
  {
    hide T.DestroyRows, T.DestroyAccess;
    DestroyRows(env, rows, deadline);
    if access != null && !T.Expired(env.world, deadline) {
      var raised := DestroyAccess(env, access, deadline);
    }
  }

  /** The body of `destroy_netbird_for_sandbox` from the load of the rows on. */
  method LoadAndDestroy(env: Surroundings, access: AccessRow?, deadline: Option<real>)
    modifies env
    ensures var w := Asked(env.script, old(env.world));
            env.world == T.DestroyAll(env.script, w, w.rows,
                                      if access == null then None else Some(old(access.View())), deadline)
  {
    hide *;
    var rows := env.LoadRows();
    DestroyAll(env, rows, access, deadline);
  }

  lemma DestroyLoads(script: Script, w: World, budget: int)
    ensures var w2 := Asked(script, Asked(script, w)); var access := Asked(script, w).access;
            T.Destroy(script, w, budget)
            == if w2.rows == [] && access.None? then w2
               else T.DestroyAll(script, Asked(script, w2), Asked(script, w2).rows, access,
                                 Some(w2.clock + budget as real))
  {
    hide Asked;
  }

  /** `destroy_netbird_for_sandbox`. */
  method Destroy(env: Surroundings, budget: int)
    modifies env
    ensures env.world == T.Destroy(env.script, old(env.world), budget)
  {
    DestroyLoads(env.script, env.world, budget);
    hide *;
    var access, any := env.LoadAccess();
    if any {
      LoadAndDestroy(env, access, Some(env.world.clock + budget as real));
    }
  }

  // ---- Provisioning ----

  /** `_provision_access`; the flag says whether it returned normally. */
  method ProvisionAccess(env: Surroundings, access: AccessRow) returns (ok: bool)
    modifies env, access
    ensures (env.world, access.View(), ok) == P.ProvisionAccess(env.script, old(env.world), old(access.View()))
  {
    var groupId := env.Create(Group, {});
    if groupId.None? {
      return false;
    }
    access.group := groupId;
    ok := env.SaveAccess(access);
    if !ok {
      return;
    }
    var keyId := env.Create(SetupKey, P.Ids(groupId));
    if keyId.None? {
      return false;
    }
    access.key := keyId;
    ok := env.SaveAccess(access);
  }

  /** `_provision_dns`. */
  method ProvisionDns(env: Surroundings, access: AccessRow, servers: seq<string>) returns (ok: bool)
    modifies env, access
    ensures (env.world, access.View(), ok) == P.ProvisionDns(env.script, old(env.world), old(access.View()), servers)
  {
    if servers == [] || !Truthy(access.group) {
      return true;
    }
    var id := env.Create(Nameservers, P.Ids(access.group));
    if id.None? {
      return false;
    }
    access.nameservers := id;
    ok := env.SaveAccess(access);
  }

  /** A route loop that failed stays failed. */
  lemma {:induction false} FailedRoutes(script: Script, w: World, routes: seq<string>, groups: set<string>, n: nat)
    requires n <= |routes| && !P.CreateRoutes(script, w, routes[..n], groups).2
    ensures P.CreateRoutes(script, w, routes, groups) == P.CreateRoutes(script, w, routes[..n], groups)
    decreases |routes|
  {
    if n < |routes| {
      assert routes[..|routes| - 1][..n] == routes[..n];
      FailedRoutes(script, w, routes[..|routes| - 1], groups, n);
    } else {
      assert routes[..n] == routes;
    }
  }

  method CreateRoutes(env: Surroundings, routes: seq<string>, groups: set<string>) returns (ids: seq<string>, ok: bool)
    modifies env
    ensures (env.world, ids, ok) == P.CreateRoutes(env.script, old(env.world), routes, groups)
  {
    ids := [];
    for i := 0 to |routes|
      invariant (env.world, ids, true) == P.CreateRoutes(env.script, old(env.world), routes[..i], groups)
    {
      var id := env.Create(Route, groups);
      assert routes[..i + 1][..i] == routes[..i];
      if id.None? {
        FailedRoutes(env.script, old(env.world), routes, groups, i + 1);
        return ids, false;
      }
      ids := ids + [id.value];
    }
    assert routes[..|routes|] == routes;
    ok := true;
  }

  /** `_provision_single_entrypoint`; null when it raises. */
  method ProvisionEntrypoint(env: Surroundings, ep: P.Entrypoint, shared: set<string>) returns (row: ResourceRow?)
    modifies env
    ensures row != null ==> fresh(row)
    ensures (env.world, if row == null then None else Some(row.View()))
            == P.ProvisionEntrypoint(env.script, old(env.world), ep, shared)
  {
    var nbr := env.GetOrCreateRow(ep.name);
    if nbr == null {
      return null;
    }
    var groupId := env.Create(Group, {});
    if groupId.None? {
      return null;
    }
    nbr.group := groupId;
    var saved := env.SaveRow(nbr);
    if !saved {
      return null;
    }
    var keyId := env.Create(SetupKey, P.Ids(groupId));
    if keyId.None? {
      return null;
    }
    nbr.key := keyId;
    saved := env.SaveRow(nbr);
    if !saved {
      return null;
    }
    var ok := Link(env, nbr, ep.routes, shared);
    row := if ok then nbr else null;
  }

  lemma SavedRoutesKeepGroup(script: Script, w: World, row: Resources, routes: seq<string>, groups: set<string>)
    ensures P.StageRoutes(script, w, row, routes, groups).1.group == row.group
  {
  }

  /** The routes of an entrypoint and their save; what a row that was not saved then holds is of no account. */
  method LinkRoutes(env: Surroundings, nbr: ResourceRow, routes: seq<string>, groups: set<string>) returns (ok: bool)
    modifies env, nbr
    ensures var (w', row', saved) := P.StageRoutes(env.script, old(env.world), old(nbr.View()), routes, groups);
            env.world == w' && ok == saved && (ok ==> nbr.View() == row')
  {
    var ids, made := CreateRoutes(env, routes, groups);
    if !made {
      env.NoteLost(ids);
      return false;
    }
    nbr.SetRouteIdList(ids);
    nbr.SetRouteCidrList(routes);
    ok := env.SaveRow(nbr);
    if !ok {
      env.NoteLost(ids);
    }
  }

  /** The rest of the same function: the routes and the policy. */
  method Link(env: Surroundings, nbr: ResourceRow, routes: seq<string>, shared: set<string>) returns (ok: bool)
    modifies env, nbr
    ensures var (w', result) := P.ProvisionLinks(env.script, old(env.world), old(nbr.View()), routes, shared);
            env.world == w' && (if ok then Some(nbr.View()) else None) == result
  {
    var groups := P.Ids(nbr.group) + shared;
    SavedRoutesKeepGroup(env.script, env.world, nbr.View(), routes, groups);
    hide P.StageRoutes;
    ok := LinkRoutes(env, nbr, routes, groups);
    if !ok {
      return;
    }
    var policyId := env.Create(Policy, groups);
    if policyId.None? {
      return false;
    }
    nbr.policy := policyId;
    ok := env.SaveRow(nbr);
  }

  /** The shared objects; null when not even their row could be made. */
  method ProvisionShared(env: Surroundings, dns: Option<seq<string>>) returns (access: AccessRow?)
    modifies env
    ensures access != null ==> fresh(access)
    ensures (env.world, if access == null then None else Some(access.View()))
            == P.ProvisionShared(env.script, old(env.world), dns)
  {
    access := env.GetOrCreateAccess();
    if access != null {
      var ok := ProvisionAccess(env, access);
      if Truthy(access.group) && dns.Some? {
        ok := ProvisionDns(env, access, dns.value);
      }
    }
  }

  /** One round of the entrypoint loop: the row to record for the end guard, if there is one. */
  method ProvisionOne(env: Surroundings, ghost done: seq<Resources>, ep: P.Entrypoint, shared: set<string>)
    returns (nbr: ResourceRow?)
    modifies env
    ensures nbr != null ==> fresh(nbr)
    ensures (env.world, if nbr == null then done else done + [nbr.View()])
            == P.ProvisionOne(env.script, old(env.world), done, ep, shared)
  {
    nbr := ProvisionEntrypoint(env, ep, shared);
    if nbr == null {
      nbr := env.GetRow(ep.name);
    }
  }

  /** `created.append(nbr)`. */
  function Recorded(created: seq<ResourceRow>, nbr: ResourceRow): (r: seq<ResourceRow>)
    reads nbr, set x | x in created
    ensures Views(r) == Views(created) + [nbr.View()]
    ensures forall x <- r :: x in created || x == nbr
  {
    assert (created + [nbr])[..|created + [nbr]| - 1] == created;
    created + [nbr]
  }

  method ProvisionEach(env: Surroundings, entrypoints: seq<P.Entrypoint>, shared: set<string>)
    returns (created: seq<ResourceRow>)
    modifies env
    ensures (env.world, Views(created)) == P.ProvisionEach(env.script, old(env.world), entrypoints, shared)
  {
    created := [];
    ghost var views, begun := [], env.world;
    for i := 0 to |entrypoints|
      invariant Views(created) == views
      invariant P.ProvisionEach(env.script, begun, entrypoints[..i], shared) == (env.world, views)
    {
      var nbr := ProvisionOne(env, views, entrypoints[i], shared);
      P.NextRound(env.script, begun, entrypoints, shared, i);
      if nbr != null {
        views := views + [nbr.View()];
        created := Recorded(created, nbr);
      }
    }
    assert entrypoints[..|entrypoints|] == entrypoints;
  }

  /** Everything between the two guards. */
  method ProvisionAll(env: Surroundings, entrypoints: seq<P.Entrypoint>, dns: Option<seq<string>>)
    returns (created: seq<ResourceRow>, access: AccessRow?)
    modifies env
    ensures (env.world, Views(created), if access == null then None else Some(access.View()))
            == P.ProvisionAll(env.script, old(env.world), entrypoints, dns)
  {
    created := [];
    access := ProvisionShared(env, dns);
    if access != null && Truthy(access.group) {
      created := ProvisionEach(env, entrypoints, P.Ids(access.group));
    }
  }

  method EndGuard(env: Surroundings, created: seq<ResourceRow>, access: AccessRow?)
    modifies env
    ensures env.world == P.EndGuard(env.script, old(env.world), old(Views(created)),
                                    if access == null then None else Some(old(access.View())))
  {
    var alive := env.SandboxExists();
    if !alive {
      DestroyAll(env, created, access, None);
    }
  }

  /** `_provision_netbird_for_sandbox`, once the client and the settings are there. */
  method Provision(env: Surroundings, entrypoints: seq<P.Entrypoint>, dns: Option<seq<string>>)
    modifies env
    ensures env.world == P.Provision(env.script, old(env.world), entrypoints, dns)
  {
    if entrypoints == [] && dns.None? {
      return;
    }
    var alive := env.SandboxExists();
    if !alive {
      return;
    }
    var created, access := ProvisionAll(env, entrypoints, dns);
    EndGuard(env, created, access);
  }
}
