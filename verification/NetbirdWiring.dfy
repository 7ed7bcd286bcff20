/** What provisioning has built when it reports success: which object refers to which group. */
module NetbirdWiring {
  import opened Common
  import opened Text
  import opened NetbirdWorld
  import opened NetbirdProvision

  /** The object of that kind and id is there, with exactly these references. */
  predicate Refers(objs: Objects, kind: Kind, id: Option<string>, groups: set<string>) {
    Truthy(id) && Obj(kind, id.value) in objs && objs[Obj(kind, id.value)] == groups
  }

  ghost predicate RoutesRefer(objs: Objects, ids: seq<string>, groups: set<string>) {
    forall i | 0 <= i < |ids| :: Refers(objs, Route, Some(ids[i]), groups)
  }

  /**
   The entrypoint's group, a key that puts hosts into it, one route for each range, from the group to
   the clients, and a policy between both groups; all of it named by the row, which is stored.
   */
  ghost predicate Wired(w: World, row: Resources, ep: Entrypoint, shared: set<string>) {
    && row.host == ep.name && w.sandbox && row in w.rows
    && Refers(w.objs, Group, row.group, {})
    && Refers(w.objs, SetupKey, row.key, Ids(row.group))
    && |ListOf(row.routeIds)| == |ep.routes|
    && RoutesRefer(w.objs, ListOf(row.routeIds), Ids(row.group) + shared)
    && row.routeCidrs == Some(Join(ep.routes))
    && Refers(w.objs, Policy, row.policy, Ids(row.group) + shared)
  }

  lemma {:induction false} UpsertHas(rows: seq<Resources>, row: Resources)
    ensures row in Upsert(rows, row)
  {
    if rows != [] && rows[|rows| - 1].host != row.host && Find(rows, row.host).Some? {
      UpsertHas(rows[..|rows| - 1], row);
    }
  }

  lemma StageGives(script: Script, w: World, row: Resources, kind: Kind, groups: set<string>)
    requires Sound(script, w) && Known(w, groups)
    ensures var (w', row', ok) := Stage(script, w, row, kind, groups);
            && Grows(script, w, w')
            && (ok ==> exists id :: row' == WithId(row, kind, id) && Refers(w'.objs, kind, Some(id), groups)
                                    && w'.sandbox && row' in w'.rows)
  {
    StageGrows(script, w, row, kind, groups);
    CreateGrows(script, w, kind, groups);
    var (w1, id) := CreateObject(script, w, kind, groups);
    if id.Some? {
      UpsertHas(Asked(script, w1).rows, WithId(row, kind, id.value));
    }
  }

  lemma {:induction false} OneIdPerRoute(script: Script, w: World, routes: seq<string>, groups: set<string>)
    ensures var (_, ids, ok) := CreateRoutes(script, w, routes, groups);
            ok ==> |ids| == |routes|
  {
    if routes != [] {
      OneIdPerRoute(script, w, routes[..|routes| - 1], groups);
    }
  }

  lemma MadeRoutesRefer(objs: Objects, ids: seq<string>, groups: set<string>)
    requires forall o <- Routes(ids) :: o in objs && objs[o] == groups
    requires forall i | 0 <= i < |ids| :: Plain(ids[i])
    ensures RoutesRefer(objs, ids, groups)
  {
    forall i | 0 <= i < |ids|
      ensures Refers(objs, Route, Some(ids[i]), groups)
    {
      assert Plain(ids[i]) && Routes(ids)[i] in Routes(ids);
    }
  }

  lemma StageRoutesGives(script: Script, w: World, row: Resources, routes: seq<string>, groups: set<string>)
    requires Sound(script, w) && Known(w, groups)
    ensures var (w', row', ok) := StageRoutes(script, w, row, routes, groups);
            && Grows(script, w, w')
            && (ok ==> && row' == row.(routeIds := row'.routeIds, routeCidrs := Some(Join(routes)))
                       && |ListOf(row'.routeIds)| == |routes| && RoutesRefer(w'.objs, ListOf(row'.routeIds), groups))
  {
    StageRoutesGrows(script, w, row, routes, groups);
    RoutesGrow(script, w, routes, groups);
    OneIdPerRoute(script, w, routes, groups);
    var (w1, ids, made) := CreateRoutes(script, w, routes, groups);
    hide Grows, Sound, Known;
    ListRoundTrip(ids);
    MadeRoutesRefer(w1.objs, ids, groups);
  }

  lemma RefersStays(script: Script, w: World, w': World, kind: Kind, id: Option<string>, groups: set<string>)
    requires Grows(script, w, w') && Refers(w.objs, kind, id, groups)
    ensures Refers(w'.objs, kind, id, groups)
  {
  }

  lemma RoutesReferStays(script: Script, w: World, w': World, ids: seq<string>, groups: set<string>)
    requires Grows(script, w, w') && RoutesRefer(w.objs, ids, groups)
    ensures RoutesRefer(w'.objs, ids, groups)
  {
    forall i | 0 <= i < |ids| {
      RefersStays(script, w, w', Route, Some(ids[i]), groups);
    }
  }

  lemma ReferredIsKnown(w: World, id: Option<string>, groups: set<string>)
    requires Refers(w.objs, Group, id, groups)
    ensures Known(w, Ids(id))
  {
    assert Obj(Group, id.value) in w.objs;
  }

  lemma LinksAreWired(script: Script, w: World, row: Resources, ep: Entrypoint, shared: set<string>)
    requires Sound(script, w) && Known(w, shared) && row.host == ep.name
    requires Refers(w.objs, Group, row.group, {}) && Refers(w.objs, SetupKey, row.key, Ids(row.group))
    ensures var (w', result) := ProvisionLinks(script, w, row, ep.routes, shared);
            result.Some? ==> Wired(w', result.value, ep, shared)
  {
    hide Stage, StageRoutes, Grows, Refers, RoutesRefer, ListOf;
    var groups := Ids(row.group) + shared;
    ReferredIsKnown(w, row.group, {});
    StageRoutesGives(script, w, row, ep.routes, groups);
    var (w1, row1, ok1) := StageRoutes(script, w, row, ep.routes, groups);
    if ok1 {
      SoundStays(script, w, w1);
      KnownStays(script, w, w1, groups);
      StageGives(script, w1, row1, Policy, groups);
      var (w2, row2, ok2) := Stage(script, w1, row1, Policy, groups);
      if ok2 {
        GrowsJoins(script, w, w1, w2);
        RefersStays(script, w, w2, Group, row.group, {});
        RefersStays(script, w, w2, SetupKey, row.key, Ids(row.group));
        RoutesReferStays(script, w1, w2, ListOf(row1.routeIds), groups);
      }
    }
  }

  lemma RowIsWired(script: Script, w: World, row: Resources, ep: Entrypoint, shared: set<string>)
    requires Sound(script, w) && Known(w, shared) && row.host == ep.name
    ensures var (w', result) := ProvisionRow(script, w, row, ep.routes, shared);
            result.Some? ==> Wired(w', result.value, ep, shared)
  {
    StageGives(script, w, row, Group, {});
    var (w1, row1, ok1) := Stage(script, w, row, Group, {});
    if ok1 {
      ReferredIsKnown(w1, row1.group, {});
      StageGives(script, w1, row1, SetupKey, Ids(row1.group));
      var (w2, row2, ok2) := Stage(script, w1, row1, SetupKey, Ids(row1.group));
      if ok2 {
        RefersStays(script, w1, w2, Group, row1.group, {});
        GrowsJoins(script, w, w1, w2);
        KnownStays(script, w, w2, shared);
        LinksAreWired(script, w2, row2, ep, shared);
      }
    }
  }

  /** An entrypoint that was provisioned is complete. */
  lemma {:induction false} ProvisionedIsWired(script: Script, w: World, ep: Entrypoint, shared: set<string>)
    requires Sound(script, w) && Known(w, shared)
    ensures var (w', result) := ProvisionEntrypoint(script, w, ep, shared);
            result.Some? ==> Wired(w', result.value, ep, shared)
  {
    GetOrCreateGrows(script, w, ep.name);
    var (w1, row) := GetOrCreateRow(script, w, ep.name);
    if row.Some? {
      FindIs(Asked(script, w).rows, ep.name);
      KnownStays(script, w, w1, shared);
      RowIsWired(script, w1, row.value, ep, shared);
    }
  }

  /** The shared key puts clients into the access group, and the nameservers serve that group. */
  lemma {:induction false} SharedIsWired(script: Script, w: World, dns: Option<seq<string>>)
    requires Sound(script, w) && w.access.None?
    ensures var (w', access) := ProvisionShared(script, w, dns);
            access.Some? ==>
              && (access.value.group.Some? ==> Refers(w'.objs, Group, access.value.group, {}))
              && (access.value.key.Some? ==> Refers(w'.objs, SetupKey, access.value.key, Ids(access.value.group)))
              && (access.value.nameservers.Some? ==>
                    Refers(w'.objs, Nameservers, access.value.nameservers, Ids(access.value.group))
                    && dns.Some? && dns.value != [])
  {
    GetOrCreateGrows(script, w, "");
    hide AccessStage, Grows, Refers, Known, Ids;
    var (w1, handle) := GetOrCreateAccess(script, w);
    if handle.Some? {
      AccessStageGives(script, w1, BLANK_ACCESS, Group, {});
      var (w2, access2, ok2) := AccessStage(script, w1, BLANK_ACCESS, Group, {});
      var (w3, access3, _) := ProvisionAccess(script, w1, BLANK_ACCESS);
      if ok2 {
        ReferredIsKnown(w2, access2.group, {});
        AccessStageGives(script, w2, access2, SetupKey, Ids(access2.group));
        RefersStays(script, w2, w3, Group, access2.group, {});
      }
      if Truthy(access3.group) && dns.Some? && dns.value != [] {
        ReferredIsKnown(w3, access3.group, {});
        AccessStageGives(script, w3, access3, Nameservers, Ids(access3.group));
        var w4 := AccessStage(script, w3, access3, Nameservers, Ids(access3.group)).0;
        RefersStays(script, w3, w4, Group, access3.group, {});
        if access3.key.Some? {
          RefersStays(script, w3, w4, SetupKey, access3.key, Ids(access3.group));
        }
      }
    }
  }

  lemma AccessStageGives(script: Script, w: World, access: Access, kind: Kind, groups: set<string>)
    requires Sound(script, w) && Known(w, groups)
    ensures var (w', access', ok) := AccessStage(script, w, access, kind, groups);
            && Grows(script, w, w')
            && ((access' == access && !ok)
                || exists id :: access' == AccessWithId(access, kind, id) && Refers(w'.objs, kind, Some(id), groups))
  {
    AccessStageGrows(script, w, access, kind, groups);
    CreateGrows(script, w, kind, groups);
    var (w1, id) := CreateObject(script, w, kind, groups);
    if id.Some? {
      assert Refers(w1.objs, kind, id, groups);
      assert AccessStage(script, w, access, kind, groups).1 == AccessWithId(access, kind, id.value);
    }
  }
}
