/**
 What provisioning does make: exactly when each shared object comes about, and that a failure before an entrypoint
 does not keep later ones from being provisioned completely.
 */
module NetbirdCompletion {
  import opened Common
  import opened Text
  import opened NetbirdWorld
  import opened NetbirdProvision
  import opened NetbirdWiring
  import opened NetbirdResidue
  import opened NetbirdLeftovers

  // ---- The shared objects ----

  /** The sandbox is not deleted around the next `n` operations. */
  predicate AliveFor(script: Script, w: World, n: nat) {
    w.sandbox && forall t | w.tick <= t < w.tick + n :: !script(t).vanish
  }

  /**
   There is a record when the sandbox is there, the group is made when its call succeeds, the key when the record
   with the group could be saved and its own call succeeds; and the nameservers, for given servers, when there is a
   group and their call succeeds, whatever became of the key.  What was not made is as recorded before.
   */
  lemma {:induction false} SharedObjectsIff(script: Script, w: World, dns: Option<seq<string>>)
    ensures var (w', access) := ProvisionShared(script, w, dns);
            var (w1, _) := GetOrCreateAccess(script, w);
            var was := if w.access.Some? then w.access.value else BLANK_ACCESS;
            var w2 := ProvisionAccess(script, w1, was).0;
            && (access.Some? <==> AliveFor(script, w, 1))
            && (access.Some? ==>
                  var made := script(w.tick + 1).verdict.Succeeds?;
                  var keyed := made && AliveFor(script, w, 3) && script(w.tick + 3).verdict.Succeeds?;
                  var served := Truthy(access.value.group) && dns.Some? && dns.value != []
                                && script(w2.tick).verdict.Succeeds?;
                  && access.value.group == (if made then Some(script(w.tick + 1).id) else was.group)
                  && access.value.key == (if keyed then Some(script(w.tick + 3).id) else was.key)
                  && access.value.nameservers == (if served then Some(script(w2.tick).id) else was.nameservers))
  {
    hide AccessStage;
    var w1 := GetOrCreateAccess(script, w).0;
    var was := if w.access.Some? then w.access.value else BLANK_ACCESS;
    AliveForThree(script, w);
    if AliveFor(script, w, 1) {
      AccessStageIs(script, w1, was, Group, {});
      var (w2, access, ok) := AccessStage(script, w1, was, Group, {});
      AccessStageIs(script, w2, access, SetupKey, Ids(access.group));
      var (w3, access3, ok3) := ProvisionAccess(script, w1, was);
      AccessStageIs(script, w3, access3, Nameservers, Ids(access3.group));
    }
  }

  lemma AliveForThree(script: Script, w: World)
    ensures AliveFor(script, w, 1) <==> w.sandbox && !script(w.tick).vanish
    ensures AliveFor(script, w, 3) <==>
              AliveFor(script, w, 1) && !script(w.tick + 1).vanish && !script(w.tick + 2).vanish
  {
  }

  // ---- The row of an entrypoint that is provisioned again ----

  /** The record of that entrypoint, while the sandbox is there. */
  predicate Stored(w: World, row: Resources) {
    w.sandbox ==> Find(w.rows, row.host) == Some(row)
  }

  /** What is recorded in a row is not forgotten in a later one. */
  predicate Refills(row: Resources, row': Resources) {
    && row'.host == row.host
    && (row.group.Some? ==> row'.group.Some?) && (row.key.Some? ==> row'.key.Some?)
    && (row.routeIds.Some? ==> row'.routeIds.Some?) && (row.policy.Some? ==> row'.policy.Some?)
  }

  lemma {:induction false} FindsUpserted(rows: seq<Resources>, row: Resources)
    ensures Find(Upsert(rows, row), row.host) == Some(row)
  {
    if rows != [] {
      var n := |rows| - 1;
      var found := Find(rows, row.host).Some?;
      if rows[n].host != row.host && found {
        FindsUpserted(rows[..n], row);
        assert Upsert(rows, row)[..|Upsert(rows, row)| - 1] == Upsert(rows[..n], row);
      }
    }
  }

  lemma StageStores(script: Script, w: World, row: Resources, kind: Kind, groups: set<string>)
    requires Stored(w, row)
    ensures var (w', row', _) := Stage(script, w, row, kind, groups); Stored(w', row') && Refills(row, row')
  {
    var (w1, id) := CreateObject(script, w, kind, groups);
    if id.Some? {
      FindsUpserted(Asked(script, w1).rows, WithId(row, kind, id.value));
    }
  }

  lemma StageRoutesStores(script: Script, w: World, row: Resources, routes: seq<string>, groups: set<string>)
    requires Stored(w, row)
    ensures var (w', row', _) := StageRoutes(script, w, row, routes, groups); Stored(w', row') && Refills(row, row')
  {
    hide CreateRoutes, Join, Routes, Upsert, Find;
    var (w1, ids, ok) := CreateRoutes(script, w, routes, groups);
    RoutesKeepRows(script, w, routes, groups);
    FindsUpserted(Asked(script, w1).rows, row.(routeIds := Some(Join(ids)), routeCidrs := Some(Join(routes))));
  }

  lemma RowStores(script: Script, w: World, row: Resources, routes: seq<string>, shared: set<string>)
    returns (row': Resources)
    requires Stored(w, row)
    ensures Stored(ProvisionRow(script, w, row, routes, shared).0, row') && Refills(row, row')
  {
    hide Stage, StageRoutes, Stored;
    var (w1, row1, ok1) := Stage(script, w, row, Group, {});
    StageStores(script, w, row, Group, {});
    row' := row1;
    if ok1 {
      var (w2, row2, ok2) := Stage(script, w1, row1, SetupKey, Ids(row1.group));
      StageStores(script, w1, row1, SetupKey, Ids(row1.group));
      row' := row2;
      if ok2 {
        var (w3, row3, ok3) := StageRoutes(script, w2, row2, routes, Ids(row2.group) + shared);
        StageRoutesStores(script, w2, row2, routes, Ids(row2.group) + shared);
        row' := row3;
        if ok3 {
          StageStores(script, w3, row3, Policy, Ids(row3.group) + shared);
          row' := Stage(script, w3, row3, Policy, Ids(row3.group) + shared).1;
        }
      }
    }
  }

  /**
   Whatever fails: provisioning an entrypoint that has a row already works on that row, which is still there
   afterwards, with an entry wherever it had one.
   */
  lemma {:induction false} RowsAreRefilled(script: Script, w: World, ep: Entrypoint, shared: set<string>)
    requires Find(w.rows, ep.name).Some?
    ensures var w' := ProvisionEntrypoint(script, w, ep, shared).0;
            w'.sandbox ==>
              Find(w'.rows, ep.name).Some? && Refills(Find(w.rows, ep.name).value, Find(w'.rows, ep.name).value)
  {
    hide ProvisionRow;
    FindIs(w.rows, ep.name);
    var (w1, row) := GetOrCreateRow(script, w, ep.name);
    if row.Some? {
      var row' := RowStores(script, w1, row.value, ep.routes, shared);
    }
  }

  // ---- Rows of other entrypoints ----

  /** As long as the sandbox is there, the rows of other hosts are too, and the shared row is as it was. */
  ghost predicate OthersStay(w: World, w': World, host: string) {
    w'.sandbox ==> w.sandbox && w'.access == w.access && forall r <- w.rows :: r.host != host ==> r in w'.rows
  }

  lemma OthersStayJoins(w: World, w1: World, w2: World, host: string)
    requires OthersStay(w, w1, host) && OthersStay(w1, w2, host)
    ensures OthersStay(w, w2, host)
  {
  }

  lemma {:induction false} UpsertKeepsOthers(rows: seq<Resources>, row: Resources, r: Resources)
    requires r in rows && r.host != row.host
    ensures r in Upsert(rows, row)
  {
    var n := |rows| - 1;
    if rows[n] != r {
      assert r in rows[..n];
      if rows[n].host != row.host && Find(rows, row.host).Some? {
        UpsertKeepsOthers(rows[..n], row, r);
      }
    }
  }

  lemma StageKeepsOthers(script: Script, w: World, row: Resources, kind: Kind, groups: set<string>)
    ensures var (w', row', _) := Stage(script, w, row, kind, groups);
            row'.host == row.host && OthersStay(w, w', row.host)
  {
    var (w1, id) := CreateObject(script, w, kind, groups);
    if id.Some? {
      var row1 := WithId(row, kind, id.value);
      forall r <- Asked(script, w1).rows | r.host != row.host {
        UpsertKeepsOthers(Asked(script, w1).rows, row1, r);
      }
    }
  }

  lemma {:induction false} RoutesKeepRows(script: Script, w: World, routes: seq<string>, groups: set<string>)
    ensures var w' := CreateRoutes(script, w, routes, groups).0;
            w'.sandbox ==> w.sandbox && w'.rows == w.rows && w'.access == w.access
  {
    if routes != [] {
      RoutesKeepRows(script, w, routes[..|routes| - 1], groups);
    }
  }

  lemma StageRoutesKeepsOthers(script: Script, w: World, row: Resources, routes: seq<string>, groups: set<string>)
    ensures var (w', row', _) := StageRoutes(script, w, row, routes, groups);
            row'.host == row.host && OthersStay(w, w', row.host)
  {
    var (w1, ids, ok) := CreateRoutes(script, w, routes, groups);
    RoutesKeepRows(script, w, routes, groups);
    hide CreateRoutes, Join, Routes;
    if ok {
      var row1 := row.(routeIds := Some(Join(ids)), routeCidrs := Some(Join(routes)));
      forall r <- Asked(script, w1).rows | r.host != row.host {
        UpsertKeepsOthers(Asked(script, w1).rows, row1, r);
      }
    }
  }

  /** One round grows the world, and leaves the rows of other hosts alone. */
  ghost predicate Additive(script: Script, w: World, w': World, host: string) {
    Grows(script, w, w') && OthersStay(w, w', host)
  }

  lemma AdditiveJoins(script: Script, w: World, w1: World, w2: World, host: string)
    requires Additive(script, w, w1, host) && Additive(script, w1, w2, host)
    ensures Additive(script, w, w2, host)
  {
    GrowsJoins(script, w, w1, w2);
    OthersStayJoins(w, w1, w2, host);
  }

  lemma StageAdds(script: Script, w: World, row: Resources, kind: Kind, groups: set<string>)
    requires Sound(script, w) && Known(w, groups)
    ensures var (w', row', ok) := Stage(script, w, row, kind, groups);
            && Additive(script, w, w', row.host) && Sound(script, w') && row'.host == row.host
            && (ok ==> exists id :: row' == WithId(row, kind, id) && Refers(w'.objs, kind, Some(id), groups))
  {
    StageGives(script, w, row, kind, groups);
    StageKeepsOthers(script, w, row, kind, groups);
    hide Stage, OthersStay;
    SoundStays(script, w, Stage(script, w, row, kind, groups).0);
  }

  lemma LinksAdd(script: Script, w: World, row: Resources, routes: seq<string>, shared: set<string>)
    requires Sound(script, w) && Known(w, Ids(row.group) + shared)
    ensures Additive(script, w, ProvisionLinks(script, w, row, routes, shared).0, row.host)
  {
    var groups := Ids(row.group) + shared;
    StageRoutesGrows(script, w, row, routes, groups);
    StageRoutesKeepsOthers(script, w, row, routes, groups);
    StageRoutesEnds(script, w, row, routes, groups);
    hide StageRoutes, Stage, OthersStay, Grows, Sound, Known;
    var (w1, row1, ok1) := StageRoutes(script, w, row, routes, groups);
    if ok1 {
      SoundStays(script, w, w1);
      KnownStays(script, w, w1, groups);
      StageAdds(script, w1, row1, Policy, groups);
      AdditiveJoins(script, w, w1, Stage(script, w1, row1, Policy, groups).0, row.host);
    }
  }

  lemma RowAdds(script: Script, w: World, row: Resources, routes: seq<string>, shared: set<string>)
    requires Sound(script, w) && Known(w, shared)
    ensures Additive(script, w, ProvisionRow(script, w, row, routes, shared).0, row.host)
  {
    hide Stage, ProvisionLinks, OthersStay, Grows, Sound, Refers, Additive;
    StageAdds(script, w, row, Group, {});
    var (w1, row1, ok1) := Stage(script, w, row, Group, {});
    if ok1 {
      ReferredIsKnown(w1, row1.group, {});
      StageAdds(script, w1, row1, SetupKey, Ids(row1.group));
      var (w2, row2, ok2) := Stage(script, w1, row1, SetupKey, Ids(row1.group));
      AdditiveJoins(script, w, w1, w2, row.host);
      if ok2 {
        AdditiveKnows(script, w, w2, shared, row.host);
        AdditiveKnows(script, w1, w2, Ids(row1.group), row.host);
        assert Known(w2, Ids(row2.group) + shared);
        LinksAdd(script, w2, row2, routes, shared);
        AdditiveJoins(script, w, w2, ProvisionLinks(script, w2, row2, routes, shared).0, row.host);
      }
    }
  }

  lemma AdditiveKnows(script: Script, w: World, w': World, groups: set<string>, host: string)
    requires Additive(script, w, w', host) && Known(w, groups)
    ensures Known(w', groups)
  {
    KnownStays(script, w, w', groups);
  }

  lemma EntrypointAdds(script: Script, w: World, ep: Entrypoint, shared: set<string>)
    requires Sound(script, w) && Known(w, shared)
    ensures Additive(script, w, ProvisionEntrypoint(script, w, ep, shared).0, ep.name)
  {
    hide ProvisionRow;
    var (w1, row) := GetOrCreateRow(script, w, ep.name);
    GetOrCreateGrows(script, w, ep.name);
    FindIs(Asked(script, w).rows, ep.name);
    if row.Some? {
      SoundStays(script, w, w1);
      KnownStays(script, w, w1, shared);
      RowAdds(script, w1, row.value, ep.routes, shared);
      AdditiveJoins(script, w, w1, ProvisionRow(script, w1, row.value, ep.routes, shared).0, ep.name);
    }
  }

  lemma OneAdds(script: Script, w: World, created: seq<Resources>, ep: Entrypoint, shared: set<string>)
    requires Sound(script, w) && Known(w, shared)
    ensures var (w', created') := ProvisionOne(script, w, created, ep, shared);
            && Additive(script, w, w', ep.name) && Sound(script, w') && Known(w', shared)
            && (w'.sandbox ==> w.sandbox && w'.access == w.access)
            && forall r <- created :: r in created'
  {
    hide ProvisionEntrypoint;
    var (w1, row) := ProvisionEntrypoint(script, w, ep, shared);
    EntrypointAdds(script, w, ep, shared);
    AskedGrows(script, w1);
    AdditiveJoins(script, w, w1, Asked(script, w1), ep.name);
    hide Grows, Sound, Known;
    var w' := ProvisionOne(script, w, created, ep, shared).0;
    AdditiveKeeps(script, w, w', ep.name);
    AdditiveKnows(script, w, w', shared, ep.name);
  }

  lemma AdditiveKeeps(script: Script, w: World, w': World, host: string)
    requires Additive(script, w, w', host) && Sound(script, w)
    ensures Sound(script, w')
  {
    SoundStays(script, w, w');
  }

  // ---- Entrypoints behind a failure ----

  lemma WiredStays(script: Script, w: World, w': World, row: Resources, ep: Entrypoint, shared: set<string>,
                   host: string)
    requires Wired(w, row, ep, shared) && Additive(script, w, w', host) && w'.sandbox && ep.name != host
    ensures Wired(w', row, ep, shared)
  {
    hide Refers, RoutesRefer, ListOf;
    RefersStays(script, w, w', Group, row.group, {});
    RefersStays(script, w, w', SetupKey, row.key, Ids(row.group));
    RefersStays(script, w, w', Policy, row.policy, Ids(row.group) + shared);
    RoutesReferStays(script, w, w', ListOf(row.routeIds), Ids(row.group) + shared);
  }

  /** The entrypoint is provisioned completely, and its row is recorded for the end guard. */
  ghost predicate IsWired(w: World, created: seq<Resources>, ep: Entrypoint, shared: set<string>) {
    exists row <- created :: Wired(w, row, ep, shared)
  }

  lemma {:induction false} EachAdds(script: Script, w: World, entrypoints: seq<Entrypoint>, shared: set<string>)
    requires Sound(script, w) && Known(w, shared)
    ensures var w' := ProvisionEach(script, w, entrypoints, shared).0;
            Sound(script, w') && Known(w', shared) && (w'.sandbox ==> w.sandbox && w'.access == w.access)
  {
    hide ProvisionOne, Sound, Known;
    if entrypoints != [] {
      var k := |entrypoints| - 1;
      EachAdds(script, w, entrypoints[..k], shared);
      var (w1, created) := ProvisionEach(script, w, entrypoints[..k], shared);
      OneAdds(script, w1, created, entrypoints[k], shared);
    }
  }

  /** A round in which nothing fails. */
  lemma QuietOneIsWired(script: Script, w: World, created: seq<Resources>, ep: Entrypoint, shared: set<string>)
    requires Sound(script, w) && Known(w, shared) && Quiet(script, w.tick) && w.sandbox
    ensures var (w', created') := ProvisionOne(script, w, created, ep, shared);
            IsWired(w', created', ep, shared) && w'.sandbox && Quiet(script, w'.tick)
  {
    QuietEntrypoint(script, w, ep, shared);
    ProvisionedIsWired(script, w, ep, shared);
    hide ProvisionEntrypoint, Wired;
    var (w1, row) := ProvisionEntrypoint(script, w, ep, shared);
    assert row.value in created + [row.value];
  }

  lemma WiredThroughRound(script: Script, w: World, created: seq<Resources>, ep: Entrypoint, other: Entrypoint,
                          shared: set<string>)
    requires Sound(script, w) && Known(w, shared) && other.name != ep.name && IsWired(w, created, other, shared)
    ensures var (w', created') := ProvisionOne(script, w, created, ep, shared);
            w'.sandbox ==> IsWired(w', created', other, shared)
  {
    var (w', created') := ProvisionOne(script, w, created, ep, shared);
    OneAdds(script, w, created, ep, shared);
    hide ProvisionOne, Wired, Additive;
    var row :| row in created && Wired(w, row, other, shared);
    if w'.sandbox {
      WiredStays(script, w, w', row, other, shared, ep.name);
    }
  }

  /**
   Whatever failed before the round of entrypoint `k`: when nothing fails from there on, that entrypoint and all
   behind it are provisioned completely.
   */
  lemma {:induction false} LaterEntrypointsAreWired(script: Script, w: World, entrypoints: seq<Entrypoint>,
                                                    shared: set<string>, k: nat)
    requires Sound(script, w) && Known(w, shared) && DistinctNames(entrypoints) && k <= |entrypoints|
    requires var wk := ProvisionEach(script, w, entrypoints[..k], shared).0; wk.sandbox && Quiet(script, wk.tick)
    ensures var (w', created) := ProvisionEach(script, w, entrypoints, shared);
            && w'.sandbox && Quiet(script, w'.tick)
            && forall i | k <= i < |entrypoints| :: IsWired(w', created, entrypoints[i], shared)
    decreases |entrypoints|
  {
    hide ProvisionOne, Sound, Known, Quiet, IsWired;
    var n := |entrypoints| - 1;
    if k <= n {
      var before := entrypoints[..n];
      assert before[..k] == entrypoints[..k];
      LaterEntrypointsAreWired(script, w, before, shared, k);
      EachAdds(script, w, before, shared);
      var (w1, created1) := ProvisionEach(script, w, before, shared);
      QuietOneIsWired(script, w1, created1, entrypoints[n], shared);
      forall i | k <= i < n
        ensures IsWired(ProvisionEach(script, w, entrypoints, shared).0,
                        ProvisionEach(script, w, entrypoints, shared).1, entrypoints[i], shared)
      {
        assert before[i] == entrypoints[i];
        WiredThroughRound(script, w1, created1, entrypoints[n], entrypoints[i], shared);
      }
    } else {
      assert entrypoints[..k] == entrypoints;
    }
  }

  lemma GroupIsKnown(script: Script, w: World, dns: Option<seq<string>>)
    requires Sound(script, w) && w.access.None?
    ensures var (w', access) := ProvisionShared(script, w, dns);
            && Sound(script, w')
            && (access.Some? && Truthy(access.value.group) ==> Known(w', Ids(access.value.group)))
  {
    ProvisionSharedMine(script, w, dns);
    SharedIsWired(script, w, dns);
    hide ProvisionShared, Refers, Known, Ids, SharedMine;
    var (w', access) := ProvisionShared(script, w, dns);
    SoundStays(script, w, w');
    if access.Some? && Truthy(access.value.group) {
      ReferredIsKnown(w', access.value.group, {});
    }
  }

  /** Whatever became of the key and the nameservers: with an access group all entrypoints are provisioned. */
  lemma {:induction false} EntrypointsNeedOnlyTheGroup(script: Script, w: World, entrypoints: seq<Entrypoint>,
                                                       dns: Option<seq<string>>)
    requires Sound(script, w) && w.access.None? && DistinctNames(entrypoints)
    requires var (w1, access) := ProvisionShared(script, w, dns);
             w1.sandbox && Quiet(script, w1.tick) && access.Some? && Truthy(access.value.group)
    ensures var (w', created, access) := ProvisionAll(script, w, entrypoints, dns);
            && w'.sandbox && access.Some?
            && forall i | 0 <= i < |entrypoints| :: IsWired(w', created, entrypoints[i], Ids(access.value.group))
  {
    GroupIsKnown(script, w, dns);
    hide ProvisionShared, Sound, Known, Ids, Quiet, IsWired;
    var (w1, access) := ProvisionShared(script, w, dns);
    assert entrypoints[..0] == [];
    LaterEntrypointsAreWired(script, w1, entrypoints, Ids(access.value.group), 0);
  }

  /** The shared record names a group and a key, and nameservers exactly when servers are given. */
  predicate SharedComplete(access: Option<Access>, dns: Option<seq<string>>) {
    && access.Some? && Truthy(access.value.group) && Truthy(access.value.key)
    && (access.value.nameservers.Some? <==> dns.Some? && dns.value != [])
  }

  lemma QuietSharedIsComplete(script: Script, w: World, dns: Option<seq<string>>)
    requires Start(script, w) && Quiet(script, w.tick)
    ensures SharedComplete(ProvisionShared(script, w, dns).1, dns)
  {
    SharedObjectsIff(script, w, dns);
    SharedIsWired(script, w, dns);
    QuietAccess(script, w);
  }

  lemma QuietAccess(script: Script, w: World)
    requires Quiet(script, w.tick) && w.sandbox
    ensures var w1 := GetOrCreateAccess(script, w).0; var w2 := ProvisionAccess(script, w1, BLANK_ACCESS).0;
            w.tick <= w2.tick
  {
  }

  /**
   A sandbox provisioned without failures has everything: the shared group and key, nameservers for given servers,
   and every entrypoint complete; without entrypoints and servers nothing is touched.
   */
  lemma {:induction false} QuietProvisionIsComplete(script: Script, w: World, entrypoints: seq<Entrypoint>,
                                                    dns: Option<seq<string>>)
    requires Start(script, w) && Quiet(script, w.tick) && DistinctNames(entrypoints)
    ensures var w' := Provision(script, w, entrypoints, dns);
            if entrypoints == [] && dns.None? then w' == w
            else
              && w'.sandbox && SharedComplete(w'.access, dns)
              && forall i | 0 <= i < |entrypoints| ::
                   exists row <- w'.rows :: Wired(w', row, entrypoints[i], Ids(w'.access.value.group))
  {
    if entrypoints != [] || dns.Some? {
      var w1 := Asked(script, w);
      assert Start(script, w1) && Quiet(script, w1.tick);
      QuietProvisionAll(script, w1, entrypoints, dns);
    }
  }

  /** The stored record is the one that was provisioned. */
  lemma SharedIsStored(script: Script, w: World, entrypoints: seq<Entrypoint>, dns: Option<seq<string>>)
    requires Sound(script, w) && w.access.None?
    ensures var (w', _, access) := ProvisionAll(script, w, entrypoints, dns);
            w'.sandbox && access.Some? ==> w'.access == access
  {
    ProvisionSharedMine(script, w, dns);
    GroupIsKnown(script, w, dns);
    hide ProvisionShared, Sound, Known, Ids;
    var (w1, access) := ProvisionShared(script, w, dns);
    if access.Some? && Truthy(access.value.group) {
      EachAdds(script, w1, entrypoints, Ids(access.value.group));
    }
  }

  lemma QuietGuard(script: Script, w: World, created: seq<Resources>, access: Option<Access>)
    requires w.sandbox && Quiet(script, w.tick)
    ensures var w' := EndGuard(script, w, created, access);
            w'.sandbox && w'.objs == w.objs && w'.rows == w.rows && w'.access == w.access
  {
  }

  lemma ProvidedAccess(script: Script, w: World, entrypoints: seq<Entrypoint>, dns: Option<seq<string>>)
    ensures ProvisionAll(script, w, entrypoints, dns).2 == ProvisionShared(script, w, dns).1
  {
    hide ProvisionShared, ProvisionEach;
  }

  lemma QuietAllGoesOn(script: Script, w: World, entrypoints: seq<Entrypoint>, dns: Option<seq<string>>)
    requires Quiet(script, w.tick) && w.sandbox
    ensures var w' := ProvisionAll(script, w, entrypoints, dns).0;
            w'.sandbox && w.tick <= w'.tick && Quiet(script, w'.tick)
  {
    QuietShared(script, w, dns);
    hide ProvisionShared, ProvisionEach;
    var (w1, access) := ProvisionShared(script, w, dns);
    assert Quiet(script, w1.tick);
    if access.Some? {
      QuietEach(script, w1, entrypoints, Ids(access.value.group));
    }
  }

  lemma WiredElsewhere(w: World, w': World, row: Resources, ep: Entrypoint, shared: set<string>)
    requires Wired(w, row, ep, shared) && w'.sandbox && w'.objs == w.objs && w'.rows == w.rows
    ensures Wired(w', row, ep, shared)
  {
  }

  lemma QuietProvisionAll(script: Script, w: World, entrypoints: seq<Entrypoint>, dns: Option<seq<string>>)
    requires Start(script, w) && Quiet(script, w.tick) && DistinctNames(entrypoints)
    ensures var (w2, created, access) := ProvisionAll(script, w, entrypoints, dns);
            var w' := EndGuard(script, w2, created, access);
            && w'.sandbox && SharedComplete(w'.access, dns)
            && forall i | 0 <= i < |entrypoints| ::
                 exists row <- w'.rows :: Wired(w', row, entrypoints[i], Ids(w'.access.value.group))
  {
    QuietSharedIsComplete(script, w, dns);
    QuietShared(script, w, dns);
    EntrypointsNeedOnlyTheGroup(script, w, entrypoints, dns);
    SharedIsStored(script, w, entrypoints, dns);
    QuietAllGoesOn(script, w, entrypoints, dns);
    ProvidedAccess(script, w, entrypoints, dns);
    var (w2, created, access) := ProvisionAll(script, w, entrypoints, dns);
    var w' := EndGuard(script, w2, created, access);
    QuietGuard(script, w2, created, access);
    hide ProvisionAll, ProvisionShared, EndGuard, Wired, Quiet, Start, SharedComplete;
    forall i | 0 <= i < |entrypoints|
      ensures exists row <- w'.rows :: Wired(w', row, entrypoints[i], Ids(w'.access.value.group))
    {
      assert IsWired(w2, created, entrypoints[i], Ids(access.value.group));
      var row :| row in created && Wired(w2, row, entrypoints[i], Ids(access.value.group));
      WiredElsewhere(w2, w', row, entrypoints[i], Ids(access.value.group));
    }
  }
}
