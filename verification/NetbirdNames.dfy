/**
 Entrypoints share a row when they share a name.  Then the objects made first are forgotten: the round
 trip is the identity exactly when the names are distinct.
 */
module NetbirdNames {
  import opened Common
  import opened Text
  import opened NetbirdWorld
  import opened NetbirdTeardown
  import opened NetbirdProvision
  import opened NetbirdResidue
  import opened NetbirdLeftovers

  // ---- Rows under saves ----

  predicate UniqueHosts(rows: seq<Resources>) {
    forall i, j | 0 <= i < j < |rows| :: rows[i].host != rows[j].host
  }

  lemma {:induction false} UpsertIs(rows: seq<Resources>, row: Resources)
    requires UniqueHosts(rows)
    ensures UniqueHosts(Upsert(rows, row))
    ensures forall r <- Upsert(rows, row) :: r == row || (r in rows && r.host != row.host)
  {
    FindIs(rows, row.host);
    if rows != [] && rows[|rows| - 1].host != row.host && Find(rows, row.host).Some? {
      UpsertIs(rows[..|rows| - 1], row);
      var first, last := Upsert(rows[..|rows| - 1], row), rows[|rows| - 1];
      forall i | 0 <= i < |first|
        ensures first[i].host != last.host
      {
        assert first[i] in first;
        if first[i] != row {
          var k: nat :| k < |rows| - 1 && rows[..|rows| - 1][k] == first[i];
          assert rows[k].host != last.host;
        }
      }
    }
  }

  /** The rows are those of `before` for other hosts, and `row`. */
  predicate RowsAre(before: seq<Resources>, rows: seq<Resources>, row: Resources) {
    UniqueHosts(rows) && forall r <- rows :: r == row || (r in before && r.host != row.host)
  }

  lemma SaveKeepsRows(before: seq<Resources>, rows: seq<Resources>, row: Resources, row': Resources)
    requires RowsAre(before, rows, row) && row'.host == row.host
    ensures RowsAre(before, Upsert(rows, row'), row')
  {
    UpsertIs(rows, row');
  }

  // ---- One round in which nothing fails ----

  /** No row has the id of a group that is still to be made. */
  ghost predicate OldGroups(script: Script, w: World) {
    UniqueHosts(w.rows) && forall r <- w.rows, t: nat | w.tick <= t :: r.group != Some(script(t).id)
  }

  lemma QuietStageRows(script: Script, w: World, before: seq<Resources>, row: Resources, kind: Kind,
                       groups: set<string>)
    requires Quiet(script, w.tick) && w.sandbox && RowsAre(before, w.rows, row)
    ensures var (w', row', _) := Stage(script, w, row, kind, groups);
            && RowsAre(before, w'.rows, row') && row' == WithId(row, kind, script(w.tick).id)
            && w'.objs.Keys == w.objs.Keys + {Obj(kind, script(w.tick).id)}
            && w'.tick > w.tick && w'.access == w.access
  {
    hide RowsAre, Upsert, Find;
    SaveKeepsRows(before, w.rows, row, WithId(row, kind, script(w.tick).id));
  }

  lemma {:induction false} QuietRoutesRows(script: Script, w: World, routes: seq<string>, groups: set<string>)
    requires Quiet(script, w.tick) && w.sandbox
    ensures var w' := CreateRoutes(script, w, routes, groups).0;
            w'.rows == w.rows && w.objs.Keys <= w'.objs.Keys && w'.access == w.access
  {
    if routes != [] {
      QuietRoutesRows(script, w, routes[..|routes| - 1], groups);
      QuietRoutes(script, w, routes[..|routes| - 1], groups);
    }
  }

  lemma QuietLinksRows(script: Script, w: World, before: seq<Resources>, row: Resources, routes: seq<string>,
                       shared: set<string>)
    requires Quiet(script, w.tick) && w.sandbox && RowsAre(before, w.rows, row)
    ensures var (w', result) := ProvisionLinks(script, w, row, routes, shared);
            && result.Some? && result.value.group == row.group && result.value.host == row.host
            && RowsAre(before, w'.rows, result.value)
            && w.objs.Keys <= w'.objs.Keys && w'.access == w.access
  {
    var groups := Ids(row.group) + shared;
    QuietRoutes(script, w, routes, groups);
    QuietRoutesRows(script, w, routes, groups);
    var (w1, row1, _) := StageRoutes(script, w, row, routes, groups);
    SaveKeepsRows(before, w.rows, row, row1);
    QuietStage(script, w1, row1, Policy, groups);
    QuietStageRows(script, w1, before, row1, Policy, groups);
  }

  lemma NewRowRows(script: Script, w: World, host: string)
    requires Quiet(script, w.tick) && w.sandbox && UniqueHosts(w.rows)
    ensures var (w', row) := GetOrCreateRow(script, w, host);
            && row.Some? && row.value.host == host && RowsAre(w.rows, w'.rows, row.value)
            && w'.objs == w.objs && w'.access == w.access && w'.sandbox && w'.tick == w.tick + 1
  {
    FindIs(w.rows, host);
    var (w', row) := GetOrCreateRow(script, w, host);
    if row.Some? && Find(w.rows, host).Some? {
      forall r <- w.rows
        ensures r == row.value || r.host != host
      {
        var i, j :| 0 <= i < |w.rows| && 0 <= j < |w.rows| && w.rows[i] == r && w.rows[j] == row.value;
        assert i < j || j < i || r == row.value;
      }
    }
  }

  lemma QuietRowRows(script: Script, w: World, before: seq<Resources>, row: Resources, routes: seq<string>,
                     shared: set<string>)
    requires Quiet(script, w.tick) && w.sandbox && RowsAre(before, w.rows, row)
    ensures var (w', result) := ProvisionRow(script, w, row, routes, shared);
            var g := script(w.tick).id;
            && result.Some? && result.value.group == Some(g) && result.value.host == row.host
            && RowsAre(before, w'.rows, result.value)
            && w.objs.Keys + {Obj(Group, g)} <= w'.objs.Keys && w'.access == w.access
            && w'.sandbox && w'.tick > w.tick
  {
    QuietStage(script, w, row, Group, {});
    QuietStageRows(script, w, before, row, Group, {});
    var (w1, row1, _) := Stage(script, w, row, Group, {});
    QuietStage(script, w1, row1, SetupKey, Ids(row1.group));
    QuietStageRows(script, w1, before, row1, SetupKey, Ids(row1.group));
    var (w2, row2, _) := Stage(script, w1, row1, SetupKey, Ids(row1.group));
    QuietLinks(script, w2, row2, routes, shared);
    QuietLinksRows(script, w2, before, row2, routes, shared);
  }

  /** The row of this name has the new host group `g`; the rows of other names are as they were. */
  ghost predicate Reworked(w: World, w': World, host: string, g: string) {
    && UniqueHosts(w'.rows)
    && (forall r <- w'.rows :: if r.host == host then r.group == Some(g) else r in w.rows)
    && Obj(Group, g) in w'.objs && w.objs.Keys <= w'.objs.Keys
    && w'.tick > w.tick + 1 && w'.access == w.access
  }

  lemma QuietRound(script: Script, w: World, ep: Entrypoint, shared: set<string>)
    requires Quiet(script, w.tick) && w.sandbox && UniqueHosts(w.rows)
    ensures Reworked(w, ProvisionEntrypoint(script, w, ep, shared).0, ep.name, script(w.tick + 1).id)
  {
    NewRowRows(script, w, ep.name);
    var (w1, row) := GetOrCreateRow(script, w, ep.name);
    QuietRowRows(script, w1, w.rows, row.value, ep.routes, shared);
  }

  // ---- The loop ----

  lemma OldStep(script: Script, w: World, w': World, host: string)
    requires GoodIds(script) && OldGroups(script, w) && Reworked(w, w', host, script(w.tick + 1).id)
    ensures OldGroups(script, w')
  {
    forall r <- w'.rows, t: nat | w'.tick <= t
      ensures r.group != Some(script(t).id)
    {
      assert Differ(script, w.tick + 1, t);
    }
  }

  lemma OneRound(script: Script, w: World, done: seq<Resources>, ep: Entrypoint, shared: set<string>)
    requires GoodIds(script) && Quiet(script, w.tick) && w.sandbox && OldGroups(script, w)
    ensures var w' := ProvisionOne(script, w, done, ep, shared).0;
            Reworked(w, w', ep.name, script(w.tick + 1).id) && OldGroups(script, w')
  {
    QuietEntrypoint(script, w, ep, shared);
    QuietRound(script, w, ep, shared);
    OldStep(script, w, ProvisionEntrypoint(script, w, ep, shared).0, ep.name);
  }

  lemma LastRound(script: Script, w: World, entrypoints: seq<Entrypoint>, shared: set<string>)
    requires GoodIds(script) && Quiet(script, w.tick) && w.sandbox && entrypoints != []
    requires OldGroups(script, ProvisionEach(script, w, entrypoints[..|entrypoints| - 1], shared).0)
    ensures var k := |entrypoints| - 1;
            var w1 := ProvisionEach(script, w, entrypoints[..k], shared).0;
            var w2 := ProvisionEach(script, w, entrypoints, shared).0;
            Reworked(w1, w2, entrypoints[k].name, script(w1.tick + 1).id) && OldGroups(script, w2) && w.tick <= w1.tick
  {
    hide ProvisionOne, Quiet, GoodIds, OldGroups, Reworked;
    var before := entrypoints[..|entrypoints| - 1];
    QuietEach(script, w, before, shared);
    var (w1, done) := ProvisionEach(script, w, before, shared);
    QuietLater(script, w.tick, w1.tick);
    OneRound(script, w1, done, entrypoints[|entrypoints| - 1], shared);
  }

  lemma {:induction false} GroupsStayOld(script: Script, w: World, entrypoints: seq<Entrypoint>, shared: set<string>)
    requires GoodIds(script) && Quiet(script, w.tick) && w.sandbox && OldGroups(script, w)
    ensures OldGroups(script, ProvisionEach(script, w, entrypoints, shared).0)
    ensures ProvisionEach(script, w, entrypoints, shared).0.access == w.access
  {
    hide ProvisionOne, Quiet, GoodIds, OldGroups;
    if entrypoints != [] {
      GroupsStayOld(script, w, entrypoints[..|entrypoints| - 1], shared);
      LastRound(script, w, entrypoints, shared);
    }
  }

  /** The group `g` made at `t` is there, and rows name it only under `host`; under no name when `gone`. */
  ghost predicate OnlyUnder(script: Script, w: World, t: nat, host: string, gone: bool) {
    && t < w.tick && Obj(Group, script(t).id) in w.objs
    && forall r <- w.rows :: r.group == Some(script(t).id) ==> r.host == host && !gone
  }

  lemma FirstUnder(script: Script, w: World, w': World, host: string)
    requires OldGroups(script, w) && Reworked(w, w', host, script(w.tick + 1).id)
    ensures OnlyUnder(script, w', w.tick + 1, host, false)
  {
  }

  lemma NextUnder(script: Script, w: World, w': World, host': string, t: nat, host: string, gone: bool)
    requires GoodIds(script) && OnlyUnder(script, w, t, host, gone) && Reworked(w, w', host', script(w.tick + 1).id)
    ensures OnlyUnder(script, w', t, host, gone || host' == host)
  {
    assert Differ(script, w.tick + 1, t);
  }

  predicate ComesAgain(entrypoints: seq<Entrypoint>, i: nat)
    requires i < |entrypoints|
  {
    exists j | i < j < |entrypoints| :: entrypoints[j].name == entrypoints[i].name
  }

  lemma ComesAgainLater(entrypoints: seq<Entrypoint>, i: nat)
    requires i < |entrypoints| - 1
    ensures ComesAgain(entrypoints, i)
            <==> ComesAgain(entrypoints[..|entrypoints| - 1], i)
                 || entrypoints[|entrypoints| - 1].name == entrypoints[i].name
  {
    var before := entrypoints[..|entrypoints| - 1];
    assert forall j | 0 <= j < |before| :: before[j] == entrypoints[j];
    if ComesAgain(before, i) {
      var j :| i < j < |before| && before[j].name == before[i].name;
      assert entrypoints[j].name == entrypoints[i].name;
    }
    if ComesAgain(entrypoints, i) {
      var j :| i < j < |entrypoints| && entrypoints[j].name == entrypoints[i].name;
      assert j < |before| ==> before[j].name == before[i].name;
    }
  }

  lemma LaterUnder(script: Script, w: World, w': World, entrypoints: seq<Entrypoint>, i: nat, t: nat)
    requires GoodIds(script) && i < |entrypoints| - 1
    requires var before := entrypoints[..|entrypoints| - 1];
             OnlyUnder(script, w, t, before[i].name, ComesAgain(before, i))
    requires Reworked(w, w', entrypoints[|entrypoints| - 1].name, script(w.tick + 1).id)
    ensures OnlyUnder(script, w', t, entrypoints[i].name, ComesAgain(entrypoints, i))
  {
    var k := |entrypoints| - 1;
    NextUnder(script, w, w', entrypoints[k].name, t, entrypoints[i].name, ComesAgain(entrypoints[..k], i));
    ComesAgainLater(entrypoints, i);
  }

  /** The host group of round `i` is named by its own row only, and by none once the name came again. */
  lemma {:induction false} GroupIsForgotten(script: Script, w: World, entrypoints: seq<Entrypoint>, shared: set<string>,
                                            i: nat)
    returns (t: nat)
    requires GoodIds(script) && Quiet(script, w.tick) && w.sandbox && OldGroups(script, w) && i < |entrypoints|
    ensures OnlyUnder(script, ProvisionEach(script, w, entrypoints, shared).0, t, entrypoints[i].name,
                      ComesAgain(entrypoints, i))
    ensures w.tick < t
    decreases |entrypoints|
  {
    hide ProvisionEach, Quiet, GoodIds, OldGroups;
    var k := |entrypoints| - 1;
    var w1, w2 := ProvisionEach(script, w, entrypoints[..k], shared).0, ProvisionEach(script, w, entrypoints, shared).0;
    GroupsStayOld(script, w, entrypoints[..k], shared);
    LastRound(script, w, entrypoints, shared);
    if i == k {
      FirstUnder(script, w1, w2, entrypoints[i].name);
      t := w1.tick + 1;
    } else {
      t := GroupIsForgotten(script, w, entrypoints[..k], shared, i);
      LaterUnder(script, w1, w2, entrypoints, i, t);
    }
  }

  // ---- The round trip ----

  lemma {:induction false} UntouchedStays(strict: bool, objs: Objects, targets: seq<Obj>, o: Obj)
    requires o in objs && o !in targets
    ensures o in RemoveAll(strict, objs, targets)
  {
    if targets != [] {
      UntouchedStays(strict, objs, targets[..|targets| - 1], o);
    }
  }

  lemma QuietLater(script: Script, m: nat, n: nat)
    requires Quiet(script, m) && m <= n
    ensures Quiet(script, n)
  {
  }

  lemma StartAsked(script: Script, w: World)
    requires Start(script, w) && Quiet(script, w.tick)
    ensures Start(script, Asked(script, w)) && Quiet(script, Asked(script, w).tick)
            && Asked(script, w).tick == w.tick + 1
  {
  }

  lemma QuietSharedGroup(script: Script, w: World, dns: Option<seq<string>>)
    requires Start(script, w) && Quiet(script, w.tick)
    ensures var (w1, access) := ProvisionShared(script, w, dns);
            && access.Some? && access.value.group == Some(script(w.tick + 1).id)
            && w1.tick > w.tick + 1 && w1.sandbox && w1.rows == [] && w1.access == access
  {
    hide AccessStage, Plain;
    PlainIsTruthy(script(w.tick + 1).id);
    var w1 := GetOrCreateAccess(script, w).0;
    AccessStageIs(script, w1, BLANK_ACCESS, Group, {});
    var (w2, access, ok) := AccessStage(script, w1, BLANK_ACCESS, Group, {});
    AccessStageIs(script, w2, access, SetupKey, Ids(access.group));
    var (w3, access3, ok3) := ProvisionAccess(script, w1, BLANK_ACCESS);
    AccessStageIs(script, w3, access3, Nameservers, Ids(access3.group));
  }

  /** Provisioning in which nothing fails ends as its loop does. */
  lemma QuietProvisionIs(script: Script, w: World, entrypoints: seq<Entrypoint>, dns: Option<seq<string>>)
    requires Quiet(script, w.tick) && w.sandbox && entrypoints != []
    requires var access := ProvisionShared(script, Asked(script, w), dns).1;
             access.Some? && Truthy(access.value.group)
    ensures var (w1, access) := ProvisionShared(script, Asked(script, w), dns);
            var w2 := Provision(script, w, entrypoints, dns);
            var w3 := ProvisionEach(script, w1, entrypoints, Ids(access.value.group)).0;
            w2.objs == w3.objs && w2.rows == w3.rows && w2.access == w3.access && w2.strict == w3.strict
  {
    QuietShared(script, Asked(script, w), dns);
    var (w1, access) := ProvisionShared(script, Asked(script, w), dns);
    QuietEach(script, w1, entrypoints, Ids(access.value.group));
  }

  lemma NotATarget(rows: seq<Resources>, access: Option<Access>, g: string)
    requires forall r <- rows :: r.group != Some(g)
    requires access.Some? ==> access.value.group != Some(g)
    ensures Obj(Group, g) !in AllTargets(rows, access)
  {
    NotInRows(rows, g);
  }

  /** Two entrypoints of the same name: a host group is left behind, even when nothing fails. */
  lemma {:induction false} SharedNameLeavesGroup(script: Script, w: World, entrypoints: seq<Entrypoint>,
                                                 dns: Option<seq<string>>, budget: int, i: nat, j: nat)
    requires Start(script, w) && Quiet(script, w.tick)
    requires i < j < |entrypoints| && entrypoints[i].name == entrypoints[j].name
    ensures var w1 := Provision(script, w, entrypoints, dns);
            InTime(script, w1, budget) ==> Destroy(script, w1, budget).objs != w.objs
  {
    hide ProvisionEach, ProvisionShared, Provision, Destroy, Quiet;
    StartAsked(script, w);
    QuietSharedGroup(script, Asked(script, w), dns);
    assert Plain(script(w.tick + 2).id);
    QuietProvisionIs(script, w, entrypoints, dns);
    QuietProvision(script, w, entrypoints, dns);
    var (w1, access) := ProvisionShared(script, Asked(script, w), dns);
    QuietLater(script, w.tick, w1.tick);
    QuietLater(script, w.tick, Provision(script, w, entrypoints, dns).tick);
    var t := GroupIsForgotten(script, w1, entrypoints, Ids(access.value.group), i);
    GroupsStayOld(script, w1, entrypoints, Ids(access.value.group));
    assert Differ(script, t, w.tick + 2);
    LeftBehind(script, w, Provision(script, w, entrypoints, dns), budget, t);
  }

  lemma LeftBehind(script: Script, w: World, w1: World, budget: int, t: nat)
    requires Fresh(script, w) && w.tick <= t
    requires Quiet(script, w1.tick)
    requires Obj(Group, script(t).id) in w1.objs
    requires forall r <- w1.rows :: r.group != Some(script(t).id)
    requires w1.access.Some? ==> w1.access.value.group != Some(script(t).id)
    ensures InTime(script, w1, budget) ==> Destroy(script, w1, budget).objs != w.objs
  {
    NotATarget(w1.rows, w1.access, script(t).id);
    if InTime(script, w1, budget) {
      QuietDestroyClears(script, w1, budget);
    }
    UntouchedStays(w1.strict, w1.objs, AllTargets(w1.rows, w1.access), Obj(Group, script(t).id));
    assert Obj(Group, script(t).id) !in w.objs;
  }

  /** When nothing fails, provisioning and teardown leave the cloud as it was exactly if the names are distinct. */
  lemma {:induction false} QuietRoundTripIff(script: Script, w: World, entrypoints: seq<Entrypoint>,
                                             dns: Option<seq<string>>, budget: int)
    requires Start(script, w) && Quiet(script, w.tick)
    ensures var w1 := Provision(script, w, entrypoints, dns);
            InTime(script, w1, budget) ==> (Destroy(script, w1, budget).objs == w.objs <==> DistinctNames(entrypoints))
  {
    if DistinctNames(entrypoints) {
      QuietRoundTripIsIdentity(script, w, entrypoints, dns, budget);
    } else {
      var i: nat, j: nat :| i < j < |entrypoints| && entrypoints[i].name == entrypoints[j].name;
      SharedNameLeavesGroup(script, w, entrypoints, dns, budget, i, j);
    }
  }
}
