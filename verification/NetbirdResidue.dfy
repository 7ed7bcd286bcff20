/**
 What stays in the cloud: after provisioning and teardown, and after a sandbox deleted in the middle of
 provisioning.
 */
module NetbirdResidue {
  import opened Common
  import opened NetbirdWorld
  import opened NetbirdTeardown
  import opened NetbirdProvision

  // ---- Teardown as a set of removals ----

  /** No object stands behind a group that it refers to. */
  ghost predicate InOrder(objs: Objects, targets: seq<Obj>) {
    forall i, j | 0 <= i < j < |targets| ::
      targets[i].kind.Group? && targets[j] in objs ==> targets[i].id !in objs[targets[j]]
  }

  /** Groups refer to nothing. */
  ghost predicate Blank(objs: Objects, targets: seq<Obj>) {
    forall o <- targets :: o.kind.Group? && o in objs ==> objs[o] == {}
  }

  /** The groups that a strict server keeps because something else uses them. */
  function Pinned(strict: bool, objs: Objects, users: set<Obj>): set<Obj> {
    set g <- objs | strict && g.kind.Group? && exists o <- users :: o in objs && g.id in objs[o]
  }

  /** What deleting the first `n` targets leaves, when all other objects are `others`. */
  ghost predicate Left(strict: bool, objs: Objects, others: set<Obj>, objs': Objects, targets: seq<Obj>) {
    && (forall o <- objs' :: o in objs && objs'[o] == objs[o])
    && (forall o <- objs :: o in objs' <==> o !in targets || o in Pinned(strict, objs, others))
  }

  lemma OneMoreLeft(strict: bool, objs: Objects, others: set<Obj>, objs': Objects, targets: seq<Obj>, n: nat)
    requires n < |targets| && Left(strict, objs, others, objs', targets[..n])
    requires InOrder(objs, targets) && Blank(objs, targets)
    requires forall o <- objs :: o in targets <==> o !in others
    ensures Left(strict, objs, others, Remove(strict, objs', targets[n]), targets[..n + 1])
  {
    var o := targets[n];
    assert forall x :: x in targets[..n + 1] <==> x in targets[..n] || x == o;
    if o in objs {
      assert Refused(strict, objs', o) <==> o in Pinned(strict, objs, others) by {
        if Refused(strict, objs', o) {
          var user :| user in objs' && o.id in objs'[user];
          if user in targets {
            TargetsAreNoUsers(strict, objs, others, objs', targets, n, user);
          }
        }
        if o in Pinned(strict, objs, others) {
          var user :| user in others && user in objs && o.id in objs[user];
          assert forall x <- targets[..n] :: x in targets;
        }
      }
    }
  }

  lemma TargetsAreNoUsers(strict: bool, objs: Objects, others: set<Obj>, objs': Objects, targets: seq<Obj>, n: nat,
                          user: Obj)
    requires n < |targets| && Left(strict, objs, others, objs', targets[..n])
    requires InOrder(objs, targets) && Blank(objs, targets)
    requires targets[n].kind.Group? && user in objs' && user in targets
    ensures targets[n].id !in objs'[user]
  {
    var j: nat :| j < |targets| && targets[j] == user;
    if j < n {
      assert targets[..n][j] == user;
      assert user.kind.Group?;
    }
  }

  lemma {:induction false} RemoveAllLeaves(strict: bool, objs: Objects, others: set<Obj>, targets: seq<Obj>, n: nat)
    requires n <= |targets|
    requires InOrder(objs, targets) && Blank(objs, targets)
    requires forall o <- objs :: o in targets <==> o !in others
    ensures Left(strict, objs, others, RemoveAll(strict, objs, targets[..n]), targets[..n])
  {
    if n > 0 {
      RemoveAllLeaves(strict, objs, others, targets, n - 1);
      assert targets[..n][..n - 1] == targets[..n - 1];
      OneMoreLeft(strict, objs, others, RemoveAll(strict, objs, targets[..n - 1]), targets, n - 1);
    }
  }

  // ---- The shared objects while they are made ----

  /** The handle names exactly what was made since `w0`; its row agrees with it as long as there is one. */
  ghost predicate SharedMine(w0: World, w: World, access: Access) {
    && w.lost == w0.lost
    && (forall o <- w.objs :: o in w0.objs || o in AccessTargets(access))
    && (forall o <- AccessTargets(access) :: o !in w0.objs)
    && Shaped(w.objs, AccessTargets(access), Ids(access.group))
    && (w.sandbox ==> w.access == Some(access) && w.rows == w0.rows)
  }

  predicate AccessUnset(access: Access, kind: Kind) {
    match kind
    case Group => access.group.None?
    case SetupKey => access.key.None?
    case Nameservers => access.nameservers.None?
    case _ => false
  }

  lemma AccessWithIdTargets(access: Access, kind: Kind, id: string, o: Obj)
    requires AccessUnset(access, kind) && id != ""
    ensures o in AccessTargets(AccessWithId(access, kind, id)) <==> o in AccessTargets(access) || o == Obj(kind, id)
  {
  }

  /** One more target, which is the one new object. */
  lemma NamesOneMore(before: Objects, objs: Objects, objs': Objects, targets: seq<Obj>, targets': seq<Obj>, o: Obj,
                     groups: set<string>, groups': set<string>, refs: set<string>)
    requires forall x <- objs :: x in before || x in targets
    requires forall x <- targets :: x !in before
    requires Shaped(objs, targets, groups) && groups <= groups' && refs <= if o.kind.Group? then {} else groups'
    requires forall x <- before :: x in objs
    requires o !in objs && objs' == objs[o := refs]
    requires forall x :: x in targets' <==> x in targets || x == o
    ensures forall x <- objs' :: x in before || x in targets'
    ensures forall x <- targets' :: x !in before
    ensures Shaped(objs', targets', groups')
  {
  }

  lemma SharedMade(w0: World, w: World, w': World, access: Access, kind: Kind, id: string, groups: set<string>)
    requires SharedMine(w0, w, access) && AccessUnset(access, kind) && id != ""
    requires forall o <- w0.objs :: o in w.objs
    requires Obj(kind, id) !in w.objs && w'.objs == w.objs[Obj(kind, id) := groups] && w'.lost == w.lost
    requires groups <= if kind.Group? then {} else Ids(access.group)
    requires w'.sandbox ==> w'.access == Some(AccessWithId(access, kind, id)) && w'.rows == w0.rows
    ensures SharedMine(w0, w', AccessWithId(access, kind, id))
  {
    var access' := AccessWithId(access, kind, id);
    forall o {
      AccessWithIdTargets(access, kind, id, o);
    }
    assert Ids(access.group) <= Ids(access'.group);
    hide AccessTargets, AccessWithId, AccessUnset, Shaped, Ids;
    NamesOneMore(w0.objs, w.objs, w'.objs, AccessTargets(access), AccessTargets(access'), Obj(kind, id),
                 Ids(access.group), Ids(access'.group), groups);
  }

  lemma SharedIdles(w0: World, w: World, w': World, access: Access)
    requires SharedMine(w0, w, access) && w'.objs == w.objs && w'.lost == w.lost
    requires w'.sandbox ==> w.sandbox && w'.access == w.access && w'.rows == w.rows
    ensures SharedMine(w0, w', access)
  {
  }

  /** How a stage of the shared objects ends. */
  lemma AccessStageEnds(script: Script, w: World, access: Access, kind: Kind, groups: set<string>)
    ensures var (w', access', ok) := AccessStage(script, w, access, kind, groups);
            var (w1, id) := CreateObject(script, w, kind, groups);
            && w'.objs == w1.objs && w'.lost == w1.lost
            && access' == (if id.Some? then AccessWithId(access, kind, id.value) else access)
            && (w'.sandbox ==>
                  w.sandbox && w'.rows == w.rows && w'.access == if id.Some? then Some(access') else w.access)
  {
  }

  lemma SharedRows(w0: World, w: World, access: Access)
    requires SharedMine(w0, w, access) && w.sandbox
    ensures w.rows == w0.rows
  {
  }

  lemma AccessStageMine(script: Script, w0: World, w: World, access: Access, kind: Kind, groups: set<string>)
    requires Sound(script, w0) && Grows(script, w0, w) && SharedMine(w0, w, access)
    requires AccessUnset(access, kind) && Known(w, groups) && groups <= if kind.Group? then {} else Ids(access.group)
    ensures var (w', access', ok) := AccessStage(script, w, access, kind, groups);
            && Grows(script, w0, w')
            && SharedMine(w0, w', access')
            && (access' == access || exists id :: access' == AccessWithId(access, kind, id))
  {
    SoundStays(script, w0, w);
    AccessStageGrows(script, w, access, kind, groups);
    var (w', access', ok) := AccessStage(script, w, access, kind, groups);
    GrowsJoins(script, w0, w, w');
    CreateGrows(script, w, kind, groups);
    AccessStageEnds(script, w, access, kind, groups);
    hide Grows, Sound, Known, AccessStage, CreateObject, SharedMine, AccessUnset, AccessWithId;
    var id := CreateObject(script, w, kind, groups).1;
    if w'.sandbox {
      SharedRows(w0, w, access);
    }
    if id.Some? {
      SharedMade(w0, w, w', access, kind, id.value, groups);
    } else {
      SharedIdles(w0, w, w', access);
    }
  }

  lemma AccessGroupKnown(w0: World, w: World, access: Access)
    requires SharedMine(w0, w, access)
    ensures Known(w, Ids(access.group))
  {
    if Truthy(access.group) {
      assert Obj(Group, access.group.value) in Named(Group, access.group);
      assert Obj(Group, access.group.value) in AccessTargets(access);
    }
  }

  lemma ProvisionAccessMine(script: Script, w0: World, w: World)
    requires Sound(script, w0) && Grows(script, w0, w) && SharedMine(w0, w, BLANK_ACCESS)
    ensures var (w', access', _) := ProvisionAccess(script, w, BLANK_ACCESS);
            Grows(script, w0, w') && SharedMine(w0, w', access') && access'.nameservers.None?
  {
    AccessStageMine(script, w0, w, BLANK_ACCESS, Group, {});
    var (w1, access1, ok) := AccessStage(script, w, BLANK_ACCESS, Group, {});
    if ok {
      AccessGroupKnown(w0, w1, access1);
      AccessStageMine(script, w0, w1, access1, SetupKey, Ids(access1.group));
    }
  }

  lemma ProvisionDnsMine(script: Script, w0: World, w: World, access: Access, servers: seq<string>)
    requires Sound(script, w0) && Grows(script, w0, w) && SharedMine(w0, w, access) && access.nameservers.None?
    ensures var (w', access', _) := ProvisionDns(script, w, access, servers);
            Grows(script, w0, w') && SharedMine(w0, w', access')
  {
    hide Grows, Sound, SharedMine, AccessStage;
    if servers != [] && Truthy(access.group) {
      AccessGroupKnown(w0, w, access);
      AccessStageMine(script, w0, w, access, Nameservers, Ids(access.group));
    }
  }

  lemma BlankIsMine(script: Script, w0: World)
    requires w0.access.None?
    ensures var (w1, handle) := GetOrCreateAccess(script, w0);
            if handle.None? then w1.objs == w0.objs && w1.lost == w0.lost && !w1.sandbox
            else handle == Some(BLANK_ACCESS) && SharedMine(w0, w1, BLANK_ACCESS)
  {
  }

  lemma {:induction false} ProvisionSharedMine(script: Script, w0: World, dns: Option<seq<string>>)
    requires Sound(script, w0) && w0.access.None?
    ensures var (w', access) := ProvisionShared(script, w0, dns);
            && Grows(script, w0, w')
            && (access.None? ==> w'.objs == w0.objs && w'.lost == w0.lost && !w'.sandbox)
            && (access.Some? ==> SharedMine(w0, w', access.value))
  {
    var (w1, handle) := GetOrCreateAccess(script, w0);
    GetOrCreateGrows(script, w0, "");
    BlankIsMine(script, w0);
    hide Grows, Sound, SharedMine, ProvisionDns, ProvisionAccess, GetOrCreateAccess;
    if handle.Some? {
      ProvisionAccessMine(script, w0, w1);
      var (w2, access, ok) := ProvisionAccess(script, w1, BLANK_ACCESS);
      if dns.Some? {
        ProvisionDnsMine(script, w0, w2, access, dns.value);
      }
    }
  }

  // ---- The entrypoint loop ----

  /** Everything made since `w0` is named, lost, or a stray; and nothing is two of these. */
  ghost predicate Accounted(w0: World, w: World, named: seq<Obj>, stray: set<Obj>) {
    && (forall o <- w.objs :: o in w0.objs || o in named || o in w.lost || o in stray)
    && (forall o <- named :: o in w.objs && o !in w0.objs && o !in w.lost && o !in stray)
    && (forall o <- stray :: o in w.objs && o !in w0.objs)
  }

  /** Deleting the rows' objects and then the shared ones deletes no group before its users. */
  ghost predicate Sorted(objs: Objects, rows: seq<Obj>, access: seq<Obj>, shared: set<string>) {
    && InOrder(objs, rows) && Blank(objs, rows)
    && (forall o <- rows :: o in objs && o !in access)
    && Shaped(objs, access, shared)
  }

  predicate HostsAmong(rows: seq<Resources>, entrypoints: seq<Entrypoint>) {
    forall r <- rows :: exists e <- entrypoints :: e.name == r.host
  }

  /** After some rounds: the stored rows are the recorded ones, as long as the sandbox is there. */
  ghost predicate Loop(script: Script, w0: World, w: World, done: seq<Resources>, access: Access, stray: set<Obj>) {
    && Grows(script, w0, w) && Sound(script, w) && LostThere(w)
    && Accounted(w0, w, RowsTargets(done) + AccessTargets(access), stray)
    && Sorted(w.objs, RowsTargets(done), AccessTargets(access), Ids(access.group))
    && (w.sandbox ==> w.rows == done && w.access == Some(access) && stray == {})
  }

  /** What was made in the round during which the sandbox disappeared. */
  function Stray(script: Script, w: World, entrypoints: seq<Entrypoint>, shared: set<string>): set<Obj> {
    if entrypoints == [] then {}
    else
      var before := entrypoints[..|entrypoints| - 1];
      var w1, w2 := ProvisionEach(script, w, before, shared).0, ProvisionEach(script, w, entrypoints, shared).0;
      if w1.sandbox && !w2.sandbox then w2.objs.Keys - w1.objs.Keys else Stray(script, w, before, shared)
  }

  lemma InOrderAppends(objs: Objects, first: seq<Obj>, second: seq<Obj>)
    requires InOrder(objs, first) && InOrder(objs, second)
    requires forall a <- first, b <- second :: a.kind.Group? && b in objs ==> a.id !in objs[b]
    ensures InOrder(objs, first + second)
  {
    var all := first + second;
    forall i, j | 0 <= i < j < |all| && all[i].kind.Group? && all[j] in objs
      ensures all[i].id !in objs[all[j]]
    {
      if j < |first| {
        assert first[i] == all[i] && first[j] == all[j];
      } else if i >= |first| {
        assert second[i - |first|] == all[i] && second[j - |first|] == all[j];
      } else {
        assert all[i] in first && all[j] in second;
      }
    }
  }

  /** A row's own objects are in order: its group stands last. */
  lemma RowInOrder(objs: Objects, row: Resources)
    ensures InOrder(objs, Targets(row))
  {
    var all := Targets(row);
    assert forall o <- Routes(ListOf(row.routeIds)) :: o.kind.Route?;
    forall i | 0 <= i < |all| - 1
      ensures !all[i].kind.Group?
    {
      if all[i].kind.Group? {
        LastIsTheGroup(row, all[i].id, i);
      }
    }
  }

  lemma AccessInOrder(objs: Objects, access: Access)
    ensures InOrder(objs, AccessTargets(access))
  {
  }

  lemma NamedGroup(row: Resources, access: Access, g: string)
    ensures g in Ids(row.group) ==> Obj(Group, g) in Targets(row)
    ensures g in Ids(access.group) ==> Obj(Group, g) in AccessTargets(access)
  {
    assert g in Ids(row.group) ==> Obj(Group, g) in Named(Group, row.group);
    assert g in Ids(access.group) ==> Obj(Group, g) in Named(Group, access.group);
  }

  lemma InOrderStays(objs: Objects, objs': Objects, targets: seq<Obj>)
    requires InOrder(objs, targets) && forall o <- targets :: o in objs && o in objs' && objs'[o] == objs[o]
    ensures InOrder(objs', targets)
  {
  }

  lemma RowKeepsOrder(objs: Objects, objs': Objects, rows: seq<Obj>, row: Resources, access: Access)
    requires Sorted(objs, rows, AccessTargets(access), Ids(access.group))
    requires forall o <- objs :: o in objs' && objs'[o] == objs[o]
    requires Shaped(objs', Targets(row), Ids(row.group) + Ids(access.group))
    requires forall o <- Targets(row) :: o !in objs
    ensures Sorted(objs', rows + Targets(row), AccessTargets(access), Ids(access.group))
  {
    RowInOrder(objs', row);
    InOrderStays(objs, objs', rows);
    forall a <- rows, b <- Targets(row) | a.kind.Group?
      ensures a.id !in objs'[b]
    {
      NamedGroup(row, access, a.id);
      assert a == Obj(Group, a.id);
    }
    InOrderAppends(objs', rows, Targets(row));
    hide InOrder, Targets, AccessTargets, Ids;
  }

  lemma RoundAlive(script: Script, w0: World, w: World, w': World, done: seq<Resources>, access: Access, row: Resources)
    requires Loop(script, w0, w, done, access, {}) && Grows(script, w, w') && w.sandbox
    requires Mine(w, w', done, row, Ids(access.group))
    ensures Loop(script, w0, w', done + [row], access, {})
  {
    GrowsJoins(script, w0, w, w');
    RowsTargetsSnoc(done, row);
    RowKeepsOrder(w.objs, w'.objs, RowsTargets(done), row, access);
    RoundAccounted(w0, w, w', RowsTargets(done), AccessTargets(access), Targets(row));
  }

  lemma RowsTargetsSnoc(rows: seq<Resources>, row: Resources)
    ensures RowsTargets(rows + [row]) == RowsTargets(rows) + Targets(row)
  {
    assert (rows + [row])[..|rows + [row]| - 1] == rows;
  }

  lemma RoundAccounted(w0: World, w: World, w': World, rows: seq<Obj>, access: seq<Obj>, targets: seq<Obj>)
    requires Accounted(w0, w, rows + access, {})
    requires forall o <- w0.objs :: o in w.objs
    requires forall o <- w.objs :: o in w'.objs
    requires forall o <- w'.objs :: o in w.objs || o in targets || o in w'.lost
    requires forall o <- targets :: o in w'.objs && o !in w.objs && o !in w'.lost
    requires w.lost <= w'.lost && forall o <- w'.lost :: o in w.lost || o !in w.objs
    ensures Accounted(w0, w', (rows + targets) + access, {})
  {
    assert forall o :: o in (rows + targets) + access <==> o in rows + access || o in targets;
  }

  lemma RoundStray(script: Script, w0: World, w: World, w': World, done: seq<Resources>, access: Access)
    requires Loop(script, w0, w, done, access, {}) && Grows(script, w, w') && w.sandbox && !w'.sandbox
    ensures Loop(script, w0, w', done, access, w'.objs.Keys - w.objs.Keys)
  {
    GrowsJoins(script, w0, w, w');
    assert InOrder(w'.objs, RowsTargets(done));
    assert forall o <- RowsTargets(done) + AccessTargets(access) :: o in w.objs;
  }

  predicate DistinctNames(entrypoints: seq<Entrypoint>) {
    forall i, j | 0 <= i < j < |entrypoints| :: entrypoints[i].name != entrypoints[j].name
  }

  /** One round, however it goes. */
  lemma Round(script: Script, w0: World, w: World, done: seq<Resources>, access: Access, stray: set<Obj>,
              ep: Entrypoint)
    requires Loop(script, w0, w, done, access, stray) && WellKept(w)
    requires Find(done, ep.name).None?
    ensures var (w', done') := ProvisionOne(script, w, done, ep, Ids(access.group));
            && Loop(script, w0, w', done', access,
                    if w.sandbox && !w'.sandbox then w'.objs.Keys - w.objs.Keys else stray)
            && (done' == done || exists r: Resources :: r.host == ep.name && done' == done + [r])
  {
    var (w1, result) := ProvisionEntrypoint(script, w, ep, Ids(access.group));
    var (w', done') := ProvisionOne(script, w, done, ep, Ids(access.group));
    if w.sandbox {
      SharedKnown(script, w0, w, done, access, stray);
      var row := EntrypointMine(script, w, done, ep, Ids(access.group));
      AskedGrows(script, w1);
      GrowsJoins(script, w, w1, Asked(script, w1));
      if w'.sandbox {
        RoundFinds(script, w, w1, done, row, result, ep, Ids(access.group));
        RoundAlive(script, w0, w, w', done, access, row);
      } else {
        RoundStray(script, w0, w, w', done, access);
      }
    } else {
      DeadRound(script, w, done, ep, Ids(access.group));
      AskedGrows(script, w);
      AskedGrows(script, Asked(script, w));
      GrowsJoins(script, w, Asked(script, w), w');
      LoopIdles(script, w0, w, w', done, access, stray);
    }
  }

  lemma SharedKnown(script: Script, w0: World, w: World, done: seq<Resources>, access: Access, stray: set<Obj>)
    requires Loop(script, w0, w, done, access, stray)
    ensures Known(w, Ids(access.group))
  {
    forall g <- Ids(access.group)
      ensures exists o <- w.objs :: o.id == g
    {
      NamedGroup(BlankRow(""), access, g);
      assert Obj(Group, g) in w.objs;
    }
  }

  lemma RoundFinds(script: Script, w: World, w1: World, done: seq<Resources>, row: Resources, result: Option<Resources>,
                   ep: Entrypoint, shared: set<string>)
    requires ProvisionEntrypoint(script, w, ep, shared) == (w1, result)
    requires MineAfter(script, w, done, row, shared, w1, result) && row.host == ep.name
    requires ProvisionOne(script, w, done, ep, shared).0.sandbox
    ensures var (w', done') := ProvisionOne(script, w, done, ep, shared);
            done' == done + [row] && Mine(w, w', done, row, shared)
  {
    if result.None? {
      assert w1.sandbox;
      assert (done + [row])[..|done + [row]| - 1] == done;
    }
  }

  lemma DeadRound(script: Script, w: World, done: seq<Resources>, ep: Entrypoint, shared: set<string>)
    requires !w.sandbox && WellKept(w)
    ensures ProvisionOne(script, w, done, ep, shared) == (Asked(script, Asked(script, w)), done)
  {
  }

  lemma LoopIdles(script: Script, w0: World, w: World, w': World, done: seq<Resources>, access: Access, stray: set<Obj>)
    requires Loop(script, w0, w, done, access, stray) && Grows(script, w, w')
    requires !w.sandbox && w'.objs == w.objs && w'.lost == w.lost
    ensures Loop(script, w0, w', done, access, stray)
  {
    GrowsJoins(script, w0, w, w');
  }

  /** The whole loop: all that was made is named by a recorded row, lost, or stray. */
  lemma {:induction false} LoopHolds(script: Script, w0: World, w: World, entrypoints: seq<Entrypoint>, access: Access)
    requires Loop(script, w0, w, [], access, {}) && DistinctNames(entrypoints)
    ensures var (w', done) := ProvisionEach(script, w, entrypoints, Ids(access.group));
            && Loop(script, w0, w', done, access, Stray(script, w, entrypoints, Ids(access.group)))
            && HostsAmong(done, entrypoints)
  {
    if entrypoints != [] {
      var k := |entrypoints| - 1;
      var before, ep := entrypoints[..k], entrypoints[k];
      LoopHolds(script, w0, w, before, access);
      var (w1, done) := ProvisionEach(script, w, before, Ids(access.group));
      NameIsNew(done, entrypoints);
      Round(script, w0, w1, done, access, Stray(script, w, before, Ids(access.group)), ep);
      var (w', done') := ProvisionOne(script, w1, done, ep, Ids(access.group));
      HostsGrow(done, done', entrypoints);
    }
  }

  lemma NameIsNew(done: seq<Resources>, entrypoints: seq<Entrypoint>)
    requires entrypoints != [] && DistinctNames(entrypoints) && HostsAmong(done, entrypoints[..|entrypoints| - 1])
    ensures Find(done, entrypoints[|entrypoints| - 1].name).None?
  {
    var before := entrypoints[..|entrypoints| - 1];
    forall r <- done
      ensures r.host != entrypoints[|entrypoints| - 1].name
    {
      var e :| e in before && e.name == r.host;
      var i: nat :| i < |before| && before[i] == e;
      assert entrypoints[i] == e;
    }
    FindIs(done, entrypoints[|entrypoints| - 1].name);
  }

  lemma HostsGrow(done: seq<Resources>, done': seq<Resources>, entrypoints: seq<Entrypoint>)
    requires entrypoints != [] && HostsAmong(done, entrypoints[..|entrypoints| - 1])
    requires done' == done
             || exists r: Resources :: r.host == entrypoints[|entrypoints| - 1].name && done' == done + [r]
    ensures HostsAmong(done', entrypoints)
  {
    forall r <- done'
      ensures exists e <- entrypoints :: e.name == r.host
    {
      if r in done {
        var e :| e in entrypoints[..|entrypoints| - 1] && e.name == r.host;
        assert e in entrypoints;
      } else {
        assert entrypoints[|entrypoints| - 1] in entrypoints;
      }
    }
  }
}
