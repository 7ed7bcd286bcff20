/**
 Teardown of a sandbox's NetBird objects.  Unless a call crashes, the deletes it issues are a prefix of
 one fixed list in which everything that uses a group comes before the group.
 */
module NetbirdTeardown {
  import opened Common
  import opened NetbirdWorld

  // ---- What the service does; a sandbox that is gone stays gone, and calls stay in the trace ----

  function Expired(w: World, deadline: Option<real>): bool {
    deadline.Some? && w.clock > deadline.value
  }

  /** Time passes only in calls: the clock shows the end of the last one. */
  predicate CallsMoveTheClock(w: World, w': World) {
    if |w'.trace| <= |w.trace| then w'.clock == w.clock else w'.clock == w'.trace[|w'.trace| - 1].until
  }

  /** How a piece of a function ends: it goes on, the function returns, or it raises. */
  datatype Flow = GoesOn | Returns | Raises

  /** A delete whose `NetbirdApiError` is caught and logged; nothing without an id. */
  function Attempt(script: Script, w: World, target: seq<Obj>): (r: (World, bool))
    requires |target| <= 1
    ensures (r.0.sandbox ==> w.sandbox) && w.trace <= r.0.trace
    ensures CallsMoveTheClock(w, r.0)
  {
    if target == [] then (w, false)
    else
      var (w1, verdict) := DeleteObject(script, w, target[0]);
      (w1, verdict.Crashes?)
  }

  function DeleteEachPeer(script: Script, w: World, peers: seq<string>, deadline: Option<real>): (r: (World, bool))
    ensures (r.0.sandbox ==> w.sandbox) && w.trace <= r.0.trace
    ensures CallsMoveTheClock(w, r.0)
    decreases |peers|
  {
    if peers == [] || Expired(w, deadline) then (w, false)
    else
      var (w1, verdict) := DeleteOnePeer(script, w, peers[0]);
      if verdict.Crashes? then (w1, true) else DeleteEachPeer(script, w1, peers[1..], deadline)
  }

  /** `_delete_group_peers`; the flag says whether it raises. */
  function DeleteGroupPeers(script: Script, w: World, group: Option<string>, deadline: Option<real>): (r: (World, bool))
    ensures (r.0.sandbox ==> w.sandbox) && w.trace <= r.0.trace
    ensures CallsMoveTheClock(w, r.0)
  {
    if !Truthy(group) then (w, false)
    else
      var (w1, verdict, peers) := ListGroupPeers(script, w, group.value);
      if !verdict.Succeeds? then (w1, verdict.Crashes?) else DeleteEachPeer(script, w1, peers, deadline)
  }

  function DeleteRoutes(script: Script, w: World, ids: seq<string>, deadline: Option<real>): (r: (World, Flow))
    ensures (r.0.sandbox ==> w.sandbox) && w.trace <= r.0.trace
    ensures CallsMoveTheClock(w, r.0)
    decreases |ids|
  {
    if ids == [] then (w, GoesOn)
    else if Expired(w, deadline) then (w, Returns)
    else
      var (w1, verdict) := DeleteObject(script, w, Obj(Route, ids[0]));
      if verdict.Crashes? then (w1, Raises) else DeleteRoutes(script, w1, ids[1..], deadline)
  }

  /** The end of both teardowns: the setup key, the peers of the group, and the group itself. */
  function DestroyGroup(script: Script, w: World, key: Option<string>, group: Option<string>, deadline: Option<real>)
    : (r: (World, Flow))
    ensures (r.0.sandbox ==> w.sandbox) && w.trace <= r.0.trace
    ensures CallsMoveTheClock(w, r.0)
  {
    if Expired(w, deadline) then (w, Returns)
    else
      var (w1, raised1) := Attempt(script, w, Named(SetupKey, key));
      if raised1 then (w1, Raises)
      else
        var (w2, raised2) := DeleteGroupPeers(script, w1, group, deadline);
        if raised2 then (w2, Raises)
        else if Expired(w2, deadline) then (w2, Returns)
        else
          var (w3, raised3) := Attempt(script, w2, Named(Group, group));
          (w3, if raised3 then Raises else GoesOn)
  }

  /** What comes behind the policy. */
  function DestroyRest(script: Script, w: World, row: Resources, deadline: Option<real>): (r: (World, Flow))
    ensures (r.0.sandbox ==> w.sandbox) && w.trace <= r.0.trace
    ensures CallsMoveTheClock(w, r.0)
  {
    var (w1, flow) := DeleteRoutes(script, w, ListOf(row.routeIds), deadline);
    if !flow.GoesOn? then (w1, flow)
    else
      var done := DestroyGroup(script, w1, row.key, row.group, deadline);
      ClockJoins(w, w1, done.0);
      done
  }

  lemma ClockJoins(w: World, w1: World, w2: World)
    requires w.trace <= w1.trace <= w2.trace && CallsMoveTheClock(w, w1) && CallsMoveTheClock(w1, w2)
    ensures w.trace <= w2.trace && CallsMoveTheClock(w, w2)
  {
  }

  /** `_destroy_single_entrypoint` up to the deletion of the row. */
  function DestroyObjects(script: Script, w: World, row: Resources, deadline: Option<real>): (r: (World, Flow))
    ensures (r.0.sandbox ==> w.sandbox) && w.trace <= r.0.trace
    ensures CallsMoveTheClock(w, r.0)
  {
    if Expired(w, deadline) then (w, Returns)
    else
      var (w1, raised) := Attempt(script, w, Named(Policy, row.policy));
      if raised then (w1, Raises) else DestroyRest(script, w1, row, deadline)
  }

  /** `_destroy_single_entrypoint`; the flag says whether it raises. */
  function DestroyEntrypoint(script: Script, w: World, row: Resources, deadline: Option<real>): (r: (World, bool))
    ensures (r.0.sandbox ==> w.sandbox) && w.trace <= r.0.trace
  {
    var (w1, flow) := DestroyObjects(script, w, row, deadline);
    if flow.GoesOn? then (DeleteRow(script, w1, row.host), false) else (w1, flow.Raises?)
  }

  function DestroyAccessObjects(script: Script, w: World, access: Access, deadline: Option<real>): (r: (World, Flow))
    ensures (r.0.sandbox ==> w.sandbox) && w.trace <= r.0.trace
    ensures CallsMoveTheClock(w, r.0)
  {
    if Expired(w, deadline) then (w, Returns)
    else
      var (w1, raised) := Attempt(script, w, Named(Nameservers, access.nameservers));
      if raised then (w1, Raises) else DestroyGroup(script, w1, access.key, access.group, deadline)
  }

  /** `_destroy_access`. */
  function DestroyAccess(script: Script, w: World, access: Access, deadline: Option<real>): (r: (World, bool))
    ensures (r.0.sandbox ==> w.sandbox) && w.trace <= r.0.trace
  {
    var (w1, flow) := DestroyAccessObjects(script, w, access, deadline);
    if flow.GoesOn? then (DeleteAccess(script, w1), false) else (w1, flow.Raises?)
  }

  /** Entrypoint after entrypoint; what one raises is logged, and expiry ends the loop. */
  function DestroyRows(script: Script, w: World, rows: seq<Resources>, deadline: Option<real>): (r: World)
    ensures (r.sandbox ==> w.sandbox) && w.trace <= r.trace
  {
    if rows == [] then w
    else
      var w1 := DestroyRows(script, w, rows[..|rows| - 1], deadline);
      if Expired(w1, deadline) then w1 else DestroyEntrypoint(script, w1, rows[|rows| - 1], deadline).0
  }

  /** The whole teardown of rows already loaded. */
  function DestroyAll(script: Script, w: World, rows: seq<Resources>, access: Option<Access>,
                      deadline: Option<real>): (r: World)
    ensures (r.sandbox ==> w.sandbox) && w.trace <= r.trace
  {
    var w1 := DestroyRows(script, w, rows, deadline);
    if access.None? || Expired(w1, deadline) then w1 else DestroyAccess(script, w1, access.value, deadline).0
  }

  /** The loads of `destroy_netbird_for_sandbox`: the access row, whether there are rows, and then the rows. */
  function Loaded(script: Script, w: World): (World, Option<Access>, seq<Resources>) {
    var w1 := Asked(script, w);
    var w2 := Asked(script, w1);
    if w2.rows == [] && w1.access.None? then (w2, None, [])
    else
      var w3 := Asked(script, w2);
      (w3, w1.access, w3.rows)
  }

  /** The budget begins behind the first two loads. */
  function DeadlineOf(script: Script, w: World, budget: int): real {
    Asked(script, Asked(script, w)).clock + budget as real
  }

  /** `destroy_netbird_for_sandbox` with a configured client. */
  function Destroy(script: Script, w: World, budget: int): World {
    var (w1, access, rows) := Loaded(script, w);
    DestroyAll(script, w1, rows, access, Some(DeadlineOf(script, w, budget)))
  }

  // ---- What one stretch of teardown has done ----

  /** The objects that deletes were issued for, in order. */
  function Deletes(trace: seq<Event>): seq<Obj> {
    if trace == [] then []
    else
      var call := trace[|trace| - 1].call;
      Deletes(trace[..|trace| - 1]) + if call.Delete? then [call.obj] else []
  }

  function RemoveAll(strict: bool, objs: Objects, targets: seq<Obj>): Objects {
    if targets == [] then objs
    else Remove(strict, RemoveAll(strict, objs, targets[..|targets| - 1]), targets[|targets| - 1])
  }

  /**
   From `w` to `w'` deletes were issued for exactly `targets`, in that order; when no call fails, the
   cloud is left as these deletes leave it.
   */
  ghost predicate Stretch(script: Script, w: World, w': World, targets: seq<Obj>) {
    && w.tick <= w'.tick
    && w.clock <= w'.clock
    && w'.strict == w.strict && w'.lost == w.lost
    && Deletes(w'.trace) == Deletes(w.trace) + targets
    && (HealthyFrom(script, w.tick) ==> w'.objs == RemoveAll(w.strict, w.objs, targets))
    && (forall r <- w'.rows :: r in w.rows)
    && (w'.access == None || w'.access == w.access)
  }

  lemma {:induction false} RemoveAllAppends(strict: bool, objs: Objects, first: seq<Obj>, second: seq<Obj>)
    ensures RemoveAll(strict, objs, first + second) == RemoveAll(strict, RemoveAll(strict, objs, first), second)
  {
    if second == [] {
      assert first + second == first;
    } else {
      var n := |second| - 1;
      RemoveAllAppends(strict, objs, first, second[..n]);
      assert (first + second)[..|first + second| - 1] == first + second[..n];
    }
  }

  lemma StretchEmpty(script: Script, w: World)
    ensures Stretch(script, w, w, [])
  {
    assert Deletes(w.trace) + [] == Deletes(w.trace);
  }

  lemma StretchJoins(script: Script, w: World, w1: World, w2: World, first: seq<Obj>, second: seq<Obj>)
    requires Stretch(script, w, w1, first) && Stretch(script, w1, w2, second)
    ensures Stretch(script, w, w2, first + second)
  {
    assert Deletes(w.trace) + (first + second) == Deletes(w.trace) + first + second;
    if HealthyFrom(script, w.tick) {
      assert HealthyFrom(script, w1.tick);
      RemoveAllAppends(w.strict, w.objs, first, second);
    }
  }

  lemma CallStretch(script: Script, w: World, call: Call)
    requires !call.Delete?
    ensures Stretch(script, w, Called(script, w, call), [])
  {
    var w' := Called(script, w, call);
    assert w'.trace[..|w'.trace| - 1] == w.trace;
    assert Deletes(w.trace) + [] == Deletes(w.trace);
  }

  lemma DeleteStretch(script: Script, w: World, o: Obj)
    ensures Stretch(script, w, DeleteObject(script, w, o).0, [o])
  {
    var w' := DeleteObject(script, w, o).0;
    assert w'.trace[..|w'.trace| - 1] == w.trace;
    assert [o][..0] == [];
    assert RemoveAll(w.strict, w.objs, []) == w.objs;
  }

  lemma AskedStretch(script: Script, w: World)
    ensures Stretch(script, w, Asked(script, w), [])
  {
    assert Deletes(w.trace) + [] == Deletes(w.trace);
  }

  lemma AttemptStretch(script: Script, w: World, target: seq<Obj>)
    requires |target| <= 1
    ensures Stretch(script, w, Attempt(script, w, target).0, target)
    ensures NoCrashFrom(script, w.tick) ==> !Attempt(script, w, target).1
  {
    if target == [] {
      StretchEmpty(script, w);
    } else {
      DeleteStretch(script, w, target[0]);
      assert target == [target[0]];
    }
  }

  lemma {:induction false} EachPeerStretch(script: Script, w: World, peers: seq<string>, deadline: Option<real>)
    ensures Stretch(script, w, DeleteEachPeer(script, w, peers, deadline).0, [])
    ensures NoCrashFrom(script, w.tick) ==> !DeleteEachPeer(script, w, peers, deadline).1
    decreases |peers|
  {
    if peers == [] || Expired(w, deadline) {
      StretchEmpty(script, w);
    } else {
      var w1 := DeleteOnePeer(script, w, peers[0]).0;
      CallStretch(script, w, DeletePeer(peers[0]));
      if !DeleteOnePeer(script, w, peers[0]).1.Crashes? {
        EachPeerStretch(script, w1, peers[1..], deadline);
        StretchJoins(script, w, w1, DeleteEachPeer(script, w1, peers[1..], deadline).0, [], []);
        assert NoCrashFrom(script, w.tick) ==> NoCrashFrom(script, w1.tick);
      }
    }
  }

  lemma PeersStretch(script: Script, w: World, group: Option<string>, deadline: Option<real>)
    ensures Stretch(script, w, DeleteGroupPeers(script, w, group, deadline).0, [])
    ensures NoCrashFrom(script, w.tick) ==> !DeleteGroupPeers(script, w, group, deadline).1
  {
    if !Truthy(group) {
      StretchEmpty(script, w);
    } else {
      var (w1, verdict, peers) := ListGroupPeers(script, w, group.value);
      CallStretch(script, w, ListPeers(group.value));
      if verdict.Succeeds? {
        EachPeerStretch(script, w1, peers, deadline);
        StretchJoins(script, w, w1, DeleteEachPeer(script, w1, peers, deadline).0, [], []);
        assert NoCrashFrom(script, w.tick) ==> NoCrashFrom(script, w1.tick);
      }
    }
  }

  /** A piece with the targets `all` has dealt with the first `n`; less than all only if it was cut short. */
  ghost predicate Piece(script: Script, w: World, w': World, flow: Flow, all: seq<Obj>, n: nat,
                        deadline: Option<real>) {
    && n <= |all|
    && Stretch(script, w, w', all[..n])
    && (flow.GoesOn? ==> n == |all|)
    && (flow.Returns? ==> Expired(w', deadline))
    && (NoCrashFrom(script, w.tick) ==> !flow.Raises?)
  }

  lemma PieceJoins(script: Script, w: World, w1: World, w2: World, flow: Flow, first: seq<Obj>, second: seq<Obj>,
                   n: nat, deadline: Option<real>)
    requires Stretch(script, w, w1, first) && Piece(script, w1, w2, flow, second, n, deadline)
    ensures Piece(script, w, w2, flow, first + second, |first| + n, deadline)
  {
    StretchJoins(script, w, w1, w2, first, second[..n]);
    assert (first + second)[..|first| + n] == first + second[..n];
    assert NoCrashFrom(script, w.tick) ==> NoCrashFrom(script, w1.tick);
  }

  /** A piece that was cut short is also a piece of a longer list. */
  lemma PieceExtends(script: Script, w: World, w': World, flow: Flow, first: seq<Obj>, second: seq<Obj>, n: nat,
                     deadline: Option<real>)
    requires Piece(script, w, w', flow, first, n, deadline) && !flow.GoesOn?
    ensures Piece(script, w, w', flow, first + second, n, deadline)
  {
    assert (first + second)[..n] == first[..n];
  }

  lemma PieceStops(script: Script, w: World, flow: Flow, all: seq<Obj>, deadline: Option<real>)
    requires flow.Returns? && Expired(w, deadline)
    ensures Piece(script, w, w, flow, all, 0, deadline)
  {
    StretchEmpty(script, w);
    assert all[..0] == [];
  }

  lemma AttemptCrashed(script: Script, w: World, target: seq<Obj>, rest: seq<Obj>, deadline: Option<real>)
    requires |target| <= 1 && Attempt(script, w, target).1
    ensures Piece(script, w, Attempt(script, w, target).0, Raises, target + rest, |target|, deadline)
  {
    AttemptStretch(script, w, target);
    assert (target + rest)[..|target|] == target;
  }

  lemma RoutesFirst(ids: seq<string>)
    requires ids != []
    ensures Routes(ids) == [Obj(Route, ids[0])] + Routes(ids[1..])
  {
  }

  lemma CrashedDelete(script: Script, w: World, o: Obj, rest: seq<Obj>, deadline: Option<real>)
    requires DeleteObject(script, w, o).1.Crashes?
    ensures Piece(script, w, DeleteObject(script, w, o).0, Raises, [o] + rest, 1, deadline)
  {
    DeleteStretch(script, w, o);
    assert ([o] + rest)[..1] == [o];
  }

  lemma EmptyPiece(script: Script, w: World, deadline: Option<real>)
    ensures Piece(script, w, w, GoesOn, [], 0, deadline)
  {
    StretchEmpty(script, w);
  }

  lemma RouteThenRest(script: Script, w: World, ids: seq<string>, m: nat, deadline: Option<real>)
    requires ids != [] && !Expired(w, deadline)
    requires var (w1, verdict) := DeleteObject(script, w, Obj(Route, ids[0]));
             var (w2, flow) := DeleteRoutes(script, w1, ids[1..], deadline);
             !verdict.Crashes? && Piece(script, w1, w2, flow, Routes(ids[1..]), m, deadline)
    ensures var (w', flow) := DeleteRoutes(script, w, ids, deadline);
            Piece(script, w, w', flow, [Obj(Route, ids[0])] + Routes(ids[1..]), 1 + m, deadline)
  {
    var o := Obj(Route, ids[0]);
    var (w1, verdict) := DeleteObject(script, w, o);
    var (w2, flow) := DeleteRoutes(script, w1, ids[1..], deadline);
    DeleteStretch(script, w, o);
    PieceJoins(script, w, w1, w2, flow, [o], Routes(ids[1..]), m, deadline);
  }

  lemma {:induction false} RoutesPiece(script: Script, w: World, ids: seq<string>, deadline: Option<real>)
    returns (n: nat)
    ensures Piece(script, w, DeleteRoutes(script, w, ids, deadline).0, DeleteRoutes(script, w, ids, deadline).1,
                  Routes(ids), n, deadline)
    decreases |ids|
  {
    hide Piece, Stretch, DeleteObject, Expired;
    n := 0;
    if ids == [] {
      EmptyPiece(script, w, deadline);
    } else if Expired(w, deadline) {
      PieceStops(script, w, Returns, Routes(ids), deadline);
    } else {
      var o := Obj(Route, ids[0]);
      var (w1, verdict) := DeleteObject(script, w, o);
      RoutesFirst(ids);
      if verdict.Crashes? {
        n := 1;
        CrashedDelete(script, w, o, Routes(ids[1..]), deadline);
      } else {
        n := RoutesPiece(script, w1, ids[1..], deadline);
        n := n + 1;
        RouteThenRest(script, w, ids, n - 1, deadline);
      }
    }
  }

  lemma GroupPiece(script: Script, w: World, key: Option<string>, group: Option<string>, deadline: Option<real>)
    returns (n: nat)
    ensures var (w', flow) := DestroyGroup(script, w, key, group, deadline);
            Piece(script, w, w', flow, Named(SetupKey, key) + Named(Group, group), n, deadline)
  {
    hide DeleteGroupPeers, Attempt, RemoveAll, Deletes;
    var first, second := Named(SetupKey, key), Named(Group, group);
    var all := first + second;
    n := 0;
    if Expired(w, deadline) {
      PieceStops(script, w, Returns, all, deadline);
    } else {
      var (w1, raised1) := Attempt(script, w, first);
      AttemptStretch(script, w, first);
      n := |first|;
      assert all[..n] == first;
      if !raised1 {
        var (w2, raised2) := DeleteGroupPeers(script, w1, group, deadline);
        PeersStretch(script, w1, group, deadline);
        StretchJoins(script, w, w1, w2, first, []);
        assert first + [] == first;
        assert NoCrashFrom(script, w.tick) ==> NoCrashFrom(script, w1.tick);
        if !raised2 && !Expired(w2, deadline) {
          var (w3, raised3) := Attempt(script, w2, second);
          AttemptStretch(script, w2, second);
          StretchJoins(script, w, w2, w3, first, second);
          assert NoCrashFrom(script, w.tick) ==> NoCrashFrom(script, w2.tick);
          n := |all|;
          assert all[..n] == all;
        }
      }
    }
  }

  lemma RestPiece(script: Script, w: World, row: Resources, deadline: Option<real>) returns (n: nat)
    ensures var (w', flow) := DestroyRest(script, w, row, deadline);
            Piece(script, w, w', flow,
                  Routes(ListOf(row.routeIds)) + (Named(SetupKey, row.key) + Named(Group, row.group)), n, deadline)
  {
    hide DeleteRoutes, DestroyGroup, Stretch;
    var b, c := Routes(ListOf(row.routeIds)), Named(SetupKey, row.key) + Named(Group, row.group);
    var (w1, flow) := DeleteRoutes(script, w, ListOf(row.routeIds), deadline);
    n := RoutesPiece(script, w, ListOf(row.routeIds), deadline);
    if flow.GoesOn? {
      assert b[..n] == b;
      var k := GroupPiece(script, w1, row.key, row.group, deadline);
      var (w2, flow2) := DestroyGroup(script, w1, row.key, row.group, deadline);
      PieceJoins(script, w, w1, w2, flow2, b, c, k, deadline);
      n := |b| + k;
    } else {
      PieceExtends(script, w, w1, flow, b, c, n, deadline);
    }
  }

  lemma NamedIsShort(kind: Kind, id: Option<string>)
    ensures |Named(kind, id)| <= 1
  {
  }

  lemma TargetsSplit(row: Resources)
    ensures Targets(row)
         == Named(Policy, row.policy)
            + (Routes(ListOf(row.routeIds)) + (Named(SetupKey, row.key) + Named(Group, row.group)))
  {
  }

  lemma ObjectsPiece(script: Script, w: World, row: Resources, deadline: Option<real>) returns (n: nat)
    ensures var (w', flow) := DestroyObjects(script, w, row, deadline);
            Piece(script, w, w', flow, Targets(row), n, deadline)
  {
    hide Piece, Stretch, Expired, DestroyRest, Attempt, Targets, Named, Routes, ListOf;
    var a := Named(Policy, row.policy);
    var b := Routes(ListOf(row.routeIds)) + (Named(SetupKey, row.key) + Named(Group, row.group));
    TargetsSplit(row);
    NamedIsShort(Policy, row.policy);
    n := 0;
    if Expired(w, deadline) {
      PieceStops(script, w, Returns, Targets(row), deadline);
    } else {
      var (w1, raised) := Attempt(script, w, a);
      if raised {
        n := |a|;
        AttemptCrashed(script, w, a, b, deadline);
      } else {
        AttemptStretch(script, w, a);
        var m := RestPiece(script, w1, row, deadline);
        var (w2, flow) := DestroyObjects(script, w, row, deadline);
        PieceJoins(script, w, w1, w2, flow, a, b, m, deadline);
        n := |a| + m;
      }
    }
  }

  lemma AccessObjectsPiece(script: Script, w: World, access: Access, deadline: Option<real>) returns (n: nat)
    ensures var (w', flow) := DestroyAccessObjects(script, w, access, deadline);
            Piece(script, w, w', flow, AccessTargets(access), n, deadline)
  {
    hide Piece, Stretch, Expired, DestroyGroup, Attempt, AccessTargets, Named;
    var a, c := Named(Nameservers, access.nameservers), Named(SetupKey, access.key) + Named(Group, access.group);
    AccessTargetsSplit(access);
    NamedIsShort(Nameservers, access.nameservers);
    n := 0;
    if Expired(w, deadline) {
      PieceStops(script, w, Returns, AccessTargets(access), deadline);
    } else {
      var (w1, raised) := Attempt(script, w, a);
      if raised {
        n := |a|;
        AttemptCrashed(script, w, a, c, deadline);
      } else {
        AttemptStretch(script, w, a);
        var (w2, flow) := DestroyGroup(script, w1, access.key, access.group, deadline);
        var k := GroupPiece(script, w1, access.key, access.group, deadline);
        PieceJoins(script, w, w1, w2, flow, a, c, k, deadline);
        n := |a| + k;
      }
    }
  }

  lemma AccessTargetsSplit(access: Access)
    ensures AccessTargets(access)
         == Named(Nameservers, access.nameservers) + (Named(SetupKey, access.key) + Named(Group, access.group))
  {
  }

  lemma WithoutStretch(script: Script, w: World, host: string)
    ensures Stretch(script, w, DeleteRow(script, w, host), [])
    ensures forall r <- DeleteRow(script, w, host).rows :: r.host != host
  {
    AskedStretch(script, w);
  }

  lemma EntrypointPiece(script: Script, w: World, row: Resources, deadline: Option<real>) returns (n: nat)
    requires NoCrashFrom(script, w.tick)
    ensures var (w', raised) := DestroyEntrypoint(script, w, row, deadline);
            && !raised
            && n <= |Targets(row)|
            && Stretch(script, w, w', Targets(row)[..n])
            && (Expired(w', deadline) || (n == |Targets(row)| && forall r <- w'.rows :: r.host != row.host))
  {
    n := ObjectsPiece(script, w, row, deadline);
    var (w1, flow) := DestroyObjects(script, w, row, deadline);
    if flow.GoesOn? {
      WithoutStretch(script, w1, row.host);
      StretchJoins(script, w, w1, DeleteRow(script, w1, row.host), Targets(row)[..n], []);
      assert Targets(row)[..n] + [] == Targets(row)[..n];
    }
  }

  lemma AccessPiece(script: Script, w: World, access: Access, deadline: Option<real>) returns (n: nat)
    requires NoCrashFrom(script, w.tick)
    ensures var (w', raised) := DestroyAccess(script, w, access, deadline);
            && !raised
            && n <= |AccessTargets(access)|
            && Stretch(script, w, w', AccessTargets(access)[..n])
            && (Expired(w', deadline) || (n == |AccessTargets(access)| && w'.access == None))
  {
    n := AccessObjectsPiece(script, w, access, deadline);
    var (w1, flow) := DestroyAccessObjects(script, w, access, deadline);
    if flow.GoesOn? {
      AskedStretch(script, w1);
      assert Stretch(script, w1, DeleteAccess(script, w1), []);
      StretchJoins(script, w, w1, DeleteAccess(script, w1), AccessTargets(access)[..n], []);
      assert AccessTargets(access)[..n] + [] == AccessTargets(access)[..n];
    }
  }

  ghost predicate RowsGone(rows: seq<Resources>, hosts: seq<Resources>) {
    forall r <- rows, x <- hosts :: r.host != x.host
  }

  lemma RowsStep(script: Script, w: World, w1: World, first: seq<Obj>, row: Resources, deadline: Option<real>)
    returns (n: nat)
    requires NoCrashFrom(script, w.tick) && Stretch(script, w, w1, first)
    ensures var w2 := DestroyEntrypoint(script, w1, row, deadline).0;
            && n <= |Targets(row)|
            && Stretch(script, w, w2, first + Targets(row)[..n])
            && (forall r <- w2.rows :: r in w1.rows)
            && (Expired(w2, deadline) || (n == |Targets(row)| && forall r <- w2.rows :: r.host != row.host))
  {
    assert NoCrashFrom(script, w1.tick);
    n := EntrypointPiece(script, w1, row, deadline);
    StretchJoins(script, w, w1, DestroyEntrypoint(script, w1, row, deadline).0, first, Targets(row)[..n]);
  }

  lemma GoneTogether(rows: seq<Resources>, rows': seq<Resources>, hosts: seq<Resources>)
    requires hosts != []
    requires RowsGone(rows, hosts[..|hosts| - 1])
    requires forall r <- rows' :: r in rows && r.host != hosts[|hosts| - 1].host
    ensures RowsGone(rows', hosts)
  {
    forall r <- rows', x <- hosts
      ensures r.host != x.host
    {
      if x != hosts[|hosts| - 1] {
        assert x in hosts[..|hosts| - 1];
      }
    }
  }

  /** The first `n` targets of the rows are dealt with; all of them, and the rows too, unless time ran out. */
  ghost predicate RowsDone(script: Script, w: World, w': World, rows: seq<Resources>, n: nat, deadline: Option<real>) {
    && n <= |RowsTargets(rows)|
    && Stretch(script, w, w', RowsTargets(rows)[..n])
    && (Expired(w', deadline) || (n == |RowsTargets(rows)| && RowsGone(w'.rows, rows)))
  }

  lemma RowsStop(script: Script, w: World, w': World, rows: seq<Resources>, n: nat, deadline: Option<real>)
    requires rows != [] && RowsDone(script, w, w', rows[..|rows| - 1], n, deadline) && Expired(w', deadline)
    ensures RowsDone(script, w, w', rows, n, deadline)
  {
    var first := RowsTargets(rows[..|rows| - 1]);
    assert RowsTargets(rows) == first + Targets(rows[|rows| - 1]);
    assert RowsTargets(rows)[..n] == first[..n];
  }

  lemma RowsGoOn(script: Script, w: World, w1: World, rows: seq<Resources>, k: nat, deadline: Option<real>)
    returns (n: nat)
    requires NoCrashFrom(script, w.tick)
    requires rows != [] && RowsDone(script, w, w1, rows[..|rows| - 1], k, deadline) && !Expired(w1, deadline)
    ensures RowsDone(script, w, DestroyEntrypoint(script, w1, rows[|rows| - 1], deadline).0, rows, n, deadline)
  {
    var first, row := RowsTargets(rows[..|rows| - 1]), rows[|rows| - 1];
    var last := Targets(row);
    assert RowsTargets(rows) == first + last && first[..k] == first;
    var m := RowsStep(script, w, w1, first, row, deadline);
    n := |first| + m;
    assert (first + last)[..n] == first + last[..m];
    var w2 := DestroyEntrypoint(script, w1, row, deadline).0;
    if !Expired(w2, deadline) {
      GoneTogether(w1.rows, w2.rows, rows);
    }
  }

  lemma {:induction false} RowsPiece(script: Script, w: World, rows: seq<Resources>, deadline: Option<real>)
    returns (n: nat)
    requires NoCrashFrom(script, w.tick)
    ensures RowsDone(script, w, DestroyRows(script, w, rows, deadline), rows, n, deadline)
  {
    if rows == [] {
      n := 0;
      StretchEmpty(script, w);
      assert RowsTargets(rows)[..0] == [];
    } else {
      var w1 := DestroyRows(script, w, rows[..|rows| - 1], deadline);
      n := RowsPiece(script, w, rows[..|rows| - 1], deadline);
      if Expired(w1, deadline) {
        RowsStop(script, w, w1, rows, n, deadline);
      } else {
        n := RowsGoOn(script, w, w1, rows, n, deadline);
      }
    }
  }

  /**
   Without crashes the whole teardown issues deletes for a prefix of the list of everything the rows
   name, and for all of it unless time ran out; then no row is left either.
   */
  lemma {:induction false} AllPiece(script: Script, w: World, rows: seq<Resources>, access: Option<Access>,
                                    deadline: Option<real>)
    returns (n: nat)
    requires NoCrashFrom(script, w.tick)
    ensures var w' := DestroyAll(script, w, rows, access, deadline);
            && n <= |AllTargets(rows, access)|
            && Stretch(script, w, w', AllTargets(rows, access)[..n])
            && (Expired(w', deadline) ||
                (n == |AllTargets(rows, access)| && RowsGone(w'.rows, rows) && (access.Some? ==> w'.access == None)))
  {
    hide DestroyRows, DestroyAccess, RemoveAll, Deletes;
    var all := AllTargets(rows, access);
    var w1 := DestroyRows(script, w, rows, deadline);
    n := RowsPiece(script, w, rows, deadline);
    assert all[..n] == RowsTargets(rows)[..n];
    if access.Some? && !Expired(w1, deadline) {
      assert NoCrashFrom(script, w1.tick);
      var m := AccessPiece(script, w1, access.value, deadline);
      var w2 := DestroyAccess(script, w1, access.value, deadline).0;
      StretchJoins(script, w, w1, w2, RowsTargets(rows), AccessTargets(access.value)[..m]);
      n := |RowsTargets(rows)| + m;
      assert all[..n] == RowsTargets(rows) + AccessTargets(access.value)[..m];
    }
  }

  // ---- The order of the deletes ----

  /** The objects that a run of the teardown issued deletes for. */
  function Issued(w: World, w': World): seq<Obj>
    requires Deletes(w.trace) <= Deletes(w'.trace)
  {
    Deletes(w'.trace)[|Deletes(w.trace)|..]
  }

  lemma LoadedStretch(script: Script, w: World)
    ensures Stretch(script, w, Loaded(script, w).0, [])
  {
    var w1 := Asked(script, w);
    AskedStretch(script, w);
    AskedStretch(script, w1);
    AskedStretch(script, Asked(script, w1));
    StretchJoins(script, w, w1, Asked(script, w1), [], []);
    StretchJoins(script, w, Asked(script, w1), Asked(script, Asked(script, w1)), [], []);
  }

  /** The deletes of a teardown are a prefix of the fixed list; a shorter one means the budget ran out. */
  lemma {:induction false} DeletesFollowTheList(script: Script, w: World, budget: int)
    requires NoCrashFrom(script, w.tick)
    ensures var w' := Destroy(script, w, budget);
            var (_, access, rows) := Loaded(script, w);
            && Deletes(w.trace) <= Deletes(w'.trace)
            && Issued(w, w') <= AllTargets(rows, access)
            && (w'.clock > DeadlineOf(script, w, budget) || Issued(w, w') == AllTargets(rows, access))
  {
    hide DestroyAll, RemoveAll, AllTargets;
    var w' := Destroy(script, w, budget);
    var (w1, access, rows) := Loaded(script, w);
    LoadedStretch(script, w);
    var n := AllPiece(script, w1, rows, access, Some(DeadlineOf(script, w, budget)));
    var done := AllTargets(rows, access)[..n];
    assert Deletes(w'.trace) == Deletes(w.trace) + [] + done;
    assert Issued(w, w') == done;
  }

  lemma GroupTarget(row: Resources, g: string)
    ensures Obj(Group, g) in Targets(row) <==> g != "" && row.group == Some(g)
  {
    assert forall o <- Routes(ListOf(row.routeIds)) :: o.kind.Route?;
    if g != "" && row.group == Some(g) {
      assert Targets(row)[|Targets(row)| - 1] == Obj(Group, g);
    }
  }

  /**
   The delete of the shared access group is issued only after a delete for everything else: every
   policy, route, host key and host group, the nameserver group and the access key.
   */
  lemma {:induction false} AccessGroupComesLast(script: Script, w: World, budget: int, g: string)
    requires NoCrashFrom(script, w.tick)
    requires var (_, access, rows) := Loaded(script, w);
             && access.Some? && access.value.group == Some(g) && g != ""
             && forall r <- rows :: r.group != Some(g)
    ensures var w' := Destroy(script, w, budget);
            var (_, access, rows) := Loaded(script, w);
            && Deletes(w.trace) <= Deletes(w'.trace)
            && (Obj(Group, g) in Issued(w, w') ==> Issued(w, w') == AllTargets(rows, access))
            && AllTargets(rows, access)[|AllTargets(rows, access)| - 1] == Obj(Group, g)
  {
    DeletesFollowTheList(script, w, budget);
    var (w1, access, rows) := Loaded(script, w);
    AccessGroupPlace(rows, access.value, g);
    if Obj(Group, g) in Issued(w, Destroy(script, w, budget)) {
      WholeIfLast(Issued(w, Destroy(script, w, budget)), AllTargets(rows, access), Obj(Group, g));
    }
  }

  /** In the whole list the access group stands last, and only there. */
  lemma AccessGroupPlace(rows: seq<Resources>, access: Access, g: string)
    requires access.group == Some(g) && g != "" && forall r <- rows :: r.group != Some(g)
    ensures var all := AllTargets(rows, Some(access));
            && all != [] && all[|all| - 1] == Obj(Group, g)
            && forall i | 0 <= i < |all| - 1 :: all[i] != Obj(Group, g)
  {
    var o := Obj(Group, g);
    var rest := Named(Nameservers, access.nameservers) + Named(SetupKey, access.key);
    assert forall x <- rest :: !x.kind.Group?;
    NotInRows(rows, g);
    hide RowsTargets;
    assert AllTargets(rows, Some(access)) == RowsTargets(rows) + rest + [o];
  }

  lemma WholeIfLast<T>(part: seq<T>, all: seq<T>, x: T)
    requires part <= all && all != [] && x in part
    requires forall i | 0 <= i < |all| - 1 :: all[i] != x
    ensures part == all
  {
    var k: nat :| k < |part| && part[k] == x;
    assert all[k] == x;
  }

  /** In the whole list a host group stands behind everything else that its row names. */
  lemma HostGroupPlace(rows: seq<Resources>, access: Option<Access>, i: nat, g: string, k: nat)
    requires i < |rows| && rows[i].group == Some(g) && g != ""
    requires forall j | 0 <= j < |rows| && j != i :: rows[j].group != Some(g)
    requires access.Some? ==> access.value.group != Some(g)
    requires k < |AllTargets(rows, access)| && AllTargets(rows, access)[k] == Obj(Group, g)
    ensures forall o <- Targets(rows[i]) :: o != Obj(Group, g) ==> o in AllTargets(rows, access)[..k]
  {
    var before := RowsTargets(rows[..i]);
    var rest := RowsTargets(rows[i + 1..]) + if access.Some? then AccessTargets(access.value) else [];
    AllSplit(rows, access, i);
    NotElsewhere(rows, access, i, g);
    PlaceOfGroup(before, rows[i], rest, g, k);
  }

  lemma AllSplit(rows: seq<Resources>, access: Option<Access>, i: nat)
    requires i < |rows|
    ensures var rest := RowsTargets(rows[i + 1..]) + if access.Some? then AccessTargets(access.value) else [];
            AllTargets(rows, access) == RowsTargets(rows[..i]) + Targets(rows[i]) + rest
  {
    FlatMapSplit(Targets, rows, i);
    Regroup(RowsTargets(rows[..i]), Targets(rows[i]), RowsTargets(rows[i + 1..]),
            if access.Some? then AccessTargets(access.value) else []);
  }

  lemma Regroup<T>(a: seq<T>, b: seq<T>, c: seq<T>, d: seq<T>)
    ensures a + b + c + d == a + b + (c + d)
  {
  }

  lemma PlaceOfGroup(before: seq<Obj>, row: Resources, rest: seq<Obj>, g: string, k: nat)
    requires Obj(Group, g) !in before && Obj(Group, g) !in rest
    requires k < |before + Targets(row) + rest| && (before + Targets(row) + rest)[k] == Obj(Group, g)
    ensures forall o <- Targets(row) :: o != Obj(Group, g) ==> o in (before + Targets(row) + rest)[..k]
  {
    MiddlePlace(before, Targets(row), rest, Obj(Group, g), k);
    LastIsTheGroup(row, g, k - |before|);
  }

  lemma MiddlePlace<T>(before: seq<T>, mine: seq<T>, rest: seq<T>, x: T, k: nat)
    requires x !in before && x !in rest
    requires k < |before + mine + rest| && (before + mine + rest)[k] == x
    ensures |before| <= k < |before| + |mine| && mine[k - |before|] == x
    ensures (before + mine + rest)[..k] == before + mine[..k - |before|]
  {
  }

  /** The delete of a host group is issued only after one for everything else its row names. */
  lemma {:induction false} HostGroupComesAfterItsUsers(script: Script, w: World, budget: int, i: nat, g: string, k: nat)
    requires NoCrashFrom(script, w.tick)
    requires var (_, access, rows) := Loaded(script, w);
             && i < |rows| && rows[i].group == Some(g) && g != ""
             && (forall j | 0 <= j < |rows| && j != i :: rows[j].group != Some(g))
             && (access.Some? ==> access.value.group != Some(g))
    requires var w' := Destroy(script, w, budget);
             Deletes(w.trace) <= Deletes(w'.trace) && k < |Issued(w, w')| && Issued(w, w')[k] == Obj(Group, g)
    ensures var (_, _, rows) := Loaded(script, w);
            forall o <- Targets(rows[i]) :: o != Obj(Group, g) ==> o in Issued(w, Destroy(script, w, budget))[..k]
  {
    DeletesFollowTheList(script, w, budget);
    var (w1, access, rows) := Loaded(script, w);
    var all, issued := AllTargets(rows, access), Issued(w, Destroy(script, w, budget));
    assert issued[..k] == all[..k] && all[k] == issued[k];
    HostGroupPlace(rows, access, i, g, k);
  }

  lemma NotElsewhere(rows: seq<Resources>, access: Option<Access>, i: nat, g: string)
    requires i < |rows| && forall j | 0 <= j < |rows| && j != i :: rows[j].group != Some(g)
    requires access.Some? ==> access.value.group != Some(g)
    ensures Obj(Group, g) !in RowsTargets(rows[..i])
    ensures Obj(Group, g) !in RowsTargets(rows[i + 1..])
    ensures access.Some? ==> Obj(Group, g) !in AccessTargets(access.value)
  {
    OthersDiffer(rows, i, g);
    NotInRows(rows[..i], g);
    NotInRows(rows[i + 1..], g);
  }

  lemma OthersDiffer(rows: seq<Resources>, i: nat, g: string)
    requires i < |rows| && forall j | 0 <= j < |rows| && j != i :: rows[j].group != Some(g)
    ensures forall r <- rows[..i] + rows[i + 1..] :: r.group != Some(g)
  {
    var others := rows[..i] + rows[i + 1..];
    forall r <- others
      ensures r.group != Some(g)
    {
      var j: nat :| j < |others| && others[j] == r;
      assert r == if j < i then rows[j] else rows[j + 1];
    }
  }

  lemma NotInRows(rows: seq<Resources>, g: string)
    requires forall r <- rows :: r.group != Some(g)
    ensures Obj(Group, g) !in RowsTargets(rows)
  {
    forall r <- rows {
      GroupTarget(r, g);
    }
    FlatMapHas(Targets, rows, Obj(Group, g));
  }

  lemma LastIsTheGroup(row: Resources, g: string, k: nat)
    requires k < |Targets(row)| && Targets(row)[k] == Obj(Group, g)
    ensures k == |Targets(row)| - 1
    ensures forall o <- Targets(row) :: o != Obj(Group, g) ==> o in Targets(row)[..k]
  {
    assert forall o <- Routes(ListOf(row.routeIds)) :: o.kind.Route?;
    forall o <- Targets(row) | o != Obj(Group, g)
      ensures o in Targets(row)[..k]
    {
      var m: nat :| m < |Targets(row)| && Targets(row)[m] == o;
      assert Targets(row)[..k][m] == o;
    }
  }
}
