/**
 The peers of the groups that a teardown deletes: every listed peer is deleted, in the order of the listing and
 before its group, and no other peer is.
 */
module NetbirdPeers {
  import opened Common
  import opened NetbirdWorld
  import opened NetbirdTeardown

  // ---- What a run of calls has done about peers ----

  /** The peers of the last listing that are still to be deleted; any other call gives them up. */
  function Owed(calls: seq<Event>): seq<string> {
    if calls == [] then []
    else
      var last, before := calls[|calls| - 1], Owed(calls[..|calls| - 1]);
      if last.call.ListPeers? then last.listed
      else if last.call.DeletePeer? && before != [] then before[1..]
      else []
  }

  /** The group whose peers were being deleted last, when nothing else was called since. */
  function Listing(calls: seq<Event>): Option<string> {
    if calls == [] then None
    else
      var last := calls[|calls| - 1];
      if last.call.ListPeers? then Some(last.call.group)
      else if last.call.DeletePeer? then Listing(calls[..|calls| - 1])
      else None
  }

  /** The call that comes behind `before`. */
  predicate Fits(before: seq<Event>, call: Call, named: set<string>) {
    match call
    case ListPeers(g) => g in named
    case DeletePeer(p) => Owed(before) != [] && Owed(before)[0] == p
    case Delete(o) => o.kind.Group? ==> Listing(before) == Some(o.id)
    case Create(_) => true
  }

  /**
   Only groups of `named` are listed, only the next peer owed is ever deleted, and a group is deleted directly
   behind its peers.
   */
  ghost predicate InOrder(calls: seq<Event>, named: set<string>) {
    forall k | 0 <= k < |calls| :: Fits(calls[..k], calls[k].call, named)
  }

  /** No listed peer is left out. */
  ghost predicate Complete(calls: seq<Event>) {
    Owed(calls) == [] && forall k | 0 <= k < |calls| && !calls[k].call.DeletePeer? :: Owed(calls[..k]) == []
  }

  lemma {:induction false} OwedLonger(a: seq<Event>, b: seq<Event>)
    ensures Owed(b) != [] || Owed(a) == [] ==> Owed(a + b) == Owed(b)
    ensures Listing(b).Some? ==> Listing(a + b) == Listing(b)
  {
    if b == [] {
      assert a + b == a;
    } else {
      OwedLonger(a, b[..|b| - 1]);
      assert (a + b)[..|a + b| - 1] == a + b[..|b| - 1];
    }
  }

  lemma InOrderJoins(a: seq<Event>, b: seq<Event>, named: set<string>)
    requires InOrder(a, named) && InOrder(b, named)
    ensures InOrder(a + b, named)
    ensures Complete(a) && Complete(b) ==> Complete(a + b)
  {
    var all := a + b;
    forall k | 0 <= k < |all|
      ensures Fits(all[..k], all[k].call, named)
    {
      if k < |a| {
        assert all[..k] == a[..k];
      } else {
        assert all[..k] == a + b[..k - |a|] && Fits(b[..k - |a|], b[k - |a|].call, named);
        OwedLonger(a, b[..k - |a|]);
      }
    }
    if Complete(a) && Complete(b) {
      CompleteJoins(a, b);
    }
  }

  lemma CompleteJoins(a: seq<Event>, b: seq<Event>)
    requires Complete(a) && Complete(b)
    ensures Complete(a + b)
  {
    var all := a + b;
    OwedLonger(a, b);
    forall k | 0 <= k < |all| && !all[k].call.DeletePeer?
      ensures Owed(all[..k]) == []
    {
      if k < |a| {
        assert all[..k] == a[..k];
      } else {
        assert all[..k] == a + b[..k - |a|];
        OwedLonger(a, b[..k - |a|]);
      }
    }
  }

  // ---- Pieces of a teardown ----

  /** The calls between two worlds. */
  function New(w: World, w': World): seq<Event>
    requires w.trace <= w'.trace
  {
    w'.trace[|w.trace|..]
  }

  /** A piece leaves peers in order, and none out unless time ran out or something crashed. */
  ghost predicate Tidy(script: Script, w: World, w': World, named: set<string>, deadline: Option<real>) {
    && w.trace <= w'.trace && w.tick <= w'.tick && w.clock <= w'.clock
    && InOrder(New(w, w'), named)
    && (NoCrashFrom(script, w.tick) && !Expired(w', deadline) ==> Complete(New(w, w')))
  }

  lemma NewBehind(w: World, w1: World, w2: World, e: Event)
    requires w1.trace == w.trace + [e] && w1.trace <= w2.trace
    ensures New(w1, w1) == [] && New(w, w2) == [e] + New(w1, w2)
  {
  }

  lemma TidyJoins(script: Script, w: World, w1: World, w2: World, named: set<string>, deadline: Option<real>)
    requires Tidy(script, w, w1, named, deadline) && Tidy(script, w1, w2, named, deadline)
    ensures Tidy(script, w, w2, named, deadline)
  {
    assert New(w, w2) == New(w, w1) + New(w1, w2);
    InOrderJoins(New(w, w1), New(w1, w2), named);
    assert NoCrashFrom(script, w.tick) ==> NoCrashFrom(script, w1.tick);
  }

  lemma Untouched(script: Script, w: World, w': World, named: set<string>, deadline: Option<real>)
    requires w'.trace == w.trace && w.tick <= w'.tick && w.clock <= w'.clock
    ensures Tidy(script, w, w', named, deadline)
  {
    assert New(w, w') == [];
  }

  /** Deleting anything but a group has nothing to do with peers. */
  lemma AttemptTidy(script: Script, w: World, target: seq<Obj>, named: set<string>, deadline: Option<real>)
    requires |target| <= 1 && (target != [] ==> !target[0].kind.Group?)
    ensures Tidy(script, w, Attempt(script, w, target).0, named, deadline)
  {
    var w' := Attempt(script, w, target).0;
    if target == [] {
      Untouched(script, w, w', named, deadline);
    } else {
      assert New(w, w') == [w'.trace[|w.trace|]];
      assert New(w, w')[..0] == [];
    }
  }

  lemma {:induction false} RoutesTidy(script: Script, w: World, ids: seq<string>, named: set<string>,
                                      deadline: Option<real>)
    ensures Tidy(script, w, DeleteRoutes(script, w, ids, deadline).0, named, deadline)
    decreases |ids|
  {
    if ids == [] || Expired(w, deadline) {
      Untouched(script, w, w, named, deadline);
    } else {
      var target := [Obj(Route, ids[0])];
      var (w1, verdict) := DeleteObject(script, w, target[0]);
      AttemptTidy(script, w, target, named, deadline);
      if !verdict.Crashes? {
        RoutesTidy(script, w1, ids[1..], named, deadline);
        TidyJoins(script, w, w1, DeleteRoutes(script, w1, ids[1..], deadline).0, named, deadline);
      }
    }
  }

  /** These calls delete the first `|calls|` of the peers, in their order. */
  predicate DeletesOf(calls: seq<Event>, peers: seq<string>) {
    |calls| <= |peers| && forall k | 0 <= k < |calls| :: calls[k].call == DeletePeer(peers[k])
  }

  lemma NoneDeleted(w: World, peers: seq<string>)
    ensures New(w, w) == [] && DeletesOf([], peers)
  {
  }

  lemma PeersDeleted(e: Event, calls: seq<Event>, peers: seq<string>)
    requires peers != [] && e.call == DeletePeer(peers[0]) && DeletesOf(calls, peers[1..])
    ensures DeletesOf([e] + calls, peers)
  {
  }

  lemma {:induction false} EachPeerDeleted(script: Script, w: World, peers: seq<string>, deadline: Option<real>)
    ensures var (w', raised) := DeleteEachPeer(script, w, peers, deadline);
            && w.tick <= w'.tick && w.clock <= w'.clock
            && DeletesOf(New(w, w'), peers)
            && (raised || Expired(w', deadline) || |New(w, w')| == |peers|)
            && (NoCrashFrom(script, w.tick) ==> !raised)
    decreases |peers|
  {
    hide DeletesOf, New;
    NoneDeleted(w, peers);
    if peers != [] && !Expired(w, deadline) {
      var (w1, verdict) := DeleteOnePeer(script, w, peers[0]);
      var e := w1.trace[|w.trace|];
      var w2 := w1;
      if !verdict.Crashes? {
        EachPeerDeleted(script, w1, peers[1..], deadline);
        w2 := DeleteEachPeer(script, w1, peers[1..], deadline).0;
        assert NoCrashFrom(script, w.tick) ==> NoCrashFrom(script, w1.tick);
      } else {
        NoneDeleted(w1, peers[1..]);
      }
      NewBehind(w, w1, w2, e);
      PeersDeleted(e, New(w1, w2), peers);
    }
  }

  /** A listing and what follows it. */
  lemma {:induction false} ListedThenDeleted(listing: Event, calls: seq<Event>, named: set<string>)
    requires listing.call.ListPeers? && listing.call.group in named && DeletesOf(calls, listing.listed)
    ensures InOrder([listing] + calls, named)
    ensures Owed([listing] + calls) == listing.listed[|calls|..]
    ensures Listing([listing] + calls) == Some(listing.call.group)
    ensures Complete([listing] + calls) <==> |calls| == |listing.listed|
  {
    var all := [listing] + calls;
    if calls == [] {
      assert all[..0] == [] && all[..|all| - 1] == [];
    } else {
      var n := |calls| - 1;
      var before := [listing] + calls[..n];
      assert all[..|all| - 1] == before;
      ListedThenDeleted(listing, calls[..n], named);
      forall k | 0 <= k < |all|
        ensures Fits(all[..k], all[k].call, named)
      {
        if k < |all| - 1 {
          assert before[..k] == all[..k] && Fits(before[..k], before[k].call, named);
        }
      }
      assert all[..0] == [];
    }
  }

  /** A listing of a named group and deletes of its peers, all of them unless time ran out or something crashed. */
  lemma BlockTidy(script: Script, w: World, w': World, listing: Event, calls: seq<Event>, named: set<string>,
                  deadline: Option<real>)
    requires w.trace <= w'.trace && w.tick <= w'.tick && w.clock <= w'.clock && New(w, w') == [listing] + calls
    requires listing.call.ListPeers? && listing.call.group in named && DeletesOf(calls, listing.listed)
    requires NoCrashFrom(script, w.tick) && !Expired(w', deadline) ==> |calls| == |listing.listed|
    ensures Tidy(script, w, w', named, deadline) && Listing(New(w, w')) == Some(listing.call.group)
  {
    hide InOrder, Complete, Owed, Listing, New;
    ListedThenDeleted(listing, calls, named);
  }

  /** Listing the peers of a group and deleting them, up to a crash or the deadline. */
  lemma PeersTidy(script: Script, w: World, group: Option<string>, named: set<string>, deadline: Option<real>)
    requires Truthy(group) ==> group.value in named
    ensures var (w', raised) := DeleteGroupPeers(script, w, group, deadline);
            && Tidy(script, w, w', named, deadline)
            && (NoCrashFrom(script, w.tick) ==> !raised)
            && (Truthy(group) ==> Listing(New(w, w')) == Some(group.value))
  {
    hide Tidy, Listing, DeleteEachPeer;
    var (w', raised) := DeleteGroupPeers(script, w, group, deadline);
    if !Truthy(group) {
      Untouched(script, w, w', named, deadline);
    } else {
      var (w1, verdict, peers) := ListGroupPeers(script, w, group.value);
      var listing := w1.trace[|w.trace|];
      EachPeerDeleted(script, w1, peers, deadline);
      assert NoCrashFrom(script, w.tick) ==> NoCrashFrom(script, w1.tick);
      NewBehind(w, w1, w', listing);
      NewBehind(w, w1, w1, listing);
      var calls := if verdict.Succeeds? then New(w1, w') else [];
      BlockTidy(script, w, w', listing, calls, named, deadline);
    }
  }

  /** The delete of a group directly behind its peers. */
  lemma GroupDeleteTidy(script: Script, w: World, w1: World, group: Option<string>, named: set<string>,
                        deadline: Option<real>)
    requires Tidy(script, w, w1, named, deadline)
    requires Truthy(group) ==> Listing(New(w, w1)) == Some(group.value)
    requires !Expired(w1, deadline)
    ensures Tidy(script, w, Attempt(script, w1, Named(Group, group)).0, named, deadline)
  {
    var w2 := Attempt(script, w1, Named(Group, group)).0;
    if Truthy(group) {
      var e := w2.trace[|w1.trace|];
      assert New(w, w2) == New(w, w1) + [e];
      OneCallMore(New(w, w1), e, named);
    }
  }

  lemma OneCallMore(calls: seq<Event>, e: Event, named: set<string>)
    requires InOrder(calls, named) && Fits(calls, e.call, named)
    ensures InOrder(calls + [e], named)
    ensures Complete(calls) && !e.call.ListPeers? ==> Complete(calls + [e])
  {
    hide Fits;
    var all := calls + [e];
    assert all[..|calls|] == calls;
    forall k | 0 <= k < |all|
      ensures Fits(all[..k], all[k].call, named)
    {
      if k < |calls| {
        assert all[..k] == calls[..k] && Fits(calls[..k], calls[k].call, named);
      }
    }
    if Complete(calls) {
      assert forall k | 0 <= k < |calls| :: all[..k] == calls[..k];
    }
  }

  lemma GroupTidy(script: Script, w: World, key: Option<string>, group: Option<string>, named: set<string>,
                  deadline: Option<real>)
    requires Truthy(group) ==> group.value in named
    ensures Tidy(script, w, DestroyGroup(script, w, key, group, deadline).0, named, deadline)
  {
    hide Tidy, New, DeleteGroupPeers, Attempt;
    if Expired(w, deadline) {
      Untouched(script, w, w, named, deadline);
    } else {
      var (w1, raised1) := Attempt(script, w, Named(SetupKey, key));
      AttemptTidy(script, w, Named(SetupKey, key), named, deadline);
      if !raised1 {
        var (w2, raised2) := DeleteGroupPeers(script, w1, group, deadline);
        var w' := DestroyGroup(script, w, key, group, deadline).0;
        PeersTidy(script, w1, group, named, deadline);
        if !raised2 && !Expired(w2, deadline) {
          GroupDeleteTidy(script, w1, w2, group, named, deadline);
        }
        TidyJoins(script, w, w1, w', named, deadline);
      }
    }
  }

  lemma RestTidy(script: Script, w: World, row: Resources, named: set<string>, deadline: Option<real>)
    requires Truthy(row.group) ==> row.group.value in named
    ensures Tidy(script, w, DestroyRest(script, w, row, deadline).0, named, deadline)
  {
    hide Tidy, DestroyGroup, DeleteRoutes;
    var (w1, flow) := DeleteRoutes(script, w, ListOf(row.routeIds), deadline);
    RoutesTidy(script, w, ListOf(row.routeIds), named, deadline);
    if flow.GoesOn? {
      GroupTidy(script, w1, row.key, row.group, named, deadline);
      TidyJoins(script, w, w1, DestroyGroup(script, w1, row.key, row.group, deadline).0, named, deadline);
    }
  }

  /** A query makes no call. */
  lemma QueryTidy(script: Script, w: World, w1: World, w2: World, named: set<string>, deadline: Option<real>)
    requires Tidy(script, w, w1, named, deadline)
    requires w2.trace == w1.trace && w1.tick <= w2.tick && w1.clock <= w2.clock
    ensures Tidy(script, w, w2, named, deadline)
  {
    Untouched(script, w1, w2, named, deadline);
    TidyJoins(script, w, w1, w2, named, deadline);
  }

  lemma EntrypointTidy(script: Script, w: World, row: Resources, named: set<string>, deadline: Option<real>)
    requires Truthy(row.group) ==> row.group.value in named
    ensures Tidy(script, w, DestroyEntrypoint(script, w, row, deadline).0, named, deadline)
  {
    hide Tidy, DestroyRest, Attempt;
    if Expired(w, deadline) {
      Untouched(script, w, w, named, deadline);
    } else {
      var (w1, raised) := Attempt(script, w, Named(Policy, row.policy));
      AttemptTidy(script, w, Named(Policy, row.policy), named, deadline);
      if !raised {
        var (w2, flow) := DestroyRest(script, w1, row, deadline);
        RestTidy(script, w1, row, named, deadline);
        TidyJoins(script, w, w1, w2, named, deadline);
        if flow.GoesOn? {
          QueryTidy(script, w, w2, DeleteRow(script, w2, row.host), named, deadline);
        }
      }
    }
  }

  lemma AccessTidy(script: Script, w: World, access: Access, named: set<string>, deadline: Option<real>)
    requires Truthy(access.group) ==> access.group.value in named
    ensures Tidy(script, w, DestroyAccess(script, w, access, deadline).0, named, deadline)
  {
    hide Tidy, DestroyGroup, Attempt;
    if Expired(w, deadline) {
      Untouched(script, w, w, named, deadline);
    } else {
      var (w1, raised) := Attempt(script, w, Named(Nameservers, access.nameservers));
      AttemptTidy(script, w, Named(Nameservers, access.nameservers), named, deadline);
      if !raised {
        var (w2, flow) := DestroyGroup(script, w1, access.key, access.group, deadline);
        GroupTidy(script, w1, access.key, access.group, named, deadline);
        TidyJoins(script, w, w1, w2, named, deadline);
        if flow.GoesOn? {
          QueryTidy(script, w, w2, DeleteAccess(script, w2), named, deadline);
        }
      }
    }
  }

  predicate AllNamed(rows: seq<Resources>, named: set<string>) {
    forall r <- rows :: Truthy(r.group) ==> r.group.value in named
  }

  lemma {:induction false} RowsTidy(script: Script, w: World, rows: seq<Resources>, named: set<string>,
                                    deadline: Option<real>)
    requires AllNamed(rows, named)
    ensures Tidy(script, w, DestroyRows(script, w, rows, deadline), named, deadline)
  {
    hide Tidy, DestroyEntrypoint;
    if rows == [] {
      Untouched(script, w, w, named, deadline);
    } else {
      var k := |rows| - 1;
      var w1 := DestroyRows(script, w, rows[..k], deadline);
      RowsTidy(script, w, rows[..k], named, deadline);
      if !Expired(w1, deadline) {
        EntrypointTidy(script, w1, rows[k], named, deadline);
        TidyJoins(script, w, w1, DestroyEntrypoint(script, w1, rows[k], deadline).0, named, deadline);
      }
    }
  }

  /** The groups that the rows and the shared record name. */
  function NamedGroups(rows: seq<Resources>, access: Option<Access>): set<string> {
    (set r <- rows | Truthy(r.group) :: r.group.value)
    + if access.Some? && Truthy(access.value.group) then {access.value.group.value} else {}
  }

  /** A whole teardown, with a deadline or without one. */
  lemma {:induction false} TeardownTidy(script: Script, w: World, rows: seq<Resources>, access: Option<Access>,
                                        deadline: Option<real>)
    ensures Tidy(script, w, DestroyAll(script, w, rows, access, deadline), NamedGroups(rows, access), deadline)
  {
    hide Tidy, DestroyRows, DestroyAccess;
    var named := NamedGroups(rows, access);
    var w1 := DestroyRows(script, w, rows, deadline);
    RowsTidy(script, w, rows, named, deadline);
    if access.Some? && !Expired(w1, deadline) {
      AccessTidy(script, w1, access.value, named, deadline);
      TidyJoins(script, w, w1, DestroyAccess(script, w1, access.value, deadline).0, named, deadline);
    }
  }

  // ---- The teardown of a sandbox ----

  /**
   Whatever fails, crashes or runs out of time: a teardown lists the peers of no other groups than its rows
   name, deletes listed peers only, in the order of the listing, and a group directly behind its peers.
   */
  lemma {:induction false} OnlyListedPeersAreDeleted(script: Script, w: World, budget: int)
    ensures var w' := Destroy(script, w, budget); var (_, access, rows) := Loaded(script, w);
            w.trace <= w'.trace && InOrder(New(w, w'), NamedGroups(rows, access))
  {
    var (w1, access, rows) := Loaded(script, w);
    TeardownTidy(script, w1, rows, access, Some(DeadlineOf(script, w, budget)));
    hide DestroyAll, InOrder, NamedGroups;
    assert w1.trace == w.trace;
  }

  /** From index `i` on: the listing of the group, one delete for every listed peer, and the delete of the group. */
  predicate GroupIsCleared(calls: seq<Event>, i: nat, g: string) {
    && i < |calls| && calls[i].call == ListPeers(g)
    && i + 1 + |calls[i].listed| < |calls|
    && (forall j | 0 <= j < |calls[i].listed| :: calls[i + 1 + j].call == DeletePeer(calls[i].listed[j]))
    && calls[i + 1 + |calls[i].listed|].call == Delete(Obj(Group, g))
  }

  /** What comes before call `k` when the peers of a group were being deleted. */
  lemma {:induction false} BlockBefore(calls: seq<Event>, k: nat, named: set<string>) returns (i: nat)
    requires InOrder(calls, named) && k <= |calls| && Listing(calls[..k]).Some?
    ensures i < k && calls[i].call == ListPeers(Listing(calls[..k]).value)
    ensures k - i - 1 <= |calls[i].listed| && Owed(calls[..k]) == calls[i].listed[k - i - 1..]
    ensures forall j | 0 <= j < k - i - 1 :: calls[i + 1 + j].call == DeletePeer(calls[i].listed[j])
    decreases k
  {
    hide Owed, Listing, InOrder;
    LastCall(calls, k, named);
    i := k - 1;
    if !calls[k - 1].call.ListPeers? {
      i := BlockBefore(calls, k - 1, named);
    }
  }

  /** The last of `k` calls and what was owed before it. */
  lemma LastCall(calls: seq<Event>, k: nat, named: set<string>)
    requires InOrder(calls, named) && k <= |calls| && Listing(calls[..k]).Some?
    ensures k > 0
    ensures var e := calls[k - 1]; var before := calls[..k - 1];
            if e.call.ListPeers? then Listing(calls[..k]) == Some(e.call.group) && Owed(calls[..k]) == e.listed
            else Listing(before) == Listing(calls[..k]) && Owed(before) != []
                 && e.call == DeletePeer(Owed(before)[0]) && Owed(calls[..k]) == Owed(before)[1..]
  {
    assert calls[..k][..k - 1] == calls[..k - 1];
    assert Fits(calls[..k - 1], calls[k - 1].call, named);
    hide InOrder;
  }

  lemma ClearedBefore(calls: seq<Event>, k: nat, g: string, named: set<string>)
    requires InOrder(calls, named) && Complete(calls)
    requires k < |calls| && calls[k].call == Delete(Obj(Group, g))
    ensures exists i: nat :: GroupIsCleared(calls, i, g)
  {
    assert Fits(calls[..k], calls[k].call, named);
    var i := BlockBefore(calls, k, named);
    assert GroupIsCleared(calls, i, g);
  }

  lemma {:induction false} DeletesJoin(a: seq<Event>, b: seq<Event>)
    ensures Deletes(a + b) == Deletes(a) + Deletes(b)
  {
    if b == [] {
      assert a + b == a;
    } else {
      DeletesJoin(a, b[..|b| - 1]);
      assert (a + b)[..|a + b| - 1] == a + b[..|b| - 1];
    }
  }

  lemma {:induction false} DeleteIsACall(calls: seq<Event>, o: Obj)
    requires o in Deletes(calls)
    ensures exists k: nat :: k < |calls| && calls[k].call == Delete(o)
  {
    var n := |calls| - 1;
    if calls[n].call != Delete(o) {
      DeleteIsACall(calls[..n], o);
      var k: nat :| k < |calls[..n]| && calls[..n][k].call == Delete(o);
      assert calls[k].call == Delete(o);
    }
  }

  lemma NamedGroupIsTarget(rows: seq<Resources>, access: Option<Access>, g: string)
    requires g in NamedGroups(rows, access)
    ensures Obj(Group, g) in AllTargets(rows, access)
  {
    if r :| r in rows && Truthy(r.group) && r.group.value == g {
      var i: nat :| i < |rows| && rows[i] == r;
      GroupTarget(r, g);
      FlatMapHas(Targets, rows, Obj(Group, g));
    } else {
      assert Obj(Group, g) in Named(Group, access.value.group);
    }
  }

  /** Every group that was deleted in an orderly run was cleared before. */
  lemma IssuedIsCleared(w: World, w': World, g: string, named: set<string>)
    requires w.trace <= w'.trace && InOrder(New(w, w'), named) && Complete(New(w, w'))
    requires Deletes(w.trace) <= Deletes(w'.trace) && Obj(Group, g) in Issued(w, w')
    ensures exists i: nat :: GroupIsCleared(New(w, w'), i, g)
  {
    hide InOrder, Complete, GroupIsCleared;
    var calls := New(w, w');
    assert w'.trace == w.trace + calls;
    DeletesJoin(w.trace, calls);
    DeleteIsACall(calls, Obj(Group, g));
    var k: nat :| k < |calls| && calls[k].call == Delete(Obj(Group, g));
    ClearedBefore(calls, k, g, named);
  }

  lemma LoadsCallNothing(script: Script, w: World)
    ensures Loaded(script, w).0.trace == w.trace && w.tick <= Loaded(script, w).0.tick
  {
  }

  /**
   A teardown without crashes that ends in time lists the peers of every group that its rows name, deletes each
   of them, and then the group.
   */
  lemma {:induction false} EveryPeerIsDeleted(script: Script, w: World, budget: int, g: string)
    requires NoCrashFrom(script, w.tick) && Destroy(script, w, budget).clock <= DeadlineOf(script, w, budget)
    requires var (_, access, rows) := Loaded(script, w); g in NamedGroups(rows, access)
    ensures w.trace <= Destroy(script, w, budget).trace
            && exists i: nat :: GroupIsCleared(New(w, Destroy(script, w, budget)), i, g)
  {
    var (w1, access, rows) := Loaded(script, w);
    LoadsCallNothing(script, w);
    assert NoCrashFrom(script, w1.tick);
    DeletesFollowTheList(script, w, budget);
    NamedGroupIsTarget(rows, access, g);
    TeardownTidy(script, w1, rows, access, Some(DeadlineOf(script, w, budget)));
    hide DestroyAll, Loaded, AllTargets, NamedGroups, InOrder, Complete, GroupIsCleared, DeadlineOf, Deletes;
    IssuedIsCleared(w, Destroy(script, w, budget), g, NamedGroups(rows, access));
  }
}
