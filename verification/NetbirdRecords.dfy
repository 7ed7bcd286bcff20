/**
 The rows of a sandbox during its teardown: a row goes only behind deletes for everything it names, however
 calls fail or crash and whenever time runs out.
 */
module NetbirdRecords {
  import opened Common
  import opened NetbirdWorld
  import opened NetbirdTeardown

  /** Calls to the cloud leave the rows alone, as long as the sandbox is there. */
  ghost predicate RowsStay(w: World, w': World) {
    w'.sandbox ==> w.sandbox && w'.rows == w.rows && w'.access == w.access
  }

  lemma {:induction false} EachPeerKeepsRows(script: Script, w: World, peers: seq<string>, deadline: Option<real>)
    ensures RowsStay(w, DeleteEachPeer(script, w, peers, deadline).0)
    decreases |peers|
  {
    if peers != [] && !Expired(w, deadline) {
      EachPeerKeepsRows(script, DeleteOnePeer(script, w, peers[0]).0, peers[1..], deadline);
    }
  }

  lemma {:induction false} RoutesKeepRows(script: Script, w: World, ids: seq<string>, deadline: Option<real>)
    ensures RowsStay(w, DeleteRoutes(script, w, ids, deadline).0)
    decreases |ids|
  {
    if ids != [] && !Expired(w, deadline) {
      RoutesKeepRows(script, DeleteObject(script, w, Obj(Route, ids[0])).0, ids[1..], deadline);
    }
  }

  lemma AttemptKeepsRows(script: Script, w: World, target: seq<Obj>)
    requires |target| <= 1
    ensures RowsStay(w, Attempt(script, w, target).0)
  {
  }

  lemma PeersKeepRows(script: Script, w: World, group: Option<string>, deadline: Option<real>)
    ensures RowsStay(w, DeleteGroupPeers(script, w, group, deadline).0)
  {
    if Truthy(group) {
      var (w1, verdict, peers) := ListGroupPeers(script, w, group.value);
      EachPeerKeepsRows(script, w1, peers, deadline);
    }
  }

  lemma GroupKeepsRows(script: Script, w: World, key: Option<string>, group: Option<string>, deadline: Option<real>)
    ensures RowsStay(w, DestroyGroup(script, w, key, group, deadline).0)
  {
    var w1 := Attempt(script, w, Named(SetupKey, key)).0;
    var w2 := DeleteGroupPeers(script, w1, group, deadline).0;
    AttemptKeepsRows(script, w, Named(SetupKey, key));
    PeersKeepRows(script, w1, group, deadline);
    AttemptKeepsRows(script, w2, Named(Group, group));
    hide Attempt, DeleteGroupPeers;
  }

  lemma ObjectsKeepRows(script: Script, w: World, row: Resources, deadline: Option<real>)
    ensures RowsStay(w, DestroyObjects(script, w, row, deadline).0)
  {
    hide DestroyGroup, DeleteRoutes;
    var w1 := Attempt(script, w, Named(Policy, row.policy)).0;
    RoutesKeepRows(script, w1, ListOf(row.routeIds), deadline);
    var w2 := DeleteRoutes(script, w1, ListOf(row.routeIds), deadline).0;
    GroupKeepsRows(script, w2, row.key, row.group, deadline);
  }

  lemma AccessObjectsKeepRows(script: Script, w: World, access: Access, deadline: Option<real>)
    ensures RowsStay(w, DestroyAccessObjects(script, w, access, deadline).0)
  {
    hide DestroyGroup;
    var w1 := Attempt(script, w, Named(Nameservers, access.nameservers)).0;
    GroupKeepsRows(script, w1, access.key, access.group, deadline);
  }

  /** Deletes have been issued for all of these since `w`. */
  ghost predicate AllIssued(w: World, w': World, targets: seq<Obj>) {
    Deletes(w.trace) <= Deletes(w'.trace) && forall o <- targets :: o in Issued(w, w')
  }

  lemma IssuedLonger(w: World, w1: World, w2: World, targets: seq<Obj>)
    requires Deletes(w.trace) <= Deletes(w1.trace) <= Deletes(w2.trace)
    ensures AllIssued(w, w1, targets) || AllIssued(w1, w2, targets) ==> AllIssued(w, w2, targets)
  {
    assert Issued(w, w2) == Issued(w, w1) + Issued(w1, w2);
  }

  /** Each row that is gone belongs to a record whose objects were all dealt with. */
  ghost predicate RowsHonest(w: World, w': World, rows: seq<Resources>) {
    && (w'.sandbox ==> w.sandbox)
    && Deletes(w.trace) <= Deletes(w'.trace)
    && (w'.sandbox ==> forall r <- w.rows | r !in w'.rows :: DealtWith(w, w', rows, r.host))
  }

  ghost predicate DealtWith(w: World, w': World, rows: seq<Resources>, host: string) {
    exists x <- rows :: x.host == host && AllIssued(w, w', Targets(x))
  }

  lemma {:induction false} WithoutKeeps(rows: seq<Resources>, host: string, r: Resources)
    requires r in rows && r.host != host
    ensures r in Without(rows, host)
  {
    var n := |rows| - 1;
    if rows[n] != r {
      assert r in rows[..n];
      WithoutKeeps(rows[..n], host, r);
    }
  }

  lemma EntrypointHonest(script: Script, w: World, row: Resources, deadline: Option<real>)
    ensures var w' := DestroyEntrypoint(script, w, row, deadline).0;
            && Deletes(w.trace) <= Deletes(w'.trace) && (w'.sandbox ==> w.sandbox && w'.access == w.access)
            && (w'.sandbox ==>
                  forall r <- w.rows | r !in w'.rows :: r.host == row.host && AllIssued(w, w', Targets(row)))
  {
    var (w1, flow) := DestroyObjects(script, w, row, deadline);
    var n := ObjectsPiece(script, w, row, deadline);
    ObjectsKeepRows(script, w, row, deadline);
    hide DestroyObjects, Targets, Deletes;
    if flow.GoesOn? {
      var w' := DeleteRow(script, w1, row.host);
      assert Targets(row)[..n] == Targets(row);
      assert Issued(w, w') == Targets(row);
      if w'.sandbox {
        forall r <- w.rows | r !in w'.rows
          ensures r.host == row.host
        {
          if r.host != row.host {
            WithoutKeeps(Asked(script, w1).rows, row.host, r);
          }
        }
      }
    }
  }

  lemma HonestGoesOn(w: World, w1: World, w2: World, rows: seq<Resources>, row: Resources)
    requires RowsHonest(w, w1, rows) && Deletes(w1.trace) <= Deletes(w2.trace)
    requires w2.sandbox ==> w1.sandbox
    requires w2.sandbox ==>
               forall r <- w1.rows | r !in w2.rows :: r.host == row.host && AllIssued(w1, w2, Targets(row))
    ensures RowsHonest(w, w2, rows + [row])
  {
    hide AllIssued, Targets;
    if w2.sandbox {
      forall r <- w.rows | r !in w2.rows
        ensures DealtWith(w, w2, rows + [row], r.host)
      {
        if r in w1.rows {
          IssuedLonger(w, w1, w2, Targets(row));
          assert row in rows + [row];
        } else {
          assert DealtWith(w, w1, rows, r.host);
          var x :| x in rows && x.host == r.host && AllIssued(w, w1, Targets(x));
          IssuedLonger(w, w1, w2, Targets(x));
          assert x in rows + [row];
        }
      }
    }
  }

  lemma {:induction false} RowsGoHonestly(script: Script, w: World, rows: seq<Resources>, deadline: Option<real>)
    ensures var w' := DestroyRows(script, w, rows, deadline);
            RowsHonest(w, w', rows) && (w'.sandbox ==> w'.access == w.access)
  {
    hide DestroyEntrypoint, AllIssued, Targets;
    if rows != [] {
      var k := |rows| - 1;
      var w1 := DestroyRows(script, w, rows[..k], deadline);
      RowsGoHonestly(script, w, rows[..k], deadline);
      assert rows == rows[..k] + [rows[k]];
      if Expired(w1, deadline) {
        HonestGoesOn(w, w1, w1, rows[..k], rows[k]);
      } else {
        EntrypointHonest(script, w1, rows[k], deadline);
        HonestGoesOn(w, w1, DestroyEntrypoint(script, w1, rows[k], deadline).0, rows[..k], rows[k]);
      }
    }
  }

  lemma AccessHonest(script: Script, w: World, access: Access, deadline: Option<real>)
    ensures var w' := DestroyAccess(script, w, access, deadline).0;
            && Deletes(w.trace) <= Deletes(w'.trace)
            && (w'.sandbox ==> w.sandbox && w'.rows == w.rows
                               && (w'.access == w.access || AllIssued(w, w', AccessTargets(access))))
  {
    var (w1, flow) := DestroyAccessObjects(script, w, access, deadline);
    var n := AccessObjectsPiece(script, w, access, deadline);
    AccessObjectsKeepRows(script, w, access, deadline);
    hide DestroyAccessObjects, AccessTargets, Deletes;
    if flow.GoesOn? {
      assert AccessTargets(access)[..n] == AccessTargets(access);
      assert Issued(w, DeleteAccess(script, w1)) == AccessTargets(access);
    }
  }

  lemma {:induction false} AllGoHonestly(script: Script, w: World, rows: seq<Resources>, access: Option<Access>,
                                         deadline: Option<real>)
    ensures var w' := DestroyAll(script, w, rows, access, deadline);
            && RowsHonest(w, w', rows)
            && (w'.sandbox && w'.access != w.access ==> access.Some? && AllIssued(w, w', AccessTargets(access.value)))
  {
    hide DestroyRows, DestroyAccess, AllIssued, Targets, AccessTargets;
    var w1 := DestroyRows(script, w, rows, deadline);
    RowsGoHonestly(script, w, rows, deadline);
    if access.Some? && !Expired(w1, deadline) {
      var w2 := DestroyAccess(script, w1, access.value, deadline).0;
      AccessHonest(script, w1, access.value, deadline);
      SharedGoesOn(w, w1, w2, rows);
      IssuedLonger(w, w1, w2, AccessTargets(access.value));
    }
  }

  lemma SharedGoesOn(w: World, w1: World, w2: World, rows: seq<Resources>)
    requires RowsHonest(w, w1, rows) && Deletes(w1.trace) <= Deletes(w2.trace)
    requires w2.sandbox ==> w1.sandbox && w2.rows == w1.rows
    ensures RowsHonest(w, w2, rows)
  {
    hide AllIssued, Targets;
    if w2.sandbox {
      forall r <- w.rows | r !in w2.rows
        ensures DealtWith(w, w2, rows, r.host)
      {
        assert DealtWith(w, w1, rows, r.host);
        var x :| x in rows && x.host == r.host && AllIssued(w, w1, Targets(x));
        IssuedLonger(w, w1, w2, Targets(x));
      }
    }
  }

  /**
   Whatever fails, crashes or runs out of time: while the sandbox is there, a row that was stored before its
   teardown and is not any more belongs to a loaded one whose objects have all had their deletes issued, and so does
   the shared record.  What was cut short is still on record.
   */
  lemma {:induction false} RecordsGoLast(script: Script, w: World, budget: int)
    ensures var w' := Destroy(script, w, budget); var (_, access, rows) := Loaded(script, w);
            w'.sandbox ==>
              && (forall r <- w.rows | r !in w'.rows :: DealtWith(w, w', rows, r.host))
              && (w'.access != w.access ==> access.Some? && AllIssued(w, w', AccessTargets(access.value)))
  {
    var (w1, access, rows) := Loaded(script, w);
    AllGoHonestly(script, w1, rows, access, Some(DeadlineOf(script, w, budget)));
    LoadsKeepRecords(script, w);
    hide DestroyAll, Loaded, Targets, AccessTargets, DeadlineOf;
    SameTrace(w, w1, Destroy(script, w, budget), rows, access);
  }

  lemma LoadsKeepRecords(script: Script, w: World)
    ensures Loaded(script, w).0.trace == w.trace && RowsStay(w, Loaded(script, w).0)
  {
  }

  lemma SameTrace(w: World, w1: World, w2: World, rows: seq<Resources>, access: Option<Access>)
    requires w1.trace == w.trace
    ensures forall host :: DealtWith(w1, w2, rows, host) ==> DealtWith(w, w2, rows, host)
    ensures access.Some? && AllIssued(w1, w2, AccessTargets(access.value)) ==>
              AllIssued(w, w2, AccessTargets(access.value))
  {
    hide Targets, AccessTargets;
    forall host | DealtWith(w1, w2, rows, host)
      ensures DealtWith(w, w2, rows, host)
    {
      var x :| x in rows && x.host == host && AllIssued(w1, w2, Targets(x));
      assert AllIssued(w, w2, Targets(x));
    }
  }
}
