/**
 What a sandbox's VPN lives in: the NetBird objects in the cloud, the rows that name them, the clock,
 and whatever may happen around each operation.
 */
module NetbirdWorld {
  import opened Common
  import opened Text

  // ---- The cloud ----

  datatype Kind = Group | SetupKey | Route | Policy | Nameservers
  datatype Obj = Obj(kind: Kind, id: string)

  /** Every object with the ids of the groups it refers to. */
  type Objects = map<Obj, set<string>>

  datatype Call = Create(kind: Kind) | Delete(obj: Obj) | ListPeers(group: string) | DeletePeer(peer: string)
  /** A call with the moments it started and ended; `listed` are the peers in the answer to a listing. */
  datatype Event = Event(call: Call, at: real, until: real, listed: seq<string>)

  /** A call that fails raises `NetbirdApiError`; one that crashes raises anything else. */
  datatype Verdict = Succeeds | ApiFails | Crashes

  type Span = r: real | 0.0 <= r

  /**
   The surroundings of one operation: how it ends, how long it takes as a call to the cloud or as a
   query to the database, whether the sandbox is deleted just before it, and what the server answers.
   */
  datatype Tick = Tick(verdict: Verdict, duration: Span, query: Span, vanish: bool, id: string, peers: seq<string>)

  /** What surrounds the operations of a whole run, one after the other. */
  type Script = nat -> Tick

  // ---- The rows ----

  datatype Access = Access(group: Option<string>, key: Option<string>, nameservers: Option<string>)

  const BLANK_ACCESS := Access(None, None, None)

  datatype Resources = Resources(host: string, group: Option<string>, key: Option<string>,
                                 routeIds: Option<string>, routeCidrs: Option<string>, policy: Option<string>)

  function BlankRow(host: string): Resources {
    Resources(host, None, None, None, None, None)
  }

  predicate Truthy(s: Option<string>) {
    s.Some? && s.value != ""
  }

  /** `get_route_id_list` and `get_route_cidr_list`. */
  function ListOf(column: Option<string>): seq<string> {
    if Truthy(column) then NonEmpty(Split(column.value)) else []
  }

  /** A column written from a list reads back as that list, as long as its items are plain. */
  lemma ListRoundTrip(items: seq<string>)
    requires forall i | 0 <= i < |items| :: Plain(items[i])
    ensures ListOf(Some(Join(items))) == items
  {
    if items != [] {
      assert Plain(items[0]);
      assert Join(items)[0] == items[0][0];
      forall p <- items
        ensures ',' !in p
      {
        assert Plain(p);
      }
      SplitOfJoin(items);
      NonEmptyKeeps(items);
    }
  }

  lemma ListIsPlain(column: Option<string>)
    ensures forall i | 0 <= i < |ListOf(column)| :: Plain(ListOf(column)[i])
  {
    forall i | 0 <= i < |ListOf(column)|
      ensures Plain(ListOf(column)[i])
    {
      assert ListOf(column)[i] in NonEmpty(Split(column.value));
    }
  }

  /** And only then: an empty item, or one with a comma, is not read back. */
  lemma {:induction false} ListRoundTripIff(items: seq<string>)
    ensures ListOf(Some(Join(items))) == items <==> forall i | 0 <= i < |items| :: Plain(items[i])
  {
    ListIsPlain(Some(Join(items)));
    if forall i | 0 <= i < |items| :: Plain(items[i]) {
      ListRoundTrip(items);
    }
  }

  function Named(kind: Kind, id: Option<string>): seq<Obj> {
    if Truthy(id) then [Obj(kind, id.value)] else []
  }

  function Routes(ids: seq<string>): (r: seq<Obj>)
    ensures |r| == |ids| && forall i | 0 <= i < |ids| :: r[i] == Obj(Route, ids[i])
  {
    if ids == [] then [] else Routes(ids[..|ids| - 1]) + [Obj(Route, ids[|ids| - 1])]
  }

  /** The objects a row names, in the order they must be deleted in: users of a group before the group. */
  function Targets(row: Resources): seq<Obj> {
    Named(Policy, row.policy) + Routes(ListOf(row.routeIds)) + Named(SetupKey, row.key) + Named(Group, row.group)
  }

  function AccessTargets(access: Access): seq<Obj> {
    Named(Nameservers, access.nameservers) + Named(SetupKey, access.key) + Named(Group, access.group)
  }

  function RowsTargets(rows: seq<Resources>): seq<Obj> {
    FlatMap(Targets, rows)
  }

  /** Everything the rows of a sandbox name: entrypoint by entrypoint, the shared objects last. */
  function AllTargets(rows: seq<Resources>, access: Option<Access>): seq<Obj> {
    RowsTargets(rows) + if access.Some? then AccessTargets(access.value) else []
  }

  // ---- The world and its operations ----

  /**
   `sandbox` says whether the sandbox row still exists; its dependent rows go with it.  `lost` are the
   routes whose ids were never saved.  A `strict` server refuses to delete a group that is in use.
   */
  datatype World = World(tick: nat, clock: real, objs: Objects, trace: seq<Event>, strict: bool,
                         sandbox: bool, access: Option<Access>, rows: seq<Resources>, lost: set<Obj>)

  function Vanished(script: Script, w: World): World {
    if script(w.tick).vanish then w.(sandbox := false, access := None, rows := []) else w
  }

  /** One database operation. */
  function Asked(script: Script, w: World): World {
    Vanished(script, w).(tick := w.tick + 1, clock := w.clock + script(w.tick).query)
  }

  /** The peers of a group; a group that is not there has none, and neither has an answer that fails. */
  function Answered(script: Script, w: World, call: Call): seq<string> {
    if call.ListPeers? && script(w.tick).verdict.Succeeds? && Obj(Group, call.group) in w.objs
    then script(w.tick).peers
    else []
  }

  /** One call to the cloud, whatever comes of it. */
  function Called(script: Script, w: World, call: Call): World {
    Vanished(script, w).(tick := w.tick + 1, clock := w.clock + script(w.tick).duration,
                         trace := w.trace + [Event(call, w.clock, w.clock + script(w.tick).duration,
                                                   Answered(script, w, call))])
  }

  function CreateObject(script: Script, w: World, kind: Kind, groups: set<string>): (World, Option<string>) {
    var w1 := Called(script, w, Create(kind));
    var id := script(w.tick).id;
    if script(w.tick).verdict.Succeeds? then (w1.(objs := w1.objs[Obj(kind, id) := groups]), Some(id))
    else (w1, None)
  }

  predicate InUse(objs: Objects, group: string) {
    exists o <- objs :: group in objs[o]
  }

  predicate Refused(strict: bool, objs: Objects, o: Obj) {
    strict && o.kind.Group? && InUse(objs, o.id)
  }

  function Remove(strict: bool, objs: Objects, o: Obj): Objects {
    if Refused(strict, objs, o) then objs else objs - {o}
  }

  /** Deleting what is not there counts as success. */
  function DeleteObject(script: Script, w: World, o: Obj): (World, Verdict) {
    var w1 := Called(script, w, Delete(o));
    var verdict := script(w.tick).verdict;
    if verdict.Succeeds? && Refused(w.strict, w.objs, o) then (w1, ApiFails)
    else if verdict.Succeeds? then (w1.(objs := w.objs - {o}), Succeeds)
    else (w1, verdict)
  }

  function ListGroupPeers(script: Script, w: World, group: string): (World, Verdict, seq<string>) {
    var call := ListPeers(group);
    (Called(script, w, call), script(w.tick).verdict, Answered(script, w, call))
  }

  function DeleteOnePeer(script: Script, w: World, peer: string): (World, Verdict) {
    (Called(script, w, DeletePeer(peer)), script(w.tick).verdict)
  }

  // Database operations that need the sandbox fail once it is gone.

  function Exists(script: Script, w: World): (World, bool) {
    var w1 := Asked(script, w);
    (w1, w1.sandbox)
  }

  function GetOrCreateAccess(script: Script, w: World): (World, Option<Access>) {
    var w1 := Asked(script, w);
    if !w1.sandbox then (w1, None)
    else if w1.access.Some? then (w1, w1.access)
    else (w1.(access := Some(BLANK_ACCESS)), Some(BLANK_ACCESS))
  }

  function SaveAccess(script: Script, w: World, access: Access): (World, bool) {
    var w1 := Asked(script, w);
    if w1.sandbox then (w1.(access := Some(access)), true) else (w1, false)
  }

  function Find(rows: seq<Resources>, host: string): Option<Resources> {
    if rows == [] then None
    else if rows[|rows| - 1].host == host then Some(rows[|rows| - 1])
    else Find(rows[..|rows| - 1], host)
  }

  lemma {:induction false} FindIs(rows: seq<Resources>, host: string)
    ensures Find(rows, host).None? <==> forall r <- rows :: r.host != host
    ensures Find(rows, host).Some? ==> Find(rows, host).value in rows && Find(rows, host).value.host == host
  {
    if rows != [] {
      FindIs(rows[..|rows| - 1], host);
      assert rows == rows[..|rows| - 1] + [rows[|rows| - 1]];
    }
  }

  /** The row of that host replaced, or added at the end. */
  function Upsert(rows: seq<Resources>, row: Resources): seq<Resources> {
    if rows == [] then [row]
    else if rows[|rows| - 1].host == row.host then rows[..|rows| - 1] + [row]
    else if Find(rows, row.host).None? then rows + [row]
    else Upsert(rows[..|rows| - 1], row) + [rows[|rows| - 1]]
  }

  function Without(rows: seq<Resources>, host: string): (r: seq<Resources>)
    ensures forall x <- r :: x in rows && x.host != host
  {
    if rows == [] then []
    else
      var last := rows[|rows| - 1];
      Without(rows[..|rows| - 1], host) + if last.host == host then [] else [last]
  }

  function GetOrCreateRow(script: Script, w: World, host: string): (World, Option<Resources>) {
    var w1 := Asked(script, w);
    if !w1.sandbox then (w1, None)
    else if Find(w1.rows, host).Some? then (w1, Find(w1.rows, host))
    else (w1.(rows := w1.rows + [BlankRow(host)]), Some(BlankRow(host)))
  }

  function SaveRow(script: Script, w: World, row: Resources): (World, bool) {
    var w1 := Asked(script, w);
    if w1.sandbox then (w1.(rows := Upsert(w1.rows, row)), true) else (w1, false)
  }

  function GetRow(script: Script, w: World, host: string): (World, Option<Resources>) {
    var w1 := Asked(script, w);
    (w1, Find(w1.rows, host))
  }

  function DeleteRow(script: Script, w: World, host: string): World {
    var w1 := Asked(script, w);
    w1.(rows := Without(w1.rows, host))
  }

  function DeleteAccess(script: Script, w: World): World {
    Asked(script, w).(access := None)
  }

  // ---- What runs can rely on ----

  ghost predicate HealthyFrom(script: Script, n: nat) {
    forall t: nat | n <= t :: script(t).verdict.Succeeds?
  }

  ghost predicate NoCrashFrom(script: Script, n: nat) {
    forall t: nat | n <= t :: !script(t).verdict.Crashes?
  }

  /** No call takes longer than its timeout. */
  ghost predicate Timely(script: Script, limit: real) {
    forall t: nat :: script(t).duration <= limit
  }
}
