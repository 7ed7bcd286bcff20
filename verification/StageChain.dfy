/**
 The life of one allocation or cleanup request: its three stage rows, the queue jobs that execute
 them, cancelling, failing and restarting.

 Positions are chain positions, in the order in which the stages run.  An allocation runs
 stack (0), networking (1), user (2); a cleanup runs user (0), networking (1), stack (2).  Both
 cancel from the last position to the first.

 The queue is abstract: a job may begin only when it is still registered and every job it
 depends on has succeeded.
 */
module StageChain {
  import opened Common

  /** A stage row.  `job` is the queue job recorded for the row once that job is enqueued. */
  datatype Row = Row(job: Option<nat>, start: bool, end: bool, failed: bool, finished: bool)

  const FRESH_ROW := Row(None, false, false, false, false)

  const LAST: nat := 2

  predicate Ok(row: Row) {
    row.finished && !row.failed
  }

  /**
   How far a job has come.  A job fails because its stage raised something, or, `Spoiled`, because the row
   of a stage that went well was gone when it was saved for the last time.
   */
  datatype Status = Waiting | Running | Succeeded | Failed | Spoiled

  datatype Task =
    | StageTask(pos: nat)
    | ProvisionTask               // NetBird provisioning
    | ReadyTask(sandbox: nat)     // allocation finalizer: marks that sandbox as ready
    | DeleteUnitTask              // cleanup finalizer

  /** A queue job; its number is its index in `Chain.jobs`.  `grouped`: the stage handler carries a request group. */
  datatype Job = Job(task: Task, deps: set<nat>, status: Status, deleted: bool, grouped: bool)

  datatype Sandbox = Sandbox(id: nat, ready: bool)

  /** What a stage handler tells its request group. */
  datatype Report = FailReport | EndReport

  /**
   `rows` is empty until the worker has created the three stage rows.  `handlers` are the failed
   jobs whose exception handler has not run yet.  `nextSandbox` is an id no sandbox has had.
   */
  datatype Chain = Chain(rows: seq<Row>, jobs: seq<Job>, handlers: set<nat>,
                         sandbox: Option<Sandbox>, nextSandbox: nat, reports: seq<Report>)

  const EMPTY := Chain([], [], {}, None, 0, [])

  /** How cancelling one stage goes: `Clean`, or an exception before or after its job was deleted. */
  datatype CancelOutcome = Clean | RaisesBeforeDelete | RaisesAfterDelete

  datatype Action =
    | Allocate(netbird: bool, grouped: bool)
    | StartJob(job: nat)
    | EndJob(job: nat, ok: bool)
    | EndUncleaned(job: nat)      // the user stage goes well and says so, but removing its container raises
    | HandleFailure(job: nat, plan: seq<CancelOutcome>)
    | Cancel(plan: seq<CancelOutcome>)
    | Restart(netbird: bool)
    | DropSandbox
    | CreateCleanup

  // ---- Enqueuing ----

  function DepsOn(job: Option<nat>): set<nat> {
    if job.Some? then {job.value} else {}
  }

  function StageDeps(pos: nat, prev: Option<nat>, extra: Option<nat>): set<nat> {
    DepsOn(prev) + if pos == LAST then DepsOn(extra) else {}
  }

  /** The enqueue loop: each stage job depends on the previous one, the last also on `extra`. */
  function EnqueueStages(rows: seq<Row>, jobs: seq<Job>, positions: seq<nat>, prev: Option<nat>,
                         extra: Option<nat>, grouped: bool): (r: (seq<Row>, seq<Job>, Option<nat>))
    requires forall i | 0 <= i < |positions| :: positions[i] < |rows|
    decreases |positions|
  {
    if positions == [] then
      (rows, jobs, prev)
    else
      var pos := positions[0];
      var job := Job(StageTask(pos), StageDeps(pos, prev, extra), Waiting, false, grouped);
      EnqueueStages(rows[pos := rows[pos].(job := Some(|jobs|))], jobs + [job],
                    positions[1..], Some(|jobs|), extra, grouped)
  }

  /** The provisioning job (when NetBird is configured), the stage jobs, then the finalizer. */
  function EnqueueRequest(c: Chain, positions: seq<nat>, final: Task, netbird: bool, grouped: bool): Chain
    requires forall i | 0 <= i < |positions| :: positions[i] < |c.rows|
  {
    var (jobs0, extra) := EnqueueProvision(c.jobs, netbird);
    var (rows, jobs, last) := EnqueueStages(c.rows, jobs0, positions, None, extra, grouped);
    c.(rows := rows, jobs := jobs + [Job(final, DepsOn(last), Waiting, false, false)])
  }

  function EnqueueProvision(jobs: seq<Job>, netbird: bool): (seq<Job>, Option<nat>) {
    if netbird then (jobs + [Job(ProvisionTask, {}, Waiting, false, false)], Some(|jobs|)) else (jobs, None)
  }

  // ---- Executing ----

  predicate CanStart(c: Chain, j: nat) {
    && j < |c.jobs|
    && c.jobs[j].status == Waiting
    && !c.jobs[j].deleted
    && forall d <- c.jobs[j].deps :: d < |c.jobs| && c.jobs[d].status == Succeeded
  }

  /** Whether the row that job `j` executes is still there, rather than replaced by a restart. */
  predicate Current(c: Chain, j: nat, pos: nat) {
    pos < |c.rows| && c.rows[pos].job == Some(j)
  }

  function SetStatus(c: Chain, j: nat, status: Status): Chain
    requires j < |c.jobs|
  {
    c.(jobs := c.jobs[j := c.jobs[j].(status := status)])
  }

  function AddReport(c: Chain, grouped: bool, report: Report): Chain {
    if grouped then c.(reports := c.reports + [report]) else c
  }

  /** The first save of `execute`: the row becomes the handler's own copy with `start` set. */
  function StartRow(j: nat): Row {
    Row(Some(j), true, false, false, false)
  }

  /** The last save of `execute`, again from the handler's own copy. */
  function EndRow(j: nat, ok: bool): Row {
    Row(Some(j), true, true, !ok, true)
  }

  function Start(c: Chain, j: nat): Chain
    requires CanStart(c, j)
  {
    var job := c.jobs[j];
    match job.task
    case ProvisionTask => SetStatus(c, j, Running)
    case ReadyTask(sandbox) => MarkReady(c, j, sandbox)
    case DeleteUnitTask => SetStatus(c, j, Succeeded)
    case StageTask(pos) =>
      if Current(c, j, pos) then
        SetStatus(c, j, Running).(rows := c.rows[pos := StartRow(j)])
      else
        // Saving a row that was replaced raises inside the try block.
        AddReport(SetStatus(c, j, Failed), job.grouped, FailReport).(handlers := c.handlers + {j})
  }

  /** `_mark_sandbox_as_ready`: a plain save, which re-inserts the row when no sandbox is there. */
  function MarkReady(c: Chain, j: nat, sandbox: nat): Chain
    requires j < |c.jobs|
  {
    if c.sandbox.None? || c.sandbox.value.id == sandbox then
      SetStatus(c, j, Succeeded).(sandbox := Some(Sandbox(sandbox, true)))
    else
      SetStatus(c, j, Failed).(handlers := c.handlers + {j})
  }

  predicate CanEnd(c: Chain, j: nat) {
    j < |c.jobs| && c.jobs[j].status == Running
  }

  function End(c: Chain, j: nat, ok: bool): Chain
    requires CanEnd(c, j)
  {
    var job := c.jobs[j];
    match job.task
    case StageTask(pos) =>
      var reported := if ok then AddReport(c, job.grouped && pos == LAST, EndReport)
                      else AddReport(c, job.grouped, FailReport);
      if Current(c, j, pos) then
        var done := SetStatus(reported, j, if ok then Succeeded else Failed);
        done.(rows := c.rows[pos := EndRow(j, ok)], handlers := if ok then c.handlers else c.handlers + {j})
      else
        // The save in the finally block raises.
        SetStatus(reported, j, if ok then Spoiled else Failed).(handlers := c.handlers + {j})
    // Provisioning catches every exception.
    case _ => SetStatus(c, j, Succeeded)
  }

  predicate CanEndUncleaned(c: Chain, j: nat) {
    CanEnd(c, j) && c.jobs[j].task == StageTask(LAST)
  }

  /** The container is removed behind the report, inside the try block. */
  function EndUncleanedStage(c: Chain, j: nat): Chain
    requires CanEndUncleaned(c, j)
  {
    End(AddReport(c, c.jobs[j].grouped, EndReport), j, false)
  }

  // ---- Cancelling ----

  predicate Finished(rows: seq<Row>) {
    forall r <- rows :: r.finished
  }

  function DeleteJob(jobs: seq<Job>, j: nat): seq<Job> {
    seq(|jobs|, i requires 0 <= i < |jobs| =>
      if i == j || j in jobs[i].deps then jobs[i].(deleted := true) else jobs[i])
  }

  function CancelRow(row: Row): Row {
    row.(failed := true, end := true, finished := true)
  }

  /** `StageHandler.cancel` on the row at `pos`. */
  function CancelStage(c: Chain, pos: nat, outcome: CancelOutcome): Chain
    requires pos < |c.rows|
  {
    if c.rows[pos].finished then c
    else
      var jobs := if outcome.RaisesBeforeDelete? || c.rows[pos].job.None? then c.jobs
                  else DeleteJob(c.jobs, c.rows[pos].job.value);
      c.(rows := c.rows[pos := CancelRow(c.rows[pos])], jobs := jobs)
  }

  predicate CancelRaises(c: Chain, pos: nat, outcome: CancelOutcome)
    requires pos < |c.rows|
  {
    !c.rows[pos].finished && !outcome.Clean?
  }

  /** The cancel loop over positions `n - 1` down to `0`; an exception ends it early. */
  function CancelFrom(c: Chain, n: nat, plan: seq<CancelOutcome>): (r: Chain)
    requires n <= |c.rows| && n <= |plan|
    decreases n
  {
    if n == 0 then c
    else
      var c' := CancelStage(c, n - 1, plan[n - 1]);
      if CancelRaises(c, n - 1, plan[n - 1]) then c' else CancelFrom(c', n - 1, plan)
  }

  function CancelRequest(c: Chain, plan: seq<CancelOutcome>): Chain
    requires |c.rows| <= |plan|
  {
    if Finished(c.rows) then c else CancelFrom(c, |c.rows|, plan)
  }

  // ---- Restarting ----

  /**
   The rows and the rebuilt positions of `_restart_stage_handlers`.  The second test reads the
   stack row again, which is the fresh row when the first test replaced it.
   */
  function RestartRows(rows: seq<Row>): (seq<Row>, seq<nat>)
    requires |rows| == 3
  {
    var rows1 := if rows[0].failed then rows[0 := FRESH_ROW] else rows;
    var rebuilt1 := if rows[0].failed then [0] else [];
    var networking := rows1[0].failed || rows1[1].failed;
    var rows2 := if networking then rows1[1 := FRESH_ROW] else rows1;
    var rebuilt2 := if networking then rebuilt1 + [1] else rebuilt1;
    (rows2[2 := FRESH_ROW], rebuilt2 + [2])
  }

  predicate RestartAccepted(rows: seq<Row>) {
    |rows| == 3 && Finished(rows) && rows[2].failed
  }

  /** `_create_restart_jobs`: the sandbox is replaced before the request is validated. */
  function RestartRequest(c: Chain, netbird: bool): Chain {
    if c.sandbox.None? then c
    else
      var sandbox := c.nextSandbox;
      var replaced := c.(sandbox := Some(Sandbox(sandbox, false)), nextSandbox := sandbox + 1);
      if !RestartAccepted(c.rows) then replaced
      else
        var (rows, positions) := RestartRows(c.rows);
        EnqueueRequest(replaced.(rows := rows), positions, ReadyTask(sandbox), netbird, false)
  }

  // ---- Steps and runs ----

  predicate Enabled(c: Chain, a: Action) {
    match a
    case Allocate(_, _) => c == EMPTY
    case StartJob(j) => CanStart(c, j)
    case EndJob(j, _) => CanEnd(c, j)
    case EndUncleaned(j) => CanEndUncleaned(c, j)
    case HandleFailure(j, plan) => j in c.handlers && |plan| == 3 >= |c.rows|
    case Cancel(plan) => |plan| == 3 >= |c.rows|
    case Restart(_) => true
    case DropSandbox => true
    case CreateCleanup => true
  }

  const FRESH_ROWS := [FRESH_ROW, FRESH_ROW, FRESH_ROW]

  function AllocateUnit(netbird: bool, grouped: bool): Chain {
    var c := EMPTY.(rows := FRESH_ROWS, sandbox := Some(Sandbox(0, false)), nextSandbox := 1);
    EnqueueRequest(c, [0, 1, 2], ReadyTask(0), netbird, grouped)
  }

  /** `request_exception_handler`: the failed job leads to its request through the row that records it. */
  function HandleFailed(c: Chain, j: nat, plan: seq<CancelOutcome>): Chain
    requires |c.rows| <= |plan|
  {
    var c' := c.(handlers := c.handlers - {j});
    if exists pos: nat | pos < |c.rows| :: Current(c, j, pos) then CancelRequest(c', plan) else c'
  }

  function Step(c: Chain, a: Action): Chain {
    if !Enabled(c, a) then c
    else
      match a
      case Allocate(netbird, grouped) => AllocateUnit(netbird, grouped)
      case StartJob(j) => Start(c, j)
      case EndJob(j, ok) => End(c, j, ok)
      case EndUncleaned(j) => EndUncleanedStage(c, j)
      case HandleFailure(j, plan) => HandleFailed(c, j, plan)
      case Cancel(plan) => CancelRequest(c, plan)
      case Restart(netbird) => RestartRequest(c, netbird)
      case DropSandbox => c.(sandbox := None)
      case CreateCleanup => EnqueueRequest(c.(rows := FRESH_ROWS), [0, 1, 2], DeleteUnitTask, false, false)
  }

  function Run(c: Chain, actions: seq<Action>): Chain {
    if actions == [] then c else Step(Run(c, actions[..|actions| - 1]), actions[|actions| - 1])
  }
}
