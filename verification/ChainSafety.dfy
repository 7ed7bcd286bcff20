/**
 Safety of the request chain over every run: rows and jobs agree, failures are closed towards the end of
 the chain, and a restart rebuilds exactly the failed stages.
 */
module ChainSafety {
  import opened Common
  import opened StageChain

  // ---- What every run keeps ----

  /** Jobs depend on earlier jobs only, and a job that has begun had all its dependencies succeed. */
  ghost predicate JobsOk(jobs: seq<Job>) {
    && (forall j, d | 0 <= j < |jobs| && d in jobs[j].deps :: d < j)
    && (forall j | 0 <= j < |jobs| && jobs[j].task.StageTask? :: jobs[j].task.pos <= LAST)
    && (forall j, d | 0 <= j < |jobs| && d in jobs[j].deps && jobs[j].status != Waiting ::
          d < |jobs| && jobs[d].status == Succeeded)
  }

  ghost predicate HasJob(row: Row, jobs: seq<Job>, pos: nat) {
    row.job.Some? && row.job.value < |jobs| && jobs[row.job.value].task == StageTask(pos)
  }

  ghost predicate JobSucceeded(row: Row, jobs: seq<Job>) {
    row.job.Some? && row.job.value < |jobs| && jobs[row.job.value].status == Succeeded
  }

  /** A row counts as done well exactly when its job succeeded. */
  ghost predicate RowOk(row: Row, jobs: seq<Job>, pos: nat) {
    HasJob(row, jobs, pos) && (Ok(row) <==> JobSucceeded(row, jobs))
  }

  /** The job of `row` waits for the job of the row before it, unless that job has succeeded already. */
  ghost predicate Linked(before: Row, row: Row, jobs: seq<Job>)
    requires row.job.Some? && row.job.value < |jobs|
  {
    JobSucceeded(before, jobs) || (before.job.Some? && before.job.value in jobs[row.job.value].deps)
  }

  /** The first `n` rows agree with their jobs; the other rows are not enqueued yet. */
  ghost predicate RowsOk(rows: seq<Row>, jobs: seq<Job>, n: nat) {
    && |rows| == 3 && n <= 3
    && (forall pos: nat | pos < n :: RowOk(rows[pos], jobs, pos))
    && (forall pos: nat | 0 < pos < n :: Linked(rows[pos - 1], rows[pos], jobs))
    && (forall pos: nat | n <= pos < 3 :: rows[pos] == FRESH_ROW)
  }

  ghost predicate Inv(c: Chain) {
    && JobsOk(c.jobs)
    && (c.rows == [] ==> c == EMPTY)
    && (c.rows != [] ==> RowsOk(c.rows, c.jobs, 3))
  }

  // ---- Enqueuing ----

  /** The job that executes `positions[i]`, when the stage jobs get the numbers from `first` on. */
  function StageJob(positions: seq<nat>, i: nat, first: nat, prev: Option<nat>, extra: Option<nat>, grouped: bool): Job
    requires i < |positions|
  {
    var before := if i == 0 then prev else Some(first + i - 1);
    Job(StageTask(positions[i]), StageDeps(positions[i], before, extra), Waiting, false, grouped)
  }

  /** For any handler list: one job per handler, in order, each after the one before it. */
  lemma {:induction false} EnqueueStagesShape(rows: seq<Row>, jobs: seq<Job>, positions: seq<nat>, prev: Option<nat>,
                                              extra: Option<nat>, grouped: bool)
    requires forall i | 0 <= i < |positions| :: positions[i] < |rows|
    ensures var (rows', jobs', last) := EnqueueStages(rows, jobs, positions, prev, extra, grouped);
            && jobs' == jobs + seq(|positions|, i requires 0 <= i < |positions| =>
                                     StageJob(positions, i, |jobs|, prev, extra, grouped))
            && last == (if positions == [] then prev else Some(|jobs'| - 1))
            && |rows'| == |rows|
    decreases |positions|
  {
    if positions != [] {
      var pos := positions[0];
      var job := Job(StageTask(pos), StageDeps(pos, prev, extra), Waiting, false, grouped);
      EnqueueStagesShape(rows[pos := rows[pos].(job := Some(|jobs|))], jobs + [job], positions[1..],
                         Some(|jobs|), extra, grouped);
    }
  }

  /**
   The schedule of a request: provisioning first (when configured), then the stages in handler
   order, then the finalizer, which waits for the last stage.
   */
  lemma {:induction false} EnqueueShape(c: Chain, positions: seq<nat>, final: Task, netbird: bool, grouped: bool)
    requires forall i | 0 <= i < |positions| :: positions[i] < |c.rows|
    ensures var c' := EnqueueRequest(c, positions, final, netbird, grouped);
            var first := |c.jobs| + if netbird then 1 else 0;
            var extra := if netbird then Some(|c.jobs|) else None;
            && |c'.jobs| == first + |positions| + 1
            && c'.jobs[..|c.jobs|] == c.jobs
            && (netbird ==> c'.jobs[|c.jobs|] == Job(ProvisionTask, {}, Waiting, false, false))
            && (forall j: nat | first <= j < first + |positions| ::
                  c'.jobs[j] == StageJob(positions, j - first, first, None, extra, grouped))
            && c'.jobs[|c'.jobs| - 1]
               == Job(final, if positions == [] then {} else {|c'.jobs| - 2}, Waiting, false, false)
  {
    var (jobs0, extra) := EnqueueProvision(c.jobs, netbird);
    EnqueueStagesShape(c.rows, jobs0, positions, None, extra, grouped);
  }

  function Positions(k: nat): (positions: seq<nat>)
    requires k <= 3
    ensures |positions| == 3 - k && forall i | 0 <= i < |positions| :: positions[i] < 3
  {
    [0, 1, 2][k..]
  }

  lemma EnqueueFirst(rows: seq<Row>, jobs: seq<Job>, k: nat, prev: Option<nat>, extra: Option<nat>, grouped: bool)
    requires k < 3 == |rows|
    ensures var job := Job(StageTask(k), StageDeps(k, prev, extra), Waiting, false, grouped);
            EnqueueStages(rows, jobs, Positions(k), prev, extra, grouped)
            == EnqueueStages(rows[k := rows[k].(job := Some(|jobs|))], jobs + [job], Positions(k + 1), Some(|jobs|),
                             extra, grouped)
  {
    assert Positions(k)[0] == k && Positions(k)[1..] == Positions(k + 1);
  }

  lemma NoneToEnqueue(rows: seq<Row>, jobs: seq<Job>, prev: Option<nat>, extra: Option<nat>, grouped: bool)
    requires |rows| == 3
    ensures EnqueueStages(rows, jobs, Positions(3), prev, extra, grouped) == (rows, jobs, prev)
  {
    assert Positions(3) == [];
  }

  lemma FirstEnqueued(rows: seq<Row>, jobs: seq<Job>, k: nat, prev: Option<nat>, extra: Option<nat>, grouped: bool)
    requires k < 3 && JobsOk(jobs) && RowsOk(rows, jobs, k)
    requires prev.Some? ==> prev.value < |jobs|
    requires extra.Some? ==> extra.value < |jobs|
    requires k > 0 ==> JobSucceeded(rows[k - 1], jobs) || (prev.Some? && rows[k - 1].job == prev)
    ensures var job := Job(StageTask(k), StageDeps(k, prev, extra), Waiting, false, grouped);
            JobsOk(jobs + [job]) && RowsOk(rows[k := rows[k].(job := Some(|jobs|))], jobs + [job], k + 1)
  {
    var job := Job(StageTask(k), StageDeps(k, prev, extra), Waiting, false, grouped);
    assert RowOk(rows[k].(job := Some(|jobs|)), jobs + [job], k);
  }

  lemma {:induction false} EnqueueStagesInv(rows: seq<Row>, jobs: seq<Job>, k: nat, prev: Option<nat>,
                                            extra: Option<nat>, grouped: bool)
    requires k <= 3
    requires JobsOk(jobs) && RowsOk(rows, jobs, k)
    requires prev.Some? ==> prev.value < |jobs|
    requires extra.Some? ==> extra.value < |jobs|
    requires k > 0 ==> JobSucceeded(rows[k - 1], jobs) || (prev.Some? && rows[k - 1].job == prev)
    ensures var (rows', jobs', last) := EnqueueStages(rows, jobs, Positions(k), prev, extra, grouped);
            && JobsOk(jobs') && RowsOk(rows', jobs', 3)
            && |jobs| <= |jobs'| && jobs'[..|jobs|] == jobs
            && rows'[..k] == rows[..k]
            && (k < 3 ==> last.Some? && last.value < |jobs'| && rows'[2].job == last)
    decreases 3 - k
  {
    hide JobsOk, RowOk, Linked;
    if k < 3 {
      EnqueueFirst(rows, jobs, k, prev, extra, grouped);
      FirstEnqueued(rows, jobs, k, prev, extra, grouped);
      hide EnqueueStages;
      var job := Job(StageTask(k), StageDeps(k, prev, extra), Waiting, false, grouped);
      var rows1, jobs1 := rows[k := rows[k].(job := Some(|jobs|))], jobs + [job];
      EnqueueStagesInv(rows1, jobs1, k + 1, Some(|jobs|), extra, grouped);
      ghost var (rows', jobs', last) := EnqueueStages(rows1, jobs1, Positions(k + 1), Some(|jobs|), extra, grouped);
      assert jobs'[..|jobs|] == jobs'[..|jobs1|][..|jobs|];
      assert rows'[..k] == rows'[..k + 1][..k];
      if k == 2 {
        NoneToEnqueue(rows1, jobs1, Some(|jobs|), extra, grouped);
      }
    } else {
      NoneToEnqueue(rows, jobs, prev, extra, grouped);
    }
  }

  lemma AppendJob(rows: seq<Row>, jobs: seq<Job>, n: nat, job: Job)
    requires JobsOk(jobs) && RowsOk(rows, jobs, n)
    requires job.status == Waiting && !job.task.StageTask?
    requires forall d <- job.deps :: d < |jobs|
    ensures JobsOk(jobs + [job]) && RowsOk(rows, jobs + [job], n)
  {
    forall p: nat | p < n
      ensures RowOk(rows[p], jobs + [job], p)
    {
      assert RowOk(rows[p], jobs, p);
    }
    forall p: nat | 0 < p < n
      ensures Linked(rows[p - 1], rows[p], jobs + [job])
    {
      assert Linked(rows[p - 1], rows[p], jobs);
    }
  }

  lemma EnqueueRequestInv(c: Chain, k: nat, final: Task, netbird: bool, grouped: bool)
    requires k < 3 && !final.StageTask?
    requires JobsOk(c.jobs) && RowsOk(c.rows, c.jobs, k)
    requires k > 0 ==> JobSucceeded(c.rows[k - 1], c.jobs)
    ensures var c' := EnqueueRequest(c, Positions(k), final, netbird, grouped);
            && Inv(c') && |c.jobs| < |c'.jobs| && c'.jobs[..|c.jobs|] == c.jobs
            && c'.rows[..k] == c.rows[..k]
            && c'.rows[2].job.Some? && c'.jobs[|c'.jobs| - 1].deps == {c'.rows[2].job.value}
            && c'.jobs[|c'.jobs| - 1].task == final
            && c' == c.(rows := c'.rows, jobs := c'.jobs)
  {
    hide JobsOk, RowOk, Linked, EnqueueStages;
    var provision := Job(ProvisionTask, {}, Waiting, false, false);
    var (jobs0, extra) := EnqueueProvision(c.jobs, netbird);
    if netbird {
      AppendJob(c.rows, c.jobs, k, provision);
    }
    assert jobs0[..|c.jobs|] == c.jobs;
    EnqueueStagesInv(c.rows, jobs0, k, None, extra, grouped);
    var (rows, jobs, last) := EnqueueStages(c.rows, jobs0, Positions(k), None, extra, grouped);
    assert jobs[..|c.jobs|] == jobs[..|jobs0|][..|c.jobs|];
    var finalizer := Job(final, DepsOn(last), Waiting, false, false);
    AppendJob(rows, jobs, 3, finalizer);
    assert (jobs + [finalizer])[..|c.jobs|] == jobs[..|c.jobs|];
  }

  // ---- Executing ----

  lemma JobsOkUpdate(jobs: seq<Job>, j: nat, status: Status)
    requires JobsOk(jobs) && j < |jobs| && jobs[j].status != Succeeded
    requires forall d <- jobs[j].deps :: d < |jobs| && jobs[d].status == Succeeded
    ensures JobsOk(jobs[j := jobs[j].(status := status)])
  {
  }

  /** A job's new status and the row it saves keep the rows in step with their jobs. */
  lemma RowsOkUpdate(rows: seq<Row>, jobs: seq<Job>, j: nat, status: Status, pos: nat, row: Row)
    requires JobsOk(jobs) && RowsOk(rows, jobs, 3)
    requires j < |jobs| && jobs[j].task == StageTask(pos) && jobs[j].status != Succeeded
    requires pos < 3 && rows[pos].job == Some(j) == row.job
    requires Ok(row) <==> status == Succeeded
    ensures RowsOk(rows[pos := row], jobs[j := jobs[j].(status := status)], 3)
  {
    var rows', jobs' := rows[pos := row], jobs[j := jobs[j].(status := status)];
    forall p: nat | p < 3
      ensures RowOk(rows'[p], jobs', p)
    {
      assert RowOk(rows[p], jobs, p);
    }
    forall p: nat | 0 < p < 3
      ensures Linked(rows'[p - 1], rows'[p], jobs')
    {
      assert Linked(rows[p - 1], rows[p], jobs);
    }
  }

  /** A job without a row leaves the rows in step with their jobs. */
  lemma RowsOkElsewhere(rows: seq<Row>, jobs: seq<Job>, j: nat, status: Status)
    requires JobsOk(jobs) && RowsOk(rows, jobs, 3)
    requires j < |jobs| && jobs[j].status != Succeeded
    requires forall pos: nat | pos < 3 :: rows[pos].job != Some(j)
    ensures RowsOk(rows, jobs[j := jobs[j].(status := status)], 3)
  {
    var jobs' := jobs[j := jobs[j].(status := status)];
    forall p: nat | p < 3
      ensures RowOk(rows[p], jobs', p)
    {
      assert RowOk(rows[p], jobs, p);
    }
    forall p: nat | 0 < p < 3
      ensures Linked(rows[p - 1], rows[p], jobs')
    {
      assert Linked(rows[p - 1], rows[p], jobs);
    }
  }

  /** The row of a stage job can only be the one at its own position. */
  lemma OnlyOwnRow(c: Chain, j: nat, pos: nat)
    requires Inv(c) && pos < |c.rows| && c.rows[pos].job == Some(j)
    ensures j < |c.jobs| && c.jobs[j].task == StageTask(pos)
  {
    assert RowOk(c.rows[pos], c.jobs, pos);
  }

  lemma StatusInv(c: Chain, j: nat, status: Status)
    requires Inv(c) && j < |c.jobs| && c.jobs[j].status != Succeeded
    requires forall d <- c.jobs[j].deps :: d < |c.jobs| && c.jobs[d].status == Succeeded
    requires forall pos: nat | pos < |c.rows| :: c.rows[pos].job != Some(j)
    ensures Inv(SetStatus(c, j, status))
  {
    JobsOkUpdate(c.jobs, j, status);
    RowsOkElsewhere(c.rows, c.jobs, j, status);
  }

  lemma NoRow(c: Chain, j: nat)
    requires Inv(c) && j < |c.jobs|
    requires c.jobs[j].task.StageTask? ==> !Current(c, j, c.jobs[j].task.pos)
    ensures forall pos: nat | pos < |c.rows| :: c.rows[pos].job != Some(j)
  {
    forall pos: nat | pos < |c.rows|
      ensures c.rows[pos].job != Some(j)
    {
      if c.rows[pos].job == Some(j) {
        OnlyOwnRow(c, j, pos);
      }
    }
  }

  lemma StartInv(c: Chain, j: nat)
    requires Inv(c) && CanStart(c, j)
    ensures Inv(Start(c, j))
  {
    var job := c.jobs[j];
    if job.task.StageTask? && Current(c, j, job.task.pos) {
      JobsOkUpdate(c.jobs, j, Running);
      RowsOkUpdate(c.rows, c.jobs, j, Running, job.task.pos, StartRow(j));
    } else {
      NoRow(c, j);
      StatusInv(c, j, Running);
      StatusInv(c, j, Failed);
      StatusInv(c, j, Succeeded);
    }
  }

  lemma EndInv(c: Chain, j: nat, ok: bool)
    requires Inv(c) && CanEnd(c, j)
    ensures Inv(End(c, j, ok))
  {
    var job := c.jobs[j];
    if job.task.StageTask? && Current(c, j, job.task.pos) {
      var status := if ok then Succeeded else Failed;
      JobsOkUpdate(c.jobs, j, status);
      RowsOkUpdate(c.rows, c.jobs, j, status, job.task.pos, EndRow(j, ok));
    } else {
      NoRow(c, j);
      StatusInv(c, j, Failed);
      StatusInv(c, j, Spoiled);
      StatusInv(c, j, Succeeded);
    }
  }

  /** Reports have no part in what runs keep. */
  lemma ReportKeepsInv(c: Chain, grouped: bool, report: Report)
    requires Inv(c) && c.rows != []
    ensures Inv(AddReport(c, grouped, report))
  {
  }

  lemma EndUncleanedInv(c: Chain, j: nat)
    requires Inv(c) && CanEndUncleaned(c, j)
    ensures Inv(EndUncleanedStage(c, j))
  {
    ReportKeepsInv(c, c.jobs[j].grouped, EndReport);
    EndInv(AddReport(c, c.jobs[j].grouped, EndReport), j, false);
  }

  // ---- Cancelling ----

  /** Jobs that differ only in whether they were deleted. */
  predicate SameButDeleted(jobs: seq<Job>, jobs': seq<Job>) {
    |jobs'| == |jobs| && forall j: nat | j < |jobs| :: jobs'[j] == jobs[j].(deleted := jobs'[j].deleted)
  }

  lemma DeletedJobsOk(jobs: seq<Job>, jobs': seq<Job>)
    requires JobsOk(jobs) && SameButDeleted(jobs, jobs')
    ensures JobsOk(jobs')
  {
  }

  lemma CancelledRowsOk(rows: seq<Row>, jobs: seq<Job>, jobs': seq<Job>, pos: nat)
    requires RowsOk(rows, jobs, 3) && SameButDeleted(jobs, jobs') && pos < 3
    ensures RowsOk(rows, jobs', 3)
    ensures !rows[pos].finished ==> RowsOk(rows[pos := CancelRow(rows[pos])], jobs', 3)
  {
    forall p: nat | p < 3
      ensures RowOk(rows[p], jobs', p)
      ensures p == pos && !rows[p].finished ==> RowOk(CancelRow(rows[p]), jobs', p)
    {
      assert RowOk(rows[p], jobs, p);
    }
    forall p: nat | 0 < p < 3
      ensures Linked(rows[p - 1], rows[p], jobs')
    {
      assert Linked(rows[p - 1], rows[p], jobs);
    }
  }

  lemma CancelStageInv(c: Chain, pos: nat, outcome: CancelOutcome)
    requires Inv(c) && pos < |c.rows|
    ensures Inv(CancelStage(c, pos, outcome))
  {
    var c' := CancelStage(c, pos, outcome);
    DeletedJobsOk(c.jobs, c'.jobs);
    CancelledRowsOk(c.rows, c.jobs, c'.jobs, pos);
  }

  lemma {:induction false} CancelFromInv(c: Chain, n: nat, plan: seq<CancelOutcome>)
    requires Inv(c) && n <= |c.rows| && n <= |plan|
    ensures Inv(CancelFrom(c, n, plan))
    ensures CancelFrom(c, n, plan).rows == [] <==> c.rows == []
    decreases n
  {
    if n > 0 {
      CancelStageInv(c, n - 1, plan[n - 1]);
      CancelFromInv(CancelStage(c, n - 1, plan[n - 1]), n - 1, plan);
    }
  }

  // ---- Failure closure ----

  /** Failed flags are closed towards the end of the chain. */
  predicate FailuresClosed(rows: seq<Row>) {
    forall p, q | 0 <= p <= q < |rows| :: rows[p].failed ==> rows[q].failed
  }

  /** A stage went well only after every stage before it did. */
  lemma OkDownwards(c: Chain, pos: nat)
    requires Inv(c) && 0 < pos < |c.rows| && Ok(c.rows[pos])
    ensures Ok(c.rows[pos - 1])
  {
    assert Linked(c.rows[pos - 1], c.rows[pos], c.jobs);
    assert RowOk(c.rows[pos - 1], c.jobs, pos - 1);
  }

  lemma {:induction false} FinishedIsClosed(c: Chain)
    requires Inv(c) && Finished(c.rows)
    ensures FailuresClosed(c.rows)
  {
    if c.rows != [] {
      assert forall pos: nat | pos < 3 :: c.rows[pos] in c.rows;
      if Ok(c.rows[2]) { OkDownwards(c, 2); }
      if Ok(c.rows[1]) { OkDownwards(c, 1); }
    }
  }

  // ---- Restarting ----

  /** The position of the first failed stage. */
  function FirstFailed(rows: seq<Row>): (k: nat)
    ensures k <= |rows|
    ensures forall p | 0 <= p < k :: !rows[p].failed
    ensures k < |rows| ==> rows[k].failed
  {
    if rows == [] then 0 else if rows[0].failed then 0 else 1 + FirstFailed(rows[1..])
  }

  /**
   An accepted restart rebuilds exactly the stages from the first failed one to the end, in chain
   order, and keeps the earlier rows, if and only if a failed stack stage comes with a failed
   networking stage.
   */
  lemma {:induction false} RestartRebuildsSuffixIff(rows: seq<Row>)
    requires RestartAccepted(rows)
    ensures var (rows', rebuilt) := RestartRows(rows);
            var k := FirstFailed(rows);
            (rebuilt == Positions(k) && rows' == rows[..k] + FRESH_ROWS[k..])
            <==> (rows[0].failed ==> rows[1].failed)
  {
    var (rows', rebuilt) := RestartRows(rows);
    var k := FirstFailed(rows);
    if rows[0].failed && !rows[1].failed {
      assert |rebuilt| == 2;
    }
  }

  lemma {:induction false} RestartKeepsPrefix(c: Chain)
    requires Inv(c) && RestartAccepted(c.rows)
    ensures var (rows', rebuilt) := RestartRows(c.rows);
            var k := FirstFailed(c.rows);
            && k < 3 && rebuilt == Positions(k) && rows' == c.rows[..k] + FRESH_ROWS[k..]
            && RowsOk(rows', c.jobs, k)
            && (k > 0 ==> JobSucceeded(rows'[k - 1], c.jobs))
  {
    FinishedIsClosed(c);
    RestartRebuildsSuffixIff(c.rows);
    var k := FirstFailed(c.rows);
    var (rows', _) := RestartRows(c.rows);
    forall pos: nat | pos < k
      ensures rows'[pos] == c.rows[pos] && RowOk(rows'[pos], c.jobs, pos) && JobSucceeded(rows'[pos], c.jobs)
    {
      assert c.rows[pos] in c.rows;
      assert RowOk(c.rows[pos], c.jobs, pos);
    }
  }

  lemma RestartInv(c: Chain, netbird: bool)
    requires Inv(c)
    ensures Inv(RestartRequest(c, netbird))
  {
    if c.sandbox.Some? && RestartAccepted(c.rows) {
      RestartKeepsPrefix(c);
      var (rows, positions) := RestartRows(c.rows);
      var replaced := c.(sandbox := Some(Sandbox(c.nextSandbox, false)), nextSandbox := c.nextSandbox + 1);
      EnqueueRequestInv(replaced.(rows := rows), FirstFailed(c.rows), ReadyTask(c.nextSandbox), netbird, false);
    }
  }

  lemma FreshRowsInv(c: Chain, final: Task, netbird: bool, grouped: bool)
    requires JobsOk(c.jobs) && c.rows == FRESH_ROWS && !final.StageTask?
    ensures Inv(EnqueueRequest(c, [0, 1, 2], final, netbird, grouped))
  {
    assert Positions(0) == [0, 1, 2];
    EnqueueRequestInv(c, 0, final, netbird, grouped);
  }

  // ---- Runs ----

  lemma {:induction false} StepInv(c: Chain, a: Action)
    requires Inv(c)
    ensures Inv(Step(c, a))
  {
    if Enabled(c, a) {
      match a
      case Allocate(netbird, grouped) =>
        var created := EMPTY.(rows := FRESH_ROWS, sandbox := Some(Sandbox(0, false)), nextSandbox := 1);
        FreshRowsInv(created, ReadyTask(0), netbird, grouped);
      case StartJob(j) => StartInv(c, j);
      case EndJob(j, ok) => EndInv(c, j, ok);
      case EndUncleaned(j) => EndUncleanedInv(c, j);
      case HandleFailure(j, plan) => CancelFromInv(c.(handlers := c.handlers - {j}), |c.rows|, plan);
      case Cancel(plan) => CancelFromInv(c, |c.rows|, plan);
      case Restart(netbird) => RestartInv(c, netbird);
      case DropSandbox =>
      case CreateCleanup => FreshRowsInv(c.(rows := FRESH_ROWS), DeleteUnitTask, false, false);
    }
  }

  lemma {:induction false} RunInv(actions: seq<Action>)
    ensures Inv(Run(EMPTY, actions))
  {
    if actions != [] {
      RunInv(actions[..|actions| - 1]);
      StepInv(Run(EMPTY, actions[..|actions| - 1]), actions[|actions| - 1]);
    }
  }

  /**
   After any run of an allocation or a cleanup request: once every stage is finished, every stage
   after a failed one is failed too.
   */
  lemma {:induction false} FailureClosure(actions: seq<Action>)
    ensures var c := Run(EMPTY, actions); Finished(c.rows) ==> FailuresClosed(c.rows)
  {
    RunInv(actions);
    if Finished(Run(EMPTY, actions).rows) {
      FinishedIsClosed(Run(EMPTY, actions));
    }
  }
}
