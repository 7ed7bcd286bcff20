/**
 Progress and termination of the request chain.  NetBird provisioning never raises, and cancelling
 a stage that is still queued does not raise.
 */
module ChainProgress {
  import opened Common
  import opened StageChain
  import opened ChainSafety

  /** Cancelling raises, if at all, for a stage that is running. */
  ghost predicate PlanOk(c: Chain, plan: seq<CancelOutcome>) {
    && |plan| == 3 >= |c.rows|
    && forall pos: nat | pos < |c.rows| && CancelRaises(c, pos, plan[pos]) ::
         c.rows[pos].job.Some? && c.rows[pos].job.value < |c.jobs| && c.jobs[c.rows[pos].job.value].status == Running
  }

  ghost predicate ActionOk(c: Chain, a: Action) {
    match a
    case HandleFailure(_, plan) => PlanOk(c, plan)
    case Cancel(plan) => PlanOk(c, plan)
    case _ => true
  }

  // ---- What runs keep ----

  ghost predicate ProvisionsOk(jobs: seq<Job>) {
    forall j | 0 <= j < |jobs| && jobs[j].task.ProvisionTask? ::
      jobs[j].deps == {} && !jobs[j].deleted && jobs[j].status !in {Failed, Spoiled}
  }

  /** The job of the row at `pos` waits only for the job of the row before it and for provisioning. */
  ghost predicate WaitsFor(rows: seq<Row>, jobs: seq<Job>, pos: nat)
  {
    && pos < |rows| && HasJob(rows[pos], jobs, pos)
    && forall d <- jobs[rows[pos].job.value].deps ::
      d < |jobs| && (jobs[d].task.ProvisionTask? || (pos > 0 && rows[pos - 1].job == Some(d)))
  }

  function JobAt(c: Chain, pos: nat): (j: nat)
    requires pos < |c.rows| && c.rows[pos].job.Some? && c.rows[pos].job.value < |c.jobs|
    ensures j < |c.jobs|
  {
    c.rows[pos].job.value
  }

  /** An unfinished row has a job that can still run, or a failure before it that is yet to be handled. */
  ghost predicate NotStuck(c: Chain, pos: nat)
    requires RowsOk(c.rows, c.jobs, 3) && pos < 3
  {
    assert RowOk(c.rows[pos], c.jobs, pos);
    && (!c.rows[pos].finished ==>
          !c.jobs[JobAt(c, pos)].deleted && c.jobs[JobAt(c, pos)].status in {Waiting, Running})
    && (!c.rows[pos].finished && pos > 0 ==>
          assert RowOk(c.rows[pos - 1], c.jobs, pos - 1);
          && (c.jobs[JobAt(c, pos - 1)].status == Failed ==> JobAt(c, pos - 1) in c.handlers)
          && (c.rows[pos - 1].finished ==> c.jobs[JobAt(c, pos - 1)].status in {Succeeded, Failed}))
  }

  ghost predicate ProgressInv(c: Chain) {
    && Inv(c)
    && ProvisionsOk(c.jobs)
    && (c.rows != [] ==>
          && (forall pos: nat | pos < 3 :: WaitsFor(c.rows, c.jobs, pos))
          && (forall pos: nat | pos < 3 :: NotStuck(c, pos)))
  }

  // ---- Some job can run ----

  predicate Unfinished(c: Chain) {
    !Finished(c.rows)
  }

  ghost predicate WorkerCanAct(c: Chain) {
    exists j: nat :: CanStart(c, j) || CanEnd(c, j) || j in c.handlers
  }

  lemma {:induction false} SomeJobCanRun(c: Chain)
    requires ProgressInv(c) && Unfinished(c)
    ensures WorkerCanAct(c)
  {
    var pos: nat := FirstUnfinished(c.rows);
    assert RowOk(c.rows[pos], c.jobs, pos) && NotStuck(c, pos) && WaitsFor(c.rows, c.jobs, pos);
    var j := JobAt(c, pos);
    if c.jobs[j].status == Running {
      assert CanEnd(c, j);
    } else if d: nat :| d in c.jobs[j].deps && c.jobs[d].status != Succeeded {
      if c.jobs[d].task.ProvisionTask? {
        assert CanStart(c, d) || CanEnd(c, d);
      } else {
        assert RowOk(c.rows[pos - 1], c.jobs, pos - 1) && d == JobAt(c, pos - 1);
        assert d in c.handlers;
      }
    } else {
      assert CanStart(c, j);
    }
  }

  function FirstUnfinished(rows: seq<Row>): (k: nat)
    requires !Finished(rows)
    ensures k < |rows| && !rows[k].finished && forall p: nat | p < k :: rows[p].finished
  {
    if rows[0].finished then
      assert rows == [rows[0]] + rows[1..];
      1 + FirstUnfinished(rows[1..])
    else 0
  }

  // ---- Preservation ----

  lemma {:induction false} CancelFinishesAll(c: Chain, n: nat, plan: seq<CancelOutcome>)
    requires Inv(c) && PlanOk(c, plan) && n <= |c.rows|
    requires forall p: nat | n <= p < |c.rows| :: c.rows[p].finished
    ensures Finished(CancelFrom(c, n, plan).rows)
    decreases n
  {
    hide JobsOk, RowOk, Linked;
    if n == 0 {
      assert Finished(c.rows);
    } else {
      var c' := CancelStage(c, n - 1, plan[n - 1]);
      CancelStageInv(c, n - 1, plan[n - 1]);
      if CancelRaises(c, n - 1, plan[n - 1]) {
        BeforeRunningIsFinished(c, n - 1);
      } else {
        CancelFinishesAll(c', n - 1, plan);
      }
    }
  }

  /** Every stage before a running one is finished. */
  lemma BeforeRunningIsFinished(c: Chain, pos: nat)
    requires Inv(c) && pos < |c.rows| && c.rows[pos].job.Some? && c.rows[pos].job.value < |c.jobs|
    requires c.jobs[JobAt(c, pos)].status == Running
    ensures forall p: nat | p < pos :: c.rows[p].finished
  {
    if pos > 0 {
      assert Linked(c.rows[pos - 1], c.rows[pos], c.jobs) && RowOk(c.rows[pos - 1], c.jobs, pos - 1);
      if pos > 1 {
        OkDownwards(c, pos - 1);
      }
    }
  }

  lemma CancelStageWaits(c: Chain, n: nat, outcome: CancelOutcome)
    requires Inv(c) && n < |c.rows|
    requires ProvisionsOk(c.jobs) && forall pos: nat | pos < 3 :: WaitsFor(c.rows, c.jobs, pos)
    ensures var c' := CancelStage(c, n, outcome);
            && Inv(c') && |c'.rows| == |c.rows|
            && ProvisionsOk(c'.jobs) && forall pos: nat | pos < 3 :: WaitsFor(c'.rows, c'.jobs, pos)
  {
    var c1 := CancelStage(c, n, outcome);
    CancelStageInv(c, n, outcome);
    assert RowOk(c.rows[n], c.jobs, n);
    forall pos: nat | pos < 3
      ensures WaitsFor(c1.rows, c1.jobs, pos)
    {
      assert WaitsFor(c.rows, c.jobs, pos) && RowOk(c.rows[pos], c.jobs, pos);
    }
  }

  lemma {:induction false} CancelKeepsWaits(c: Chain, n: nat, plan: seq<CancelOutcome>)
    requires Inv(c) && n <= |c.rows| && n <= |plan| && c.rows != []
    requires ProvisionsOk(c.jobs) && forall pos: nat | pos < 3 :: WaitsFor(c.rows, c.jobs, pos)
    ensures var c' := CancelFrom(c, n, plan);
            && Inv(c') && c'.rows != []
            && ProvisionsOk(c'.jobs) && forall pos: nat | pos < 3 :: WaitsFor(c'.rows, c'.jobs, pos)
    decreases n
  {
    if n > 0 {
      var c1 := CancelStage(c, n - 1, plan[n - 1]);
      CancelStageInv(c, n - 1, plan[n - 1]);
      CancelStageWaits(c, n - 1, plan[n - 1]);
      CancelKeepsWaits(c1, n - 1, plan);
    }
  }

  lemma CancelProgress(c: Chain, plan: seq<CancelOutcome>)
    requires Inv(c) && ProvisionsOk(c.jobs) && PlanOk(c, plan)
    requires c.rows != [] ==> forall pos: nat | pos < 3 :: WaitsFor(c.rows, c.jobs, pos)
    ensures ProgressInv(CancelRequest(c, plan)) && Finished(CancelRequest(c, plan).rows)
  {
    var c' := CancelRequest(c, plan);
    if Finished(c.rows) {
      assert forall pos: nat | pos < |c.rows| :: c.rows[pos] in c.rows;
    } else {
      CancelKeepsWaits(c, |c.rows|, plan);
      CancelFinishesAll(c, |c.rows|, plan);
      assert forall pos: nat | pos < |c'.rows| :: c'.rows[pos] in c'.rows;
    }
  }

  /** A stage job that still has its row changes status together with that row. */
  lemma RowStep(c: Chain, c': Chain, j: nat, pos: nat, row: Row, status: Status)
    requires ProgressInv(c) && Inv(c') && pos < |c.rows| && Current(c, j, pos) && j < |c.jobs|
    requires c.jobs[j].status in {Waiting, Running} && status != Waiting
    requires c'.rows == c.rows[pos := row] && c'.jobs == c.jobs[j := c.jobs[j].(status := status)]
    requires row.job == Some(j) && c.handlers <= c'.handlers
    requires !row.finished ==> status == Running && !c.jobs[j].deleted
    requires row.finished ==> status in {Succeeded, Failed}
    requires status == Failed ==> j in c'.handlers
    ensures ProgressInv(c')
  {
    assert RowOk(c.rows[pos], c.jobs, pos);
    forall p: nat | p < 3
      ensures WaitsFor(c'.rows, c'.jobs, p) && NotStuck(c', p)
    {
      assert RowOk(c.rows[p], c.jobs, p) && RowOk(c'.rows[p], c'.jobs, p);
      assert WaitsFor(c.rows, c.jobs, p) && NotStuck(c, p);
      if p > 0 {
        assert RowOk(c.rows[p - 1], c.jobs, p - 1) && RowOk(c'.rows[p - 1], c'.jobs, p - 1);
        if p == pos && !row.finished {
          assert Linked(c'.rows[p - 1], c'.rows[p], c'.jobs);
        }
      }
    }
  }

  /** A job without a row changes status. */
  lemma OtherStep(c: Chain, c': Chain, j: nat, status: Status)
    requires ProgressInv(c) && Inv(c') && j < |c.jobs|
    requires forall pos: nat | pos < |c.rows| :: c.rows[pos].job != Some(j)
    requires c'.rows == c.rows && c'.jobs == c.jobs[j := c.jobs[j].(status := status)]
    requires c.jobs[j].task.ProvisionTask? ==> status !in {Failed, Spoiled}
    requires c.handlers <= c'.handlers
    ensures ProgressInv(c')
  {
    if c.rows != [] {
      forall p: nat | p < 3
        ensures WaitsFor(c'.rows, c'.jobs, p) && NotStuck(c', p)
      {
        assert RowOk(c.rows[p], c.jobs, p) && WaitsFor(c.rows, c.jobs, p) && NotStuck(c, p);
        assert p > 0 ==> RowOk(c.rows[p - 1], c.jobs, p - 1);
      }
    }
  }

  lemma StartProgress(c: Chain, j: nat)
    requires ProgressInv(c) && CanStart(c, j)
    ensures ProgressInv(Start(c, j))
  {
    var c' := Start(c, j);
    assert Inv(c') by { StartInv(c, j); }
    var job := c.jobs[j];
    if job.task.StageTask? && Current(c, j, job.task.pos) {
      RowStep(c, c', j, job.task.pos, StartRow(j), Running);
    } else {
      NoRow(c, j);
      OtherStep(c, c', j, c'.jobs[j].status);
    }
  }

  lemma EndProgress(c: Chain, j: nat, ok: bool)
    requires ProgressInv(c) && CanEnd(c, j)
    ensures ProgressInv(End(c, j, ok))
  {
    var c' := End(c, j, ok);
    assert Inv(c') by { EndInv(c, j, ok); }
    var job := c.jobs[j];
    if job.task.StageTask? && Current(c, j, job.task.pos) {
      RowStep(c, c', j, job.task.pos, EndRow(j, ok), c'.jobs[j].status);
    } else {
      NoRow(c, j);
      OtherStep(c, c', j, c'.jobs[j].status);
    }
  }

  lemma EndUncleanedProgress(c: Chain, j: nat)
    requires ProgressInv(c) && CanEndUncleaned(c, j)
    ensures ProgressInv(EndUncleanedStage(c, j))
  {
    var c1 := AddReport(c, c.jobs[j].grouped, EndReport);
    SameRowsProgress(c, c1);
    EndProgress(c1, j, false);
  }

  lemma HandleProgress(c: Chain, j: nat, plan: seq<CancelOutcome>)
    requires ProgressInv(c) && PlanOk(c, plan)
    ensures ProgressInv(HandleFailed(c, j, plan))
  {
    var c1 := c.(handlers := c.handlers - {j});
    if exists pos: nat | pos < |c.rows| :: Current(c, j, pos) {
      assert forall pos: nat :: pos < |c.rows| ==> CancelRaises(c1, pos, plan[pos]) == CancelRaises(c, pos, plan[pos]);
      CancelProgress(c1, plan);
    } else if c.rows != [] {
      forall p: nat | p < 3
        ensures NotStuck(c1, p)
      {
        assert NotStuck(c, p) && RowOk(c.rows[p], c.jobs, p);
        if p > 0 {
          assert RowOk(c.rows[p - 1], c.jobs, p - 1);
          assert !Current(c, j, p - 1);
        }
      }
    }
  }

  /** What a rebuilt row waits for. */
  lemma {:induction false} NewRowWaits(c: Chain, k: nat, final: Task, netbird: bool, grouped: bool, p: nat)
    requires k <= p < 3 == |c.rows|
    ensures var c' := EnqueueRequest(c, Positions(k), final, netbird, grouped);
            var first := |c.jobs| + if netbird then 1 else 0;
            && |c'.jobs| == first + 4 - k && |c'.rows| == 3
            && c'.rows[p] == c.rows[p].(job := Some(first + p - k))
            && (p > k ==> c'.rows[p - 1].job == Some(first + p - k - 1))
            && c'.jobs[first + p - k].status == Waiting && !c'.jobs[first + p - k].deleted
            && c'.jobs[first + p - k].task == StageTask(p)
            && c'.jobs[|c'.jobs| - 1].task == final
            && (netbird ==> c'.jobs[|c.jobs|] == Job(ProvisionTask, {}, Waiting, false, false))
            && c'.jobs[first + p - k].deps
               == (if p > k then {first + p - k - 1} else {}) + (if p == 2 && netbird then {|c.jobs|} else {})
  {
    EnqueueStagesRows(c, k, final, netbird, grouped);
    EnqueueShape(c, Positions(k), final, netbird, grouped);
    var first := |c.jobs| + if netbird then 1 else 0;
    var j := first + p - k;
    assert EnqueueRequest(c, Positions(k), final, netbird, grouped).jobs[j]
        == StageJob(Positions(k), j - first, first, None, if netbird then Some(|c.jobs|) else None, grouped);
  }

  lemma NewProvisionsOk(c: Chain, k: nat, final: Task, netbird: bool, grouped: bool)
    requires k < 3 == |c.rows| && !final.ProvisionTask? && ProvisionsOk(c.jobs)
    ensures ProvisionsOk(EnqueueRequest(c, Positions(k), final, netbird, grouped).jobs)
  {
    EnqueueShape(c, Positions(k), final, netbird, grouped);
    var c' := EnqueueRequest(c, Positions(k), final, netbird, grouped);
    assert forall j: nat | j < |c.jobs| :: c'.jobs[j] == c'.jobs[..|c.jobs|][j];
  }

  lemma EnqueueProgress(c: Chain, k: nat, final: Task, netbird: bool, grouped: bool)
    requires k < 3 && !final.StageTask? && !final.ProvisionTask?
    requires JobsOk(c.jobs) && RowsOk(c.rows, c.jobs, k) && ProvisionsOk(c.jobs)
    requires k > 0 ==> Ok(c.rows[k - 1])
    requires forall p: nat | p < k :: c.rows[p].finished && WaitsFor(c.rows, c.jobs, p)
    ensures ProgressInv(EnqueueRequest(c, Positions(k), final, netbird, grouped))
  {
    var c' := EnqueueRequest(c, Positions(k), final, netbird, grouped);
    EnqueueRequestInv(c, k, final, netbird, grouped);
    NewProvisionsOk(c, k, final, netbird, grouped);
    forall p: nat | p < 3
      ensures WaitsFor(c'.rows, c'.jobs, p) && NotStuck(c', p)
    {
      assert RowOk(c'.rows[p], c'.jobs, p);
      if p < k {
        OldRowWaits(c, c', k, p);
      } else {
        NewRowWaitsFor(c, k, final, netbird, grouped, p);
        NewRowNotStuck(c, k, final, netbird, grouped, p);
      }
    }
  }

  lemma NewRowWaitsFor(c: Chain, k: nat, final: Task, netbird: bool, grouped: bool, p: nat)
    requires k <= p < 3 && !final.StageTask?
    requires JobsOk(c.jobs) && RowsOk(c.rows, c.jobs, k)
    requires k > 0 ==> Ok(c.rows[k - 1])
    ensures var c' := EnqueueRequest(c, Positions(k), final, netbird, grouped);
            RowsOk(c'.rows, c'.jobs, 3) && WaitsFor(c'.rows, c'.jobs, p)
  {
    EnqueueRequestInv(c, k, final, netbird, grouped);
    NewRowWaits(c, k, final, netbird, grouped, p);
    hide EnqueueRequest, Positions, JobsOk;
  }

  /** A queued row behind a queued one, or behind one that went well. */
  lemma QueuedNotStuck(c: Chain, p: nat, j: nat)
    requires RowsOk(c.rows, c.jobs, 3) && p < 3 && j < |c.jobs|
    requires c.rows[p].job == Some(j) && c.jobs[j].status == Waiting && !c.jobs[j].deleted
    requires p > 0 && !Ok(c.rows[p - 1]) ==>
               && !c.rows[p - 1].finished
               && c.rows[p - 1].job.Some? && c.rows[p - 1].job.value < |c.jobs|
               && c.jobs[c.rows[p - 1].job.value].status == Waiting
    ensures NotStuck(c, p)
  {
    assert RowOk(c.rows[p], c.jobs, p);
    assert p > 0 ==> RowOk(c.rows[p - 1], c.jobs, p - 1);
  }

  lemma NewRowNotStuck(c: Chain, k: nat, final: Task, netbird: bool, grouped: bool, p: nat)
    requires k <= p < 3 && !final.StageTask?
    requires JobsOk(c.jobs) && RowsOk(c.rows, c.jobs, k)
    requires k > 0 ==> Ok(c.rows[k - 1])
    ensures var c' := EnqueueRequest(c, Positions(k), final, netbird, grouped);
            RowsOk(c'.rows, c'.jobs, 3) && NotStuck(c', p)
  {
    var c' := EnqueueRequest(c, Positions(k), final, netbird, grouped);
    EnqueueRequestInv(c, k, final, netbird, grouped);
    NewRowWaits(c, k, final, netbird, grouped, p);
    assert p > k ==> c.rows[p - 1] == FRESH_ROW;
    assert RowsOk(c'.rows, c'.jobs, 3);
    hide Inv, RowsOk, JobsOk, NotStuck, EnqueueRequest, Positions;
    if p == k {
      assert p > 0 ==> c'.rows[p - 1] == c'.rows[..k][p - 1] == c.rows[p - 1];
    } else {
      NewRowWaits(c, k, final, netbird, grouped, p - 1);
    }
    QueuedNotStuck(c', p, c'.rows[p].job.value);
  }

  lemma OldRowWaits(c: Chain, c': Chain, k: nat, p: nat)
    requires p < k < 3 && RowsOk(c.rows, c.jobs, k) && RowsOk(c'.rows, c'.jobs, 3)
    requires c'.rows[..k] == c.rows[..k] && |c.jobs| <= |c'.jobs| && c'.jobs[..|c.jobs|] == c.jobs
    requires c.rows[p].finished && WaitsFor(c.rows, c.jobs, p)
    ensures WaitsFor(c'.rows, c'.jobs, p) && NotStuck(c', p)
  {
    assert RowOk(c.rows[p], c.jobs, p);
    assert c'.rows[p] == c'.rows[..k][p] == c.rows[p];
    assert p > 0 ==> c'.rows[p - 1] == c'.rows[..k][p - 1] == c.rows[p - 1];
    assert forall j: nat | j < |c.jobs| :: c'.jobs[j] == c'.jobs[..|c.jobs|][j];
  }

  /** The rebuilt rows are fresh and record the new stage jobs in order. */
  lemma EnqueueStagesRows(c: Chain, k: nat, final: Task, netbird: bool, grouped: bool)
    requires k < 3 == |c.rows|
    ensures var c' := EnqueueRequest(c, Positions(k), final, netbird, grouped);
            var first := |c.jobs| + if netbird then 1 else 0;
            forall p: nat | k <= p < 3 :: c'.rows[p] == c.rows[p].(job := Some(first + p - k))
  {
    var (jobs0, extra) := EnqueueProvision(c.jobs, netbird);
    RowsNumbered(c.rows, jobs0, k, None, extra, grouped);
  }

  lemma {:induction false} RowsNumbered(rows: seq<Row>, jobs: seq<Job>, k: nat, prev: Option<nat>,
                                        extra: Option<nat>, grouped: bool)
    requires k <= 3 == |rows|
    ensures var (rows', _, _) := EnqueueStages(rows, jobs, Positions(k), prev, extra, grouped);
            && |rows'| == 3
            && (forall p: nat | p < k :: rows'[p] == rows[p])
            && (forall p: nat | k <= p < 3 :: rows'[p] == rows[p].(job := Some(|jobs| + p - k)))
    decreases 3 - k
  {
    hide EnqueueStages;
    if k == 3 {
      NoneToEnqueue(rows, jobs, prev, extra, grouped);
    } else {
      var job := Job(StageTask(k), StageDeps(k, prev, extra), Waiting, false, grouped);
      EnqueueFirst(rows, jobs, k, prev, extra, grouped);
      RowsNumbered(rows[k := rows[k].(job := Some(|jobs|))], jobs + [job], k + 1, Some(|jobs|), extra, grouped);
    }
  }

  /** Another sandbox, as after a rejected restart, or another report keeps the invariant. */
  lemma SameRowsProgress(c: Chain, c': Chain)
    requires ProgressInv(c)
    requires c' == c.(sandbox := c'.sandbox, nextSandbox := c'.nextSandbox, reports := c'.reports)
    requires c.rows == [] ==> c' == EMPTY
    ensures ProgressInv(c')
  {
    if c.rows != [] {
      forall p: nat | p < 3
        ensures WaitsFor(c'.rows, c'.jobs, p) && NotStuck(c', p)
      {
        assert WaitsFor(c.rows, c.jobs, p) && NotStuck(c, p);
      }
    }
  }

  lemma KeptRowsWait(c: Chain)
    requires ProgressInv(c) && RestartAccepted(c.rows)
    ensures var rows := RestartRows(c.rows).0; var k := FirstFailed(c.rows);
            && k < 3 && RowsOk(rows, c.jobs, k)
            && forall p: nat | p < k :: rows[p].finished && WaitsFor(rows, c.jobs, p)
  {
    RestartKeepsPrefix(c);
    var k := FirstFailed(c.rows);
    var rows := RestartRows(c.rows).0;
    forall p: nat | p < k
      ensures rows[p].finished && WaitsFor(rows, c.jobs, p)
    {
      assert c.rows[p] in c.rows && rows[p] == c.rows[p];
      assert WaitsFor(c.rows, c.jobs, p);
      assert p > 0 ==> rows[p - 1] == c.rows[p - 1];
    }
  }

  lemma AcceptedRestartProgress(c: Chain, netbird: bool)
    requires ProgressInv(c) && c.sandbox.Some? && RestartAccepted(c.rows)
    ensures ProgressInv(RestartRequest(c, netbird))
  {
    hide EnqueueRequest, Positions;
    RestartKeepsPrefix(c);
    KeptRowsWait(c);
    var k := FirstFailed(c.rows);
    var rows := RestartRows(c.rows).0;
    var replaced := c.(sandbox := Some(Sandbox(c.nextSandbox, false)), nextSandbox := c.nextSandbox + 1, rows := rows);
    assert k > 0 ==> c.rows[k - 1] in c.rows && rows[k - 1] == c.rows[k - 1];
    EnqueueProgress(replaced, k, ReadyTask(c.nextSandbox), netbird, false);
  }

  lemma RestartProgress(c: Chain, netbird: bool)
    requires ProgressInv(c)
    ensures ProgressInv(RestartRequest(c, netbird))
  {
    if c.sandbox.Some? && RestartAccepted(c.rows) {
      AcceptedRestartProgress(c, netbird);
    } else {
      SameRowsProgress(c, RestartRequest(c, netbird));
    }
  }

  lemma {:induction false} StepProgress(c: Chain, a: Action)
    requires ProgressInv(c) && ActionOk(c, a)
    ensures ProgressInv(Step(c, a))
  {
    if Enabled(c, a) {
      match a
      case Allocate(netbird, grouped) =>
        assert Positions(0) == [0, 1, 2];
        EnqueueProgress(EMPTY.(rows := FRESH_ROWS, sandbox := Some(Sandbox(0, false)), nextSandbox := 1), 0,
                        ReadyTask(0), netbird, grouped);
      case StartJob(j) => StartProgress(c, j);
      case EndJob(j, ok) => EndProgress(c, j, ok);
      case EndUncleaned(j) => EndUncleanedProgress(c, j);
      case HandleFailure(j, plan) => HandleProgress(c, j, plan);
      case Cancel(plan) => CancelProgress(c, plan);
      case Restart(netbird) => RestartProgress(c, netbird);
      case DropSandbox =>
        SameRowsProgress(c, c.(sandbox := None));
      case CreateCleanup =>
        assert Positions(0) == [0, 1, 2];
        EnqueueProgress(c.(rows := FRESH_ROWS), 0, DeleteUnitTask, false, false);
    }
  }

  // ---- Termination ----

  function JobWeight(job: Job): nat {
    match job.status
    case Waiting => 3
    case Running => 2
    case _ => 0
  }

  function Weight(jobs: seq<Job>): nat {
    if jobs == [] then 0 else JobWeight(jobs[0]) + Weight(jobs[1..])
  }

  /** Work left to the queue: jobs to begin and to end, and failures to handle. */
  function Measure(c: Chain): nat {
    Weight(c.jobs) + |c.handlers|
  }

  lemma {:induction false} WeightUpdate(jobs: seq<Job>, j: nat, job: Job)
    requires j < |jobs|
    ensures Weight(jobs[j := job]) == Weight(jobs) - JobWeight(jobs[j]) + JobWeight(job)
  {
    var jobs' := jobs[j := job];
    if j == 0 {
      assert jobs'[1..] == jobs[1..];
    } else {
      assert jobs'[1..] == jobs[1..][j - 1 := job];
      WeightUpdate(jobs[1..], j - 1, job);
    }
  }

  lemma {:induction false} SameWeight(jobs: seq<Job>, jobs': seq<Job>)
    requires |jobs'| == |jobs| && forall j: nat | j < |jobs| :: jobs'[j].status == jobs[j].status
    ensures Weight(jobs') == Weight(jobs)
  {
    if jobs != [] {
      SameWeight(jobs[1..], jobs'[1..]);
    }
  }

  lemma {:induction false} CancelKeepsWeight(c: Chain, n: nat, plan: seq<CancelOutcome>)
    requires n <= |c.rows| && n <= |plan|
    ensures Measure(CancelFrom(c, n, plan)) == Measure(c)
    decreases n
  {
    if n > 0 {
      var c' := CancelStage(c, n - 1, plan[n - 1]);
      SameWeight(c.jobs, c'.jobs);
      CancelKeepsWeight(c', n - 1, plan);
    }
  }

  /** The actions of the queue workers. */
  predicate WorkerAction(a: Action) {
    a.StartJob? || a.EndJob? || a.EndUncleaned? || a.HandleFailure?
  }

  lemma StatusDecreases(c: Chain, c': Chain, j: nat, status: Status)
    requires j < |c.jobs| && c'.jobs == c.jobs[j := c.jobs[j].(status := status)]
    requires c'.handlers == c.handlers || (status in {Failed, Spoiled} && c'.handlers == c.handlers + {j})
    requires (c.jobs[j].status == Waiting && status != Waiting)
             || (c.jobs[j].status == Running && JobWeight(c'.jobs[j]) == 0)
    ensures Measure(c') < Measure(c)
  {
    WeightUpdate(c.jobs, j, c'.jobs[j]);
    assert |c.handlers + {j}| <= |c.handlers| + 1;
  }

  lemma StartDecreases(c: Chain, j: nat)
    requires CanStart(c, j)
    ensures Measure(Start(c, j)) < Measure(c)
  {
    StatusDecreases(c, Start(c, j), j, Start(c, j).jobs[j].status);
  }

  lemma EndDecreases(c: Chain, j: nat, ok: bool)
    requires CanEnd(c, j)
    ensures Measure(End(c, j, ok)) < Measure(c)
  {
    StatusDecreases(c, End(c, j, ok), j, End(c, j, ok).jobs[j].status);
  }

  lemma EndUncleanedDecreases(c: Chain, j: nat)
    requires CanEndUncleaned(c, j)
    ensures Measure(EndUncleanedStage(c, j)) < Measure(c)
  {
    EndDecreases(AddReport(c, c.jobs[j].grouped, EndReport), j, false);
  }

  lemma HandleDecreases(c: Chain, j: nat, plan: seq<CancelOutcome>)
    requires j in c.handlers && |c.rows| <= |plan|
    ensures Measure(HandleFailed(c, j, plan)) < Measure(c)
  {
    var c1 := c.(handlers := c.handlers - {j});
    assert Measure(c1) < Measure(c);
    CancelKeepsWeight(c1, |c.rows|, plan);
    hide Measure;
  }

  lemma {:induction false} WorkersDecrease(c: Chain, a: Action)
    requires WorkerAction(a) && Enabled(c, a)
    ensures Measure(Step(c, a)) < Measure(c)
  {
    hide Start, End, EndUncleanedStage, Measure, HandleFailed;
    match a
    case StartJob(j) => StartDecreases(c, j);
    case EndJob(j, ok) => EndDecreases(c, j, ok);
    case EndUncleaned(j) => EndUncleanedDecreases(c, j);
    case HandleFailure(j, plan) => HandleDecreases(c, j, plan);
  }

  /** Every action is enabled and allowed when its turn comes. */
  ghost predicate ProperRun(c: Chain, actions: seq<Action>) {
    actions == [] ||
    (var n := |actions| - 1;
     ProperRun(c, actions[..n]) && Enabled(Run(c, actions[..n]), actions[n])
     && ActionOk(Run(c, actions[..n]), actions[n]))
  }

  lemma {:induction false} RunProgress(c: Chain, actions: seq<Action>)
    requires ProgressInv(c) && ProperRun(c, actions)
    ensures ProgressInv(Run(c, actions))
  {
    if actions != [] {
      RunProgress(c, actions[..|actions| - 1]);
      StepProgress(Run(c, actions[..|actions| - 1]), actions[|actions| - 1]);
    }
  }

  lemma {:induction false} WorkerRunsAreBounded(c: Chain, actions: seq<Action>)
    ensures ProperRun(c, actions) && (forall a <- actions :: WorkerAction(a)) ==>
              |actions| + Measure(Run(c, actions)) <= Measure(c)
  {
    if actions != [] && ProperRun(c, actions) && forall a <- actions :: WorkerAction(a) {
      var n := |actions| - 1;
      WorkerRunsAreBounded(c, actions[..n]);
      WorkersDecrease(Run(c, actions[..n]), actions[n]);
    }
  }

  /**
   From any state that a run of the request reaches, the workers take at most `Measure` more
   actions, and when they can take no more every stage is finished.
   */
  lemma {:induction false} AllStagesFinish(history: seq<Action>, work: seq<Action>)
    requires ProperRun(EMPTY, history)
    requires ProperRun(Run(EMPTY, history), work) && forall a <- work :: WorkerAction(a)
    ensures |work| <= Measure(Run(EMPTY, history))
    ensures var end := Run(Run(EMPTY, history), work);
            !WorkerCanAct(end) ==> Finished(end.rows)
  {
    var c := Run(EMPTY, history);
    RunProgress(EMPTY, history);
    RunProgress(c, work);
    WorkerRunsAreBounded(c, work);
    if !Finished(Run(c, work).rows) {
      SomeJobCanRun(Run(c, work));
    }
  }
}
