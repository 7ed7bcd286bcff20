/**
 Ready safety: over all runs of an allocation, a sandbox marked as ready has three finished stages
 and none of them failed.
 */
module ChainReady {
  import opened Common
  import opened StageChain
  import opened ChainSafety

  /** The actions of an allocation request. */
  predicate AllocationRun(actions: seq<Action>) {
    forall a <- actions :: !a.CreateCleanup?
  }

  predicate AllOk(rows: seq<Row>) {
    |rows| == 3 && Ok(rows[0]) && Ok(rows[1]) && Ok(rows[2])
  }

  /** A stage job that succeeded still has its row: a restart replaces rows of failed stages only. */
  ghost predicate SucceededIsCurrent(c: Chain) {
    forall j: nat | j < |c.jobs| && c.jobs[j].task.StageTask? && c.jobs[j].status == Succeeded ::
      Current(c, j, c.jobs[j].task.pos)
  }

  /** Every finalizer waits for a job of the user stage. */
  ghost predicate FinalizersWait(jobs: seq<Job>) {
    forall f | 0 <= f < |jobs| && jobs[f].task.ReadyTask? :: WaitsForUserStage(jobs, f)
  }

  ghost predicate WaitsForUserStage(jobs: seq<Job>, f: nat)
    requires f < |jobs|
  {
    exists u | u in jobs[f].deps :: u < |jobs| && jobs[u].task == StageTask(LAST)
  }

  predicate ReadyMeansOk(c: Chain) {
    c.sandbox.Some? && c.sandbox.value.ready ==> AllOk(c.rows)
  }

  ghost predicate ReadyInv(c: Chain) {
    Inv(c) && SucceededIsCurrent(c) && FinalizersWait(c.jobs) && ReadyMeansOk(c)
  }

  lemma AllOkIsSettled(c: Chain, j: nat, pos: nat)
    requires Inv(c) && AllOk(c.rows) && Current(c, j, pos)
    ensures j < |c.jobs| && c.jobs[j].status == Succeeded
  {
    assert RowOk(c.rows[pos], c.jobs, pos);
  }

  lemma SetStatusReady(c: Chain, j: nat, status: Status)
    requires ReadyInv(c) && j < |c.jobs| && c.jobs[j].status != Succeeded
    requires status != Succeeded || !c.jobs[j].task.StageTask?
    ensures SucceededIsCurrent(SetStatus(c, j, status)) && FinalizersWait(SetStatus(c, j, status).jobs)
  {
    var c' := SetStatus(c, j, status);
    forall f | 0 <= f < |c'.jobs| && c'.jobs[f].task.ReadyTask?
      ensures WaitsForUserStage(c'.jobs, f)
    {
      assert WaitsForUserStage(c.jobs, f);
    }
  }

  lemma {:induction false} FinalizerSeesAllOk(c: Chain, f: nat)
    requires ReadyInv(c) && CanStart(c, f) && c.jobs[f].task.ReadyTask?
    ensures AllOk(c.rows)
  {
    assert WaitsForUserStage(c.jobs, f);
    var u :| u in c.jobs[f].deps && u < |c.jobs| && c.jobs[u].task == StageTask(LAST);
    assert Current(c, u, LAST);
    assert RowOk(c.rows[2], c.jobs, 2);
    OkDownwards(c, 2);
    OkDownwards(c, 1);
  }

  lemma StartReady(c: Chain, j: nat)
    requires ReadyInv(c) && CanStart(c, j)
    ensures ReadyInv(Start(c, j))
  {
    StartInv(c, j);
    match c.jobs[j].task
    case ProvisionTask => SetStatusReady(c, j, Running);
    case DeleteUnitTask => SetStatusReady(c, j, Succeeded);
    case ReadyTask(_) =>
      SetStatusReady(c, j, Succeeded);
      SetStatusReady(c, j, Failed);
      FinalizerSeesAllOk(c, j);
      hide Inv;
    case StageTask(pos) => StartStageReady(c, j, pos);
  }

  lemma StartStageReady(c: Chain, j: nat, pos: nat)
    requires ReadyInv(c) && CanStart(c, j) && c.jobs[j].task == StageTask(pos)
    ensures SucceededIsCurrent(Start(c, j)) && FinalizersWait(Start(c, j).jobs) && ReadyMeansOk(Start(c, j))
  {
    SetStatusReady(c, j, Running);
    SetStatusReady(c, j, Failed);
    if Current(c, j, pos) && AllOk(c.rows) {
      AllOkIsSettled(c, j, pos);
    }
    hide Inv, FinalizersWait;
  }

  lemma EndReady(c: Chain, j: nat, ok: bool)
    requires ReadyInv(c) && CanEnd(c, j)
    ensures ReadyInv(End(c, j, ok))
  {
    hide JobsOk, RowOk, Linked;
    EndInv(c, j, ok);
    var job := c.jobs[j];
    SetStatusReady(c, j, Failed);
    SetStatusReady(c, j, Spoiled);
    if !job.task.StageTask? {
      SetStatusReady(c, j, Succeeded);
    } else if Current(c, j, job.task.pos) {
      if AllOk(c.rows) {
        AllOkIsSettled(c, j, job.task.pos);
      }
    }
  }

  lemma EndUncleanedReady(c: Chain, j: nat)
    requires ReadyInv(c) && CanEndUncleaned(c, j)
    ensures ReadyInv(EndUncleanedStage(c, j))
  {
    ReportKeepsInv(c, c.jobs[j].grouped, EndReport);
    EndReady(AddReport(c, c.jobs[j].grouped, EndReport), j, false);
  }

  lemma CancelStageReady(c: Chain, pos: nat, outcome: CancelOutcome)
    requires ReadyInv(c) && pos < |c.rows|
    ensures ReadyInv(CancelStage(c, pos, outcome))
  {
    CancelStageInv(c, pos, outcome);
    var c' := CancelStage(c, pos, outcome);
    forall f | 0 <= f < |c'.jobs| && c'.jobs[f].task.ReadyTask?
      ensures WaitsForUserStage(c'.jobs, f)
    {
      assert WaitsForUserStage(c.jobs, f);
    }
    forall j: nat | j < |c'.jobs| && c'.jobs[j].task.StageTask? && c'.jobs[j].status == Succeeded
      ensures Current(c', j, c'.jobs[j].task.pos)
    {
      assert Current(c, j, c.jobs[j].task.pos);
    }
  }

  lemma {:induction false} CancelFromReady(c: Chain, n: nat, plan: seq<CancelOutcome>)
    requires ReadyInv(c) && n <= |c.rows| && n <= |plan|
    ensures ReadyInv(CancelFrom(c, n, plan))
    decreases n
  {
    if n > 0 {
      CancelStageReady(c, n - 1, plan[n - 1]);
      CancelFromReady(CancelStage(c, n - 1, plan[n - 1]), n - 1, plan);
    }
  }

  lemma NewJobsWait(c: Chain, k: nat, sandbox: nat, netbird: bool, grouped: bool)
    requires k < 3 == |c.rows|
    ensures var c' := EnqueueRequest(c, Positions(k), ReadyTask(sandbox), netbird, grouped);
            && |c.jobs| < |c'.jobs|
            && (forall i: nat | i < |c.jobs| :: c'.jobs[i] == c.jobs[i])
            && (forall i: nat | |c.jobs| <= i < |c'.jobs| - 1 ::
                  c'.jobs[i].status == Waiting && !c'.jobs[i].task.ReadyTask?)
            && c'.jobs[|c'.jobs| - 1].status == Waiting
  {
    EnqueueShape(c, Positions(k), ReadyTask(sandbox), netbird, grouped);
    var c' := EnqueueRequest(c, Positions(k), ReadyTask(sandbox), netbird, grouped);
    var first := |c.jobs| + if netbird then 1 else 0;
    forall i: nat | i < |c.jobs|
      ensures c'.jobs[i] == c.jobs[i]
    {
      assert c'.jobs[i] == c'.jobs[..|c.jobs|][i];
    }
  }

  /** Enqueuing onto rows that kept the succeeded jobs' rows. */
  lemma EnqueueReady(c: Chain, k: nat, sandbox: nat, netbird: bool, grouped: bool)
    requires k < 3 && JobsOk(c.jobs) && RowsOk(c.rows, c.jobs, k)
    requires k > 0 ==> JobSucceeded(c.rows[k - 1], c.jobs)
    requires SucceededIsCurrent(c) && FinalizersWait(c.jobs)
    requires c.sandbox.Some? ==> !c.sandbox.value.ready
    ensures ReadyInv(EnqueueRequest(c, Positions(k), ReadyTask(sandbox), netbird, grouped))
  {
    var c' := EnqueueRequest(c, Positions(k), ReadyTask(sandbox), netbird, grouped);
    EnqueueRequestInv(c, k, ReadyTask(sandbox), netbird, grouped);
    NewJobsWait(c, k, sandbox, netbird, grouped);
    assert RowOk(c'.rows[2], c'.jobs, 2);
    hide EnqueueRequest, Positions, JobsOk, RowsOk;
    assert SucceededIsCurrent(c') by {
      forall j: nat | j < |c'.jobs| && c'.jobs[j].task.StageTask? && c'.jobs[j].status == Succeeded
        ensures Current(c', j, c'.jobs[j].task.pos)
      {
        var pos := c.jobs[j].task.pos;
        assert Current(c, j, pos);
        assert pos < k ==> c'.rows[pos] == c'.rows[..k][pos] == c.rows[pos];
      }
    }
    forall f | 0 <= f < |c'.jobs| && c'.jobs[f].task.ReadyTask?
      ensures WaitsForUserStage(c'.jobs, f)
    {
      if f < |c.jobs| {
        assert WaitsForUserStage(c.jobs, f);
      }
    }
  }

  lemma RestartReady(c: Chain, netbird: bool)
    requires ReadyInv(c)
    ensures ReadyInv(RestartRequest(c, netbird))
  {
    RestartInv(c, netbird);
    if c.sandbox.Some? && RestartAccepted(c.rows) {
      AcceptedReady(c, netbird);
    }
  }

  lemma AcceptedReady(c: Chain, netbird: bool)
    requires ReadyInv(c) && c.sandbox.Some? && RestartAccepted(c.rows)
    ensures ReadyInv(RestartRequest(c, netbird))
  {
    var k := FirstFailed(c.rows);
    var rows := RestartRows(c.rows).0;
    var replaced := c.(sandbox := Some(Sandbox(c.nextSandbox, false)), nextSandbox := c.nextSandbox + 1, rows := rows);
    RestartKeepsPrefix(c);
    SucceededStayCurrent(c, replaced);
    EnqueueReady(replaced, k, c.nextSandbox, netbird, false);
    hide Inv, ReadyInv, EnqueueRequest, RestartRows, Positions;
  }

  lemma SucceededStayCurrent(c: Chain, replaced: Chain)
    requires ReadyInv(c) && RestartAccepted(c.rows)
    requires replaced.rows == RestartRows(c.rows).0 && replaced.jobs == c.jobs
    ensures SucceededIsCurrent(replaced)
  {
    RestartKeepsPrefix(c);
    FinishedIsClosed(c);
    forall j: nat | j < |c.jobs| && c.jobs[j].task.StageTask? && c.jobs[j].status == Succeeded
      ensures Current(replaced, j, c.jobs[j].task.pos)
    {
      var pos := c.jobs[j].task.pos;
      assert Current(c, j, pos);
      assert RowOk(c.rows[pos], c.jobs, pos);
    }
  }

  lemma AllocateReady(netbird: bool, grouped: bool)
    ensures ReadyInv(AllocateUnit(netbird, grouped))
  {
    assert Positions(0) == [0, 1, 2];
    EnqueueReady(EMPTY.(rows := FRESH_ROWS, sandbox := Some(Sandbox(0, false)), nextSandbox := 1), 0, 0, netbird,
                 grouped);
  }

  lemma {:induction false} StepReady(c: Chain, a: Action)
    requires ReadyInv(c) && !a.CreateCleanup?
    ensures ReadyInv(Step(c, a))
  {
    if Enabled(c, a) {
      match a
      case Allocate(netbird, grouped) => AllocateReady(netbird, grouped);
      case StartJob(j) => StartReady(c, j);
      case EndJob(j, ok) => EndReady(c, j, ok);
      case EndUncleaned(j) => EndUncleanedReady(c, j);
      case HandleFailure(j, plan) => CancelFromReady(c.(handlers := c.handlers - {j}), |c.rows|, plan);
      case Cancel(plan) => CancelFromReady(c, |c.rows|, plan);
      case Restart(netbird) => RestartReady(c, netbird);
      case DropSandbox =>
    }
  }

  lemma {:induction false} RunReady(actions: seq<Action>)
    requires AllocationRun(actions)
    ensures ReadyInv(Run(EMPTY, actions))
  {
    if actions != [] {
      RunReady(actions[..|actions| - 1]);
      StepReady(Run(EMPTY, actions[..|actions| - 1]), actions[|actions| - 1]);
    }
  }

  /**
   After any run of an allocation, with failures, cancels cut short, late saves and restarts: a
   sandbox marked as ready has all three stages finished and none failed.
   */
  lemma {:induction false} ReadySafety(actions: seq<Action>)
    requires AllocationRun(actions)
    ensures var c := Run(EMPTY, actions);
            c.sandbox.Some? && c.sandbox.value.ready ==> AllOk(c.rows)
  {
    RunReady(actions);
  }
}
