/**
 What single steps of the request chain do to rows and jobs: how stages end and are listed, what a cancel pass
 reaches, whose failures are handled, and what a rejected restart and a cleanup change.
 */
module ChainEffects {
  import opened Common
  import opened StageChain
  import opened ChainSafety
  import opened ChainProgress
  import opened ChainRestart

  // ---- Listing of requests under way ----

  predicate JobIs(c: Chain, p: nat, status: Status) {
    && p < |c.rows| && c.rows[p].job.Some? && c.rows[p].job.value < |c.jobs|
    && c.jobs[c.rows[p].job.value].status == status
  }

  /** A row that is not finished shows how far its job is; a failed job leaves a failed row. */
  ghost predicate RowTold(c: Chain, p: nat)
    requires p < |c.rows|
  {
    var row := c.rows[p];
    && (!row.finished ==> !row.failed && !row.end && (JobIs(c, p, Waiting) || JobIs(c, p, Running)))
    && (!row.finished ==> (row.start <==> JobIs(c, p, Running)))
    && (row.finished ==> row.end)
    && (JobIs(c, p, Failed) || JobIs(c, p, Spoiled) ==> row.failed && row.finished)
  }

  ghost predicate ListInv(c: Chain) {
    Inv(c) && forall p: nat | p < |c.rows| :: RowTold(c, p)
  }

  lemma RowMoves(c: Chain, c': Chain, j: nat, pos: nat, status: Status, row: Row)
    requires ListInv(c) && pos < |c.rows| && Current(c, j, pos) && j < |c.jobs|
    requires c'.rows == c.rows[pos := row] && c'.jobs == c.jobs[j := c.jobs[j].(status := status)] && row.job == Some(j)
    requires if status == Running then row == StartRow(j)
             else row.finished && row.end && (status == Succeeded || (status == Failed && row.failed))
    ensures forall p: nat | p < |c'.rows| :: RowTold(c', p)
  {
    assert RowOk(c.rows[pos], c.jobs, pos);
    forall p: nat | p < |c'.rows|
      ensures RowTold(c', p)
    {
      assert RowTold(c, p) && RowOk(c.rows[p], c.jobs, p);
    }
  }

  lemma JobMoves(c: Chain, c': Chain, j: nat, status: Status)
    requires ListInv(c) && j < |c.jobs| && forall pos: nat | pos < |c.rows| :: c.rows[pos].job != Some(j)
    requires c'.rows == c.rows && c'.jobs == c.jobs[j := c.jobs[j].(status := status)]
    ensures forall p: nat | p < |c'.rows| :: RowTold(c', p)
  {
    forall p: nat | p < |c'.rows|
      ensures RowTold(c', p)
    {
      assert RowTold(c, p) && RowOk(c.rows[p], c.jobs, p);
    }
  }

  lemma StartList(c: Chain, j: nat)
    requires ListInv(c) && CanStart(c, j)
    ensures ListInv(Start(c, j))
  {
    var c' := Start(c, j);
    var job := c.jobs[j];
    StartInv(c, j);
    if job.task.StageTask? && Current(c, j, job.task.pos) {
      RowMoves(c, c', j, job.task.pos, Running, StartRow(j));
    } else {
      NoRow(c, j);
      JobMoves(c, c', j, c'.jobs[j].status);
    }
    hide Inv, RowTold;
  }

  lemma EndList(c: Chain, j: nat, ok: bool)
    requires ListInv(c) && CanEnd(c, j)
    ensures ListInv(End(c, j, ok))
  {
    var c' := End(c, j, ok);
    var job := c.jobs[j];
    EndInv(c, j, ok);
    if job.task.StageTask? && Current(c, j, job.task.pos) {
      RowMoves(c, c', j, job.task.pos, c'.jobs[j].status, EndRow(j, ok));
    } else {
      NoRow(c, j);
      JobMoves(c, c', j, c'.jobs[j].status);
    }
    hide Inv, RowTold;
  }

  lemma CancelStageList(c: Chain, pos: nat, outcome: CancelOutcome)
    requires ListInv(c) && pos < |c.rows|
    ensures ListInv(CancelStage(c, pos, outcome)) && |CancelStage(c, pos, outcome).rows| == |c.rows|
  {
    CancelStageInv(c, pos, outcome);
    var c' := CancelStage(c, pos, outcome);
    forall p: nat | p < |c'.rows|
      ensures RowTold(c', p)
    {
      assert RowTold(c, p) && RowOk(c.rows[p], c.jobs, p);
    }
  }

  lemma {:induction false} CancelFromList(c: Chain, n: nat, plan: seq<CancelOutcome>)
    requires ListInv(c) && n <= |c.rows| && n <= |plan|
    ensures ListInv(CancelFrom(c, n, plan))
    decreases n
  {
    hide ListInv, CancelStage;
    if n > 0 {
      CancelStageList(c, n - 1, plan[n - 1]);
      CancelFromList(CancelStage(c, n - 1, plan[n - 1]), n - 1, plan);
    }
  }

  lemma InvRow(c: Chain, p: nat)
    requires Inv(c) && p < |c.rows|
    ensures RowOk(c.rows[p], c.jobs, p)
  {
  }

  lemma WellIsTold(c: Chain, p: nat)
    requires p < |c.rows| && RowOk(c.rows[p], c.jobs, p) && Ok(c.rows[p]) && c.rows[p].end
    ensures RowTold(c, p)
  {
  }

  lemma WaitingIsTold(c: Chain, p: nat)
    requires p < |c.rows| && JobIs(c, p, Waiting) && c.rows[p] == FRESH_ROW.(job := c.rows[p].job)
    ensures RowTold(c, p)
  {
  }

  /** Kept rows went well; new rows wait. */
  lemma EnqueueList(c: Chain, k: nat, final: Task, netbird: bool, grouped: bool)
    requires k < 3 && !final.StageTask?
    requires JobsOk(c.jobs) && RowsOk(c.rows, c.jobs, k) && (k > 0 ==> JobSucceeded(c.rows[k - 1], c.jobs))
    requires forall p: nat | p < k :: Ok(c.rows[p]) && c.rows[p].end
    ensures ListInv(EnqueueRequest(c, Positions(k), final, netbird, grouped))
  {
    hide EnqueueRequest, Positions, JobsOk, RowTold, RowOk;
    var c' := EnqueueRequest(c, Positions(k), final, netbird, grouped);
    EnqueueRequestInv(c, k, final, netbird, grouped);
    InvHasThree(c');
    forall p: nat | p < 3
      ensures RowTold(c', p)
    {
      InvRow(c', p);
      if p < k {
        assert c'.rows[p] == c'.rows[..k][p] == c.rows[p];
        WellIsTold(c', p);
      } else {
        assert c.rows[p] == FRESH_ROW;
        NewRowWaits(c, k, final, netbird, grouped, p);
        WaitingIsTold(c', p);
      }
    }
  }

  lemma RestartList(c: Chain, netbird: bool)
    requires ListInv(c)
    ensures ListInv(RestartRequest(c, netbird))
  {
    if c.sandbox.Some? && RestartAccepted(c.rows) {
      RestartEnqueuesSuffix(c, netbird);
      forall p: nat | p < FirstFailed(c.rows)
        ensures Replaced(c).rows[p] == c.rows[p] && c.rows[p].end
      {
        assert RowTold(c, p) && Ok(c.rows[p]);
      }
      hide Inv, RestartRequest, EnqueueRequest, Positions, RowsOk, JobsOk;
      EnqueueList(Replaced(c), FirstFailed(c.rows), ReadyTask(c.nextSandbox), netbird, false);
    } else {
      RestartInv(c, netbird);
      SameRowsTold(c, RestartRequest(c, netbird));
    }
  }

  lemma SameRowsTold(c: Chain, c': Chain)
    requires forall p: nat | p < |c.rows| :: RowTold(c, p)
    requires c'.rows == c.rows && c'.jobs == c.jobs
    ensures forall p: nat | p < |c'.rows| :: RowTold(c', p)
  {
    forall p: nat | p < |c'.rows|
      ensures RowTold(c', p)
    {
      assert RowTold(c, p);
    }
  }

  lemma FreshList(c: Chain, final: Task, netbird: bool, grouped: bool)
    requires JobsOk(c.jobs) && c.rows == FRESH_ROWS && !final.StageTask?
    ensures ListInv(EnqueueRequest(c, [0, 1, 2], final, netbird, grouped))
  {
    assert Positions(0) == [0, 1, 2];
    EnqueueList(c, 0, final, netbird, grouped);
  }

  lemma StepList(c: Chain, a: Action)
    requires ListInv(c)
    ensures ListInv(Step(c, a))
  {
    hide RowTold, RowsOk, Start, End, RestartRequest, EnqueueRequest;
    StepInv(c, a);
    if Enabled(c, a) {
      match a
      case Allocate(netbird, grouped) =>
        FreshList(EMPTY.(rows := FRESH_ROWS, sandbox := Some(Sandbox(0, false)), nextSandbox := 1), ReadyTask(0),
                  netbird, grouped);
      case StartJob(j) => StartList(c, j);
      case EndJob(j, ok) => EndList(c, j, ok);
      case EndUncleaned(j) =>
        SameRowsTold(c, AddReport(c, c.jobs[j].grouped, EndReport));
        ReportKeepsInv(c, c.jobs[j].grouped, EndReport);
        EndList(AddReport(c, c.jobs[j].grouped, EndReport), j, false);
      case HandleFailure(j, plan) =>
        SameRowsTold(c, c.(handlers := c.handlers - {j}));
        CancelFromList(c.(handlers := c.handlers - {j}), |c.rows|, plan);
      case Cancel(plan) => CancelFromList(c, |c.rows|, plan);
      case Restart(netbird) => RestartList(c, netbird);
      case DropSandbox => SameRowsTold(c, c.(sandbox := None));
      case CreateCleanup => FreshList(c.(rows := FRESH_ROWS), DeleteUnitTask, false, false);
    }
  }

  lemma {:induction false} RunList(actions: seq<Action>)
    ensures ListInv(Run(EMPTY, actions))
  {
    hide ListInv;
    if actions == [] {
      EmptyList();
    } else {
      RunList(actions[..|actions| - 1]);
      StepList(Run(EMPTY, actions[..|actions| - 1]), actions[|actions| - 1]);
    }
  }

  lemma EmptyList()
    ensures ListInv(EMPTY)
  {
  }

  /**
   At every moment of every request: a stage is listed as done exactly when its job succeeded, and unless it was
   cancelled or failed, as running exactly while its job runs and as queued exactly while that waits; a job that
   failed is listed as a failed stage.
   */
  lemma {:induction false} ListingShowsJobs(actions: seq<Action>, p: nat)
    requires p < |Run(EMPTY, actions).rows|
    ensures var c := Run(EMPTY, actions); var state := StateOf(c.rows[p]);
            && (state == Done <==> JobIs(c, p, Succeeded))
            && (state == Broken <==> c.rows[p].failed)
            && (state != Broken ==> (state == InProgress <==> JobIs(c, p, Running))
                                    && (state == InQueue <==> JobIs(c, p, Waiting)))
            && (JobIs(c, p, Failed) ==> state == Broken)
  {
    RunList(actions);
    RunKeepsEnds(actions);
    var c := Run(EMPTY, actions);
    assert c.rows[p] in c.rows && RowTold(c, p) && RowOk(c.rows[p], c.jobs, p);
    hide Run, Inv;
  }

  // ---- How a stage ends ----

  /** The stage of a job that still has its row is listed as running once it has begun, and then as it ended. */
  lemma {:induction false} StagesEndAsTheyWent(c: Chain, j: nat, pos: nat, ok: bool)
    requires j < |c.jobs| && c.jobs[j].task == StageTask(pos) && Current(c, j, pos)
    ensures CanStart(c, j) ==>
              var c' := Step(c, StartJob(j));
              pos < |c'.rows| && StateOf(c'.rows[pos]) == InProgress && JobIs(c', pos, Running)
    ensures CanEnd(c, j) ==>
              var c' := Step(c, EndJob(j, ok));
              && pos < |c'.rows| && StateOf(c'.rows[pos]) == (if ok then Done else Broken)
              && JobIs(c', pos, if ok then Succeeded else Failed) && (j in c'.handlers <==> !ok || j in c.handlers)
  {
  }

  /** A stage whose row was replaced leaves the rows alone; its job fails and is handled. */
  lemma {:induction false} ReplacedStagesFail(c: Chain, j: nat, pos: nat, ok: bool)
    requires j < |c.jobs| && c.jobs[j].task == StageTask(pos) && !Current(c, j, pos)
    ensures forall a | a == StartJob(j) || a == EndJob(j, ok) :: Enabled(c, a) ==>
              var c' := Step(c, a);
              && c'.rows == c.rows && |c'.jobs| == |c.jobs| && c'.handlers == c.handlers + {j}
              && c'.jobs[j].status == (if a.EndJob? && ok then Spoiled else Failed)
  {
  }

  /** Provisioning succeeds whatever it meets, the deletion of the unit at once; only their own jobs change. */
  lemma {:induction false} OtherJobsSucceed(c: Chain, j: nat, ok: bool)
    requires j < |c.jobs| && (c.jobs[j].task.ProvisionTask? || c.jobs[j].task.DeleteUnitTask?)
    ensures forall a | a == StartJob(j) || a == EndJob(j, ok) :: Enabled(c, a) ==>
              var c' := Step(c, a);
              && |c'.jobs| == |c.jobs| && c' == c.(jobs := c'.jobs)
              && (forall i | 0 <= i < |c.jobs| && i != j :: c'.jobs[i] == c.jobs[i])
              && c'.jobs[j] == c.jobs[j].(status := if a.StartJob? && c.jobs[j].task.ProvisionTask? then Running
                                                    else Succeeded)
  {
  }

  // ---- What a cancel pass reaches ----

  /** The pass, which begins with the last stage, gets to this one: no later one raises. */
  predicate Reached(c: Chain, plan: seq<CancelOutcome>, n: nat, p: nat)
    requires n <= |c.rows| && n <= |plan|
  {
    p < n && forall q: nat | p < q < n :: !CancelRaises(c, q, plan[q])
  }

  /** The job of the row at `p` is deleted by the pass. */
  predicate Deletes(c: Chain, plan: seq<CancelOutcome>, n: nat, p: nat, j: nat)
    requires n <= |c.rows| && n <= |plan| && j < |c.jobs|
  {
    && Reached(c, plan, n, p) && !c.rows[p].finished && !plan[p].RaisesBeforeDelete? && c.rows[p].job.Some?
    && (c.rows[p].job == Some(j) || c.rows[p].job.value in c.jobs[j].deps)
  }

  predicate DeletedBy(c: Chain, plan: seq<CancelOutcome>, n: nat, j: nat)
    requires n <= |c.rows| && n <= |plan| && j < |c.jobs|
  {
    exists p: nat | p < n :: Deletes(c, plan, n, p, j)
  }

  lemma {:induction false} CancelFromReaches(c: Chain, n: nat, plan: seq<CancelOutcome>)
    requires n <= |c.rows| && n <= |plan|
    ensures var c' := CancelFrom(c, n, plan);
            && |c'.rows| == |c.rows| && |c'.jobs| == |c.jobs|
            && (forall p: nat | p < |c.rows| ::
                  c'.rows[p] == if Reached(c, plan, n, p) && !c.rows[p].finished
                                then CancelRow(c.rows[p]) else c.rows[p])
            && (forall j: nat | j < |c.jobs| ::
                  c'.jobs[j] == c.jobs[j].(deleted := c.jobs[j].deleted || DeletedBy(c, plan, n, j)))
            && c' == c.(rows := c'.rows, jobs := c'.jobs)
    decreases n
  {
    if n > 0 {
      var c1 := CancelStage(c, n - 1, plan[n - 1]);
      if CancelRaises(c, n - 1, plan[n - 1]) {
        LastStageOnly(c, n, plan);
      } else {
        CancelFromReaches(c1, n - 1, plan);
        OneStageMore(c, c1, n, plan);
      }
    }
  }

  lemma LastStageOnly(c: Chain, n: nat, plan: seq<CancelOutcome>)
    requires 0 < n <= |c.rows| && n <= |plan| && CancelRaises(c, n - 1, plan[n - 1])
    ensures forall p: nat :: Reached(c, plan, n, p) <==> p == n - 1
    ensures forall j: nat | j < |c.jobs| :: DeletedBy(c, plan, n, j) <==> Deletes(c, plan, n, n - 1, j)
  {
    assert Reached(c, plan, n, n - 1);
    assert forall p: nat | p < n - 1 :: !Reached(c, plan, n, p);
    hide Reached;
  }

  lemma OneStageMore(c: Chain, c1: Chain, n: nat, plan: seq<CancelOutcome>)
    requires 0 < n <= |c.rows| && n <= |plan| && !CancelRaises(c, n - 1, plan[n - 1])
    requires c1 == CancelStage(c, n - 1, plan[n - 1])
    ensures |c1.rows| == |c.rows| && |c1.jobs| == |c.jobs|
    ensures forall p: nat :: Reached(c, plan, n, p) <==> p == n - 1 || Reached(c1, plan, n - 1, p)
    ensures forall j: nat | j < |c.jobs| ::
              DeletedBy(c, plan, n, j) <==> Deletes(c, plan, n, n - 1, j) || DeletedBy(c1, plan, n - 1, j)
    ensures forall j: nat | j < |c.jobs| ::
              c1.jobs[j] == c.jobs[j].(deleted := c.jobs[j].deleted || Deletes(c, plan, n, n - 1, j))
  {
    assert forall q: nat | q < n - 1 :: CancelRaises(c1, q, plan[q]) <==> CancelRaises(c, q, plan[q]);
    forall p: nat
      ensures Reached(c, plan, n, p) <==> p == n - 1 || Reached(c1, plan, n - 1, p)
    {
    }
    forall j: nat | j < |c.jobs|
      ensures DeletedBy(c, plan, n, j) <==> Deletes(c, plan, n, n - 1, j) || DeletedBy(c1, plan, n - 1, j)
    {
      assert forall p: nat | p < n - 1 :: Deletes(c, plan, n, p, j) <==> Deletes(c1, plan, n - 1, p, j);
      if p: nat :| p < n && Deletes(c, plan, n, p, j) && p != n - 1 {
        assert Deletes(c1, plan, n - 1, p, j);
      }
      var m := n - 1;
      if p: nat :| p < m && Deletes(c1, plan, m, p, j) {
        assert Deletes(c, plan, n, p, j);
      }
    }
  }

  /**
   Exactly what a cancel pass changes: from the last stage down to the first one that raises, the unfinished
   stages are marked as failed, and their jobs are deleted with the jobs that depend on them; a stage that raises
   before the deletion keeps its job.  Nothing else changes, and nothing at all when every stage is finished.
   */
  lemma {:induction false} CancelPassIs(c: Chain, plan: seq<CancelOutcome>)
    requires |plan| == 3 == |c.rows|
    ensures var c' := Step(c, Cancel(plan));
            && |c'.rows| == 3 && |c'.jobs| == |c.jobs|
            && (forall p: nat | p < 3 ::
                  c'.rows[p] == if Reached(c, plan, 3, p) && !c.rows[p].finished
                                then c.rows[p].(failed := true, end := true, finished := true) else c.rows[p])
            && (forall j: nat | j < |c.jobs| ::
                  c'.jobs[j] == c.jobs[j].(deleted := c.jobs[j].deleted || DeletedBy(c, plan, 3, j)))
            && c' == c.(rows := c'.rows, jobs := c'.jobs)
  {
    CancelFromReaches(c, 3, plan);
    if Finished(c.rows) {
      assert forall p: nat | p < 3 :: c.rows[p] in c.rows;
      assert c.rows == [c.rows[0], c.rows[1], c.rows[2]];
    }
  }

  // ---- Whose failures are handled ----

  /** A failed job cancels its request exactly when a stage row records it; one whose row was replaced does not. */
  lemma {:induction false} FailureCancelsIff(c: Chain, j: nat, plan: seq<CancelOutcome>)
    requires j in c.handlers && |plan| == 3 >= |c.rows|
    ensures var c' := Step(c, HandleFailure(j, plan)); var c1 := c.(handlers := c.handlers - {j});
            c' == if exists row <- c.rows :: row.job == Some(j) then Step(c1, Cancel(plan)) else c1
  {
    if row :| row in c.rows && row.job == Some(j) {
      var pos: nat :| pos < |c.rows| && c.rows[pos] == row;
      assert Current(c, j, pos);
    }
    assert (exists pos: nat | pos < |c.rows| :: Current(c, j, pos)) ==> exists row <- c.rows :: row.job == Some(j);
  }

  // ---- Restarts that are rejected, and cleanups ----

  /** A rejected restart replaces the sandbox, if there is one, and changes nothing else. */
  lemma {:induction false} RejectedRestartIs(c: Chain, netbird: bool)
    requires !RestartAccepted(c.rows) || c.sandbox.None?
    ensures var c' := Step(c, Restart(netbird));
            && c'.rows == c.rows && c'.jobs == c.jobs && c'.handlers == c.handlers && c'.reports == c.reports
            && (c.sandbox.None? ==> c' == c)
            && (c.sandbox.Some? ==> c'.sandbox == Some(Sandbox(c.nextSandbox, false)) && c'.nextSandbox > c.nextSandbox)
  {
  }

  /** The jobs of a request: its stages in order, each behind the one before, and the finalizer behind the last. */
  predicate ChainOfThree(jobs: seq<Job>, first: nat, final: Task, extra: set<nat>, grouped: bool) {
    && |jobs| == first + 4
    && jobs[first] == Job(StageTask(0), {}, Waiting, false, grouped)
    && jobs[first + 1] == Job(StageTask(1), {first}, Waiting, false, grouped)
    && jobs[first + 2] == Job(StageTask(2), {first + 1} + extra, Waiting, false, grouped)
    && jobs[first + 3] == Job(final, {first + 2}, Waiting, false, false)
  }

  lemma EnqueuesThree(c: Chain, final: Task, netbird: bool, grouped: bool)
    requires c.rows == FRESH_ROWS
    ensures var c' := EnqueueRequest(c, [0, 1, 2], final, netbird, grouped);
            var first := |c.jobs| + if netbird then 1 else 0;
            && ChainOfThree(c'.jobs, first, final, if netbird then {|c.jobs|} else {}, grouped)
            && c'.jobs[..|c.jobs|] == c.jobs
            && (netbird ==> c'.jobs[|c.jobs|] == Job(ProvisionTask, {}, Waiting, false, false))
            && |c'.rows| == 3 && (forall p: nat | p < 3 :: c'.rows[p] == FRESH_ROW.(job := Some(first + p)))
            && c' == c.(rows := c'.rows, jobs := c'.jobs)
  {
    assert Positions(0) == [0, 1, 2];
    EnqueueShape(c, Positions(0), final, netbird, grouped);
    EnqueueStagesRows(c, 0, final, netbird, grouped);
    NewRowWaits(c, 0, final, netbird, grouped, 0);
    var first := |c.jobs| + if netbird then 1 else 0;
    var extra := if netbird then Some(|c.jobs|) else None;
    var jobs := EnqueueRequest(c, Positions(0), final, netbird, grouped).jobs;
    assert jobs[first] == StageJob(Positions(0), 0, first, None, extra, grouped);
    assert jobs[first + 1] == StageJob(Positions(0), 1, first, None, extra, grouped);
    assert jobs[first + 2] == StageJob(Positions(0), 2, first, None, extra, grouped);
  }

  /** A new allocation: a sandbox that is not ready, provisioning if it is configured, three stages, the finalizer. */
  lemma {:induction false} AllocationBegins(netbird: bool, grouped: bool)
    ensures var c := Step(EMPTY, Allocate(netbird, grouped));
            && c.sandbox == Some(Sandbox(0, false)) && c.reports == [] && c.handlers == {}
            && ChainOfThree(c.jobs, if netbird then 1 else 0, ReadyTask(0), if netbird then {0} else {}, grouped)
            && (netbird ==> c.jobs[0] == Job(ProvisionTask, {}, Waiting, false, false))
            && |c.rows| == 3
            && forall p: nat | p < 3 ::
                 StateOf(c.rows[p]) == InQueue && c.rows[p].job == Some(p + if netbird then 1 else 0)
  {
    EnqueuesThree(EMPTY.(rows := FRESH_ROWS, sandbox := Some(Sandbox(0, false)), nextSandbox := 1), ReadyTask(0),
                  netbird, grouped);
  }

  /** A cleanup: three new stages without provisioning and without a group, then the deletion of the unit. */
  lemma {:induction false} CleanupBegins(c: Chain)
    ensures var c' := Step(c, CreateCleanup); var n := |c.jobs|;
            && ChainOfThree(c'.jobs, n, DeleteUnitTask, {}, false) && c'.jobs[..n] == c.jobs
            && |c'.rows| == 3
            && (forall p: nat | p < 3 :: StateOf(c'.rows[p]) == InQueue && c'.rows[p].job == Some(n + p))
            && c' == c.(rows := c'.rows, jobs := c'.jobs)
  {
    EnqueuesThree(c.(rows := FRESH_ROWS), DeleteUnitTask, false, false);
  }
}
