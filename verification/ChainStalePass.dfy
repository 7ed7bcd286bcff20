/**
 A cancel pass that decides and writes from rows it loaded earlier, while workers go on: exactly when that
 breaks the failure closure.
 */
module ChainStalePass {
  import opened Common
  import opened StageChain
  import opened ChainSafety
  import opened ChainProgress
  import opened ChainRestart

  /** A cancel pass that decides and writes from rows it loaded earlier. */
  function StaleCancelFrom(c: Chain, loaded: seq<Row>, n: nat): Chain
    requires n <= |c.rows| == |loaded|
    decreases n
  {
    if n == 0 then c
    else if loaded[n - 1].finished then StaleCancelFrom(c, loaded, n - 1)
    else
      var jobs := if loaded[n - 1].job.None? then c.jobs else DeleteJob(c.jobs, loaded[n - 1].job.value);
      StaleCancelFrom(c.(rows := c.rows[n - 1 := CancelRow(loaded[n - 1])], jobs := jobs), loaded, n - 1)
  }

  const ALL_CLEAN := [Clean, Clean, Clean]

  /** Nothing was saved to the rows still to be cancelled since they were loaded: then it is the cancel pass. */
  lemma {:induction false} FreshPassIsCancel(c: Chain, loaded: seq<Row>, n: nat)
    requires n <= |c.rows| == |loaded| && n <= 3 && c.rows[..n] == loaded[..n]
    ensures StaleCancelFrom(c, loaded, n) == CancelFrom(c, n, ALL_CLEAN)
    decreases n
  {
    if n > 0 {
      assert loaded[n - 1] == loaded[..n][n - 1] == c.rows[n - 1];
      var c' := CancelStage(c, n - 1, Clean);
      assert c'.rows[..n - 1] == c.rows[..n][..n - 1] == loaded[..n - 1];
      FreshPassIsCancel(c', loaded, n - 1);
    }
  }

  /** So a stale pass is harmless, at every reachable moment, when its rows are as they were loaded. */
  lemma {:induction false} FreshPassKeepsClosure(actions: seq<Action>, loaded: seq<Row>)
    requires Run(EMPTY, actions).rows == loaded
    ensures var c := StaleCancelFrom(Run(EMPTY, actions), loaded, |loaded|);
            Inv(c) && (Finished(c.rows) ==> FailuresClosed(c.rows))
  {
    var c := Run(EMPTY, actions);
    RunInv(actions);
    FreshPassIsCancel(c, loaded, |loaded|);
    CancelFromInv(c, |loaded|, ALL_CLEAN);
    hide Inv, Run, StaleCancelFrom, CancelFrom;
    if Finished(StaleCancelFrom(c, loaded, |loaded|).rows) {
      FinishedIsClosed(StaleCancelFrom(c, loaded, |loaded|));
    }
  }

  // ---- What still holds behind a stale pass ----

  /** The stage went well, but its row says that it failed. */
  ghost predicate Robbed(c: Chain, p: nat)
    requires p < |c.rows|
  {
    JobSucceeded(c.rows[p], c.jobs) && c.rows[p].failed
  }

  /** The job of the row cannot end well any more. */
  predicate Dead(row: Row, jobs: seq<Job>) {
    && row.job.Some? && row.job.value < |jobs|
    && var job := jobs[row.job.value];
       job.status in {Failed, Spoiled} || (job.status == Waiting && job.deleted)
  }

  ghost predicate WeakRow(c: Chain, p: nat)
    requires p < |c.rows|
  {
    && HasJob(c.rows[p], c.jobs, p)
    && (Ok(c.rows[p]) ==> JobSucceeded(c.rows[p], c.jobs))
    && (JobSucceeded(c.rows[p], c.jobs) ==> c.rows[p].finished)
  }

  /** Behind a robbed stage nothing can end well, but for a stage that was robbed as well. */
  ghost predicate WeakLink(c: Chain, p: nat)
    requires 0 < p < |c.rows|
  {
    && HasJob(c.rows[p], c.jobs, p)
    && Linked(c.rows[p - 1], c.rows[p], c.jobs)
    && (Robbed(c, p - 1) ==> Dead(c.rows[p], c.jobs) || Robbed(c, p))
  }

  ghost predicate WeakRows(c: Chain) {
    && |c.rows| == 3
    && (forall p: nat | p < 3 :: WeakRow(c, p))
    && (forall p: nat | 0 < p < 3 :: WeakLink(c, p))
  }

  /** The invariant of runs without stale passes, with robbed stages. */
  ghost predicate Weak(c: Chain) {
    && JobsOk(c.jobs)
    && (c.rows == [] ==> c == EMPTY)
    && (c.rows != [] ==> WeakRows(c))
  }

  lemma InvIsWeak(c: Chain)
    requires Inv(c)
    ensures Weak(c)
  {
    if c.rows != [] {
      forall p: nat | p < 3
        ensures WeakRow(c, p) && !Robbed(c, p)
      {
        assert RowOk(c.rows[p], c.jobs, p);
      }
      forall p: nat | 0 < p < 3
        ensures WeakLink(c, p)
      {
        assert Linked(c.rows[p - 1], c.rows[p], c.jobs);
      }
    }
  }

  lemma WeakOkDownwards(c: Chain, p: nat)
    requires Weak(c) && 0 < p < |c.rows| && Ok(c.rows[p])
    ensures Ok(c.rows[p - 1])
  {
    assert WeakRow(c, p) && WeakRow(c, p - 1) && WeakLink(c, p);
  }

  lemma WeakIsClosed(c: Chain)
    requires Weak(c) && Finished(c.rows)
    ensures FailuresClosed(c.rows)
  {
    if c.rows != [] {
      assert forall p: nat | p < 3 :: c.rows[p] in c.rows;
      if Ok(c.rows[2]) { WeakOkDownwards(c, 2); }
      if Ok(c.rows[1]) { WeakOkDownwards(c, 1); }
    }
  }

  /** A job that is not dead and has its row moves on together with that row. */
  lemma WeakRowMoves(c: Chain, c': Chain, j: nat, pos: nat, status: Status, row: Row)
    requires Weak(c) && pos < |c.rows| && Current(c, j, pos) && j < |c.jobs|
    requires c.jobs[j].status == Running || (c.jobs[j].status == Waiting && !c.jobs[j].deleted)
    requires JobsOk(c'.jobs) && c'.jobs == c.jobs[j := c.jobs[j].(status := status)]
    requires c'.rows == c.rows[pos := row] && row.job == Some(j)
    requires (Ok(row) <==> status == Succeeded) && status != Waiting
    ensures Weak(c')
  {
    assert WeakRow(c, pos);
    forall p: nat | p < 3
      ensures WeakRow(c', p)
    {
      assert WeakRow(c, p);
    }
    forall p: nat | 0 < p < 3
      ensures WeakLink(c', p)
    {
      assert WeakRow(c, p) && WeakRow(c, p - 1) && WeakLink(c, p);
    }
  }

  /** A job without a row moves on alone. */
  lemma WeakJobMoves(c: Chain, c': Chain, j: nat, status: Status)
    requires Weak(c) && j < |c.jobs| && forall pos: nat | pos < |c.rows| :: c.rows[pos].job != Some(j)
    requires JobsOk(c'.jobs) && c'.jobs == c.jobs[j := c.jobs[j].(status := status)]
    requires c'.rows == c.rows
    ensures Weak(c')
  {
    if c.rows != [] {
      forall p: nat | p < 3
        ensures WeakRow(c', p)
      {
        assert WeakRow(c, p);
      }
      forall p: nat | 0 < p < 3
        ensures WeakLink(c', p)
      {
        assert WeakRow(c, p) && WeakRow(c, p - 1) && WeakLink(c, p);
      }
    }
  }

  lemma WeakNoRow(c: Chain, j: nat)
    requires Weak(c) && j < |c.jobs|
    requires c.jobs[j].task.StageTask? ==> !Current(c, j, c.jobs[j].task.pos)
    ensures forall pos: nat | pos < |c.rows| :: c.rows[pos].job != Some(j)
  {
    forall pos: nat | pos < |c.rows|
      ensures c.rows[pos].job != Some(j)
    {
      assert WeakRow(c, pos);
    }
  }

  lemma WeakStart(c: Chain, j: nat)
    requires Weak(c) && CanStart(c, j)
    ensures Weak(Start(c, j))
  {
    var c' := Start(c, j);
    var job := c.jobs[j];
    JobsOkUpdate(c.jobs, j, c'.jobs[j].status);
    if job.task.StageTask? && Current(c, j, job.task.pos) {
      WeakRowMoves(c, c', j, job.task.pos, Running, StartRow(j));
    } else {
      WeakNoRow(c, j);
      WeakJobMoves(c, c', j, c'.jobs[j].status);
    }
  }

  lemma WeakEnd(c: Chain, j: nat, ok: bool)
    requires Weak(c) && CanEnd(c, j)
    ensures Weak(End(c, j, ok))
  {
    var c' := End(c, j, ok);
    var job := c.jobs[j];
    JobsOkUpdate(c.jobs, j, c'.jobs[j].status);
    if job.task.StageTask? && Current(c, j, job.task.pos) {
      WeakRowMoves(c, c', j, job.task.pos, c'.jobs[j].status, EndRow(j, ok));
    } else {
      WeakNoRow(c, j);
      WeakJobMoves(c, c', j, c'.jobs[j].status);
    }
  }

  /** Another report, sandbox or set of handlers makes no difference. */
  lemma WeakElsewhere(c: Chain, c': Chain)
    requires Weak(c) && c'.rows == c.rows && c'.jobs == c.jobs && (c.rows == [] ==> c' == EMPTY)
    ensures Weak(c')
  {
    if c.rows != [] {
      assert forall p: nat | p < 3 :: WeakRow(c, p) ==> WeakRow(c', p);
      forall p: nat | 0 < p < 3
        ensures WeakLink(c', p)
      {
        assert WeakLink(c, p);
      }
    }
  }

  lemma WeakCancelStage(c: Chain, pos: nat, outcome: CancelOutcome)
    requires Weak(c) && pos < |c.rows|
    ensures Weak(CancelStage(c, pos, outcome))
  {
    var c' := CancelStage(c, pos, outcome);
    assert SameButDeleted(c.jobs, c'.jobs);
    DeletedJobsOk(c.jobs, c'.jobs);
    assert WeakRow(c, pos);
    forall p: nat | p < 3
      ensures WeakRow(c', p)
    {
      assert WeakRow(c, p);
    }
    forall p: nat | 0 < p < 3
      ensures WeakLink(c', p)
    {
      assert WeakRow(c, p) && WeakRow(c, p - 1) && WeakLink(c, p);
    }
  }

  lemma {:induction false} WeakCancelFrom(c: Chain, n: nat, plan: seq<CancelOutcome>)
    requires Weak(c) && n <= |c.rows| && n <= |plan|
    ensures Weak(CancelFrom(c, n, plan))
    decreases n
  {
    if n > 0 {
      var c' := CancelStage(c, n - 1, plan[n - 1]);
      WeakCancelStage(c, n - 1, plan[n - 1]);
      assert |c'.rows| == |c.rows|;
      hide Weak;
      WeakCancelFrom(c', n - 1, plan);
    }
  }

  /** An accepted restart rebuilds all robbed stages. */
  lemma WeakRestart(c: Chain, netbird: bool)
    requires Weak(c)
    ensures Weak(RestartRequest(c, netbird))
  {
    if c.sandbox.Some? && RestartAccepted(c.rows) {
      WeakPrefix(c);
      var (rows, positions) := RestartRows(c.rows);
      var replaced := c.(sandbox := Some(Sandbox(c.nextSandbox, false)), nextSandbox := c.nextSandbox + 1,
                         rows := rows);
      EnqueueRequestInv(replaced, FirstFailed(c.rows), ReadyTask(c.nextSandbox), netbird, false);
      InvIsWeak(RestartRequest(c, netbird));
    } else {
      WeakElsewhere(c, RestartRequest(c, netbird));
    }
  }

  lemma WeakPrefix(c: Chain)
    requires Weak(c) && RestartAccepted(c.rows)
    ensures var (rows, rebuilt) := RestartRows(c.rows);
            var k := FirstFailed(c.rows);
            && k < 3 && rebuilt == Positions(k) && JobsOk(c.jobs) && RowsOk(rows, c.jobs, k)
            && (k > 0 ==> JobSucceeded(rows[k - 1], c.jobs))
  {
    WeakIsClosed(c);
    RestartRebuildsSuffixIff(c.rows);
    var k := FirstFailed(c.rows);
    var (rows, _) := RestartRows(c.rows);
    forall pos: nat | pos < k
      ensures rows[pos] == c.rows[pos] && RowOk(rows[pos], c.jobs, pos) && JobSucceeded(rows[pos], c.jobs)
    {
      assert c.rows[pos] in c.rows && WeakRow(c, pos);
    }
  }

  lemma WeakStep(c: Chain, a: Action)
    requires Weak(c)
    ensures Weak(Step(c, a))
  {
    hide JobsOk, WeakRows;
    if Enabled(c, a) {
      match a
      case Allocate(netbird, grouped) => StepInvIsWeak(a);
      case StartJob(j) => WeakStart(c, j);
      case EndJob(j, ok) => WeakEnd(c, j, ok);
      case EndUncleaned(j) =>
        WeakHasRows(c, j);
        WeakElsewhere(c, AddReport(c, c.jobs[j].grouped, EndReport));
        WeakEnd(AddReport(c, c.jobs[j].grouped, EndReport), j, false);
      case HandleFailure(j, plan) =>
        WeakElsewhere(c, c.(handlers := c.handlers - {j}));
        WeakCancelFrom(c.(handlers := c.handlers - {j}), |c.rows|, plan);
      case Cancel(plan) => WeakCancelFrom(c, |c.rows|, plan);
      case Restart(netbird) => WeakRestart(c, netbird);
      case DropSandbox => WeakElsewhere(c, c.(sandbox := None));
      case CreateCleanup =>
        FreshRowsInv(c.(rows := FRESH_ROWS), DeleteUnitTask, false, false);
        InvIsWeak(Step(c, a));
    }
  }

  lemma WeakHasRows(c: Chain, j: nat)
    requires Weak(c) && j < |c.jobs|
    ensures c.rows != []
  {
  }

  lemma StepInvIsWeak(a: Action)
    ensures Weak(Step(EMPTY, a))
  {
    StepInv(EMPTY, a);
    InvIsWeak(Step(EMPTY, a));
  }

  /** Whatever happens from here on, a finished request has only failed stages after a failed one. */
  ghost predicate ClosedForGood(c: Chain) {
    forall actions: seq<Action> :: Finished(Run(c, actions).rows) ==> FailuresClosed(Run(c, actions).rows)
  }

  lemma {:induction false} WeakRun(c: Chain, actions: seq<Action>)
    requires Weak(c)
    ensures Weak(Run(c, actions))
  {
    hide Weak;
    if actions != [] {
      WeakRun(c, actions[..|actions| - 1]);
      WeakStep(Run(c, actions[..|actions| - 1]), actions[|actions| - 1]);
    }
  }

  lemma WeakIsClosedForGood(c: Chain)
    requires Weak(c)
    ensures ClosedForGood(c)
  {
    forall actions: seq<Action> | Finished(Run(c, actions).rows)
      ensures FailuresClosed(Run(c, actions).rows)
    {
      WeakRun(c, actions);
      WeakIsClosed(Run(c, actions));
    }
  }

  // ---- What the pass leaves ----

  /** The rows that were unfinished when loaded are marked, and their jobs and dependents are deleted. */
  lemma {:induction false} StalePassLeaves(c: Chain, loaded: seq<Row>, n: nat)
    requires n <= |c.rows| == |loaded| == 3
    ensures var c' := StaleCancelFrom(c, loaded, n);
            && |c'.rows| == 3 && SameButDeleted(c.jobs, c'.jobs)
            && (forall p: nat | p < 3 ::
                  c'.rows[p] == if p < n && !loaded[p].finished then CancelRow(loaded[p]) else c.rows[p])
            && (forall j: nat | j < |c.jobs| && c.jobs[j].deleted :: c'.jobs[j].deleted)
            && (forall p: nat, j: nat | p < n && !loaded[p].finished && loaded[p].job.Some? && j < |c.jobs|
                                        && loaded[p].job.value in c.jobs[j].deps :: c'.jobs[j].deleted)
    decreases n
  {
    if n > 0 {
      if loaded[n - 1].finished {
        StalePassLeaves(c, loaded, n - 1);
      } else {
        var jobs := if loaded[n - 1].job.None? then c.jobs else DeleteJob(c.jobs, loaded[n - 1].job.value);
        StalePassLeaves(c.(rows := c.rows[n - 1 := CancelRow(loaded[n - 1])], jobs := jobs), loaded, n - 1);
      }
    }
  }

  // ---- What happens between the loads and the writes ----

  /** Jobs keep their task and what they depend on. */
  predicate JobsGrow(c: Chain, c': Chain) {
    && |c.jobs| <= |c'.jobs|
    && forall j: nat | j < |c.jobs| :: c'.jobs[j].task == c.jobs[j].task && c'.jobs[j].deps == c.jobs[j].deps
  }

  lemma {:induction false} CancelGrows(c: Chain, n: nat, plan: seq<CancelOutcome>)
    requires n <= |c.rows| && n <= |plan|
    ensures JobsGrow(c, CancelFrom(c, n, plan))
    decreases n
  {
    if n > 0 {
      CancelGrows(CancelStage(c, n - 1, plan[n - 1]), n - 1, plan);
    }
  }

  lemma EnqueueGrows(c: Chain, k: nat, final: Task, netbird: bool, grouped: bool)
    requires k < 3 == |c.rows|
    ensures JobsGrow(c, EnqueueRequest(c, Positions(k), final, netbird, grouped))
  {
    EnqueueShape(c, Positions(k), final, netbird, grouped);
    var c' := EnqueueRequest(c, Positions(k), final, netbird, grouped);
    assert forall j: nat | j < |c.jobs| :: c'.jobs[j] == c'.jobs[..|c.jobs|][j];
  }

  lemma RestartGrows(c: Chain, netbird: bool)
    requires Inv(c)
    ensures JobsGrow(c, RestartRequest(c, netbird))
  {
    if c.sandbox.Some? && RestartAccepted(c.rows) {
      RestartEnqueues(c, netbird);
      EnqueueGrows(Replaced(c), FirstFailed(c.rows), ReadyTask(c.nextSandbox), netbird, false);
    }
  }

  lemma StartGrows(c: Chain, j: nat)
    requires CanStart(c, j)
    ensures JobsGrow(c, Start(c, j))
  {
  }

  lemma EndGrows(c: Chain, j: nat, ok: bool)
    requires CanEnd(c, j)
    ensures JobsGrow(c, End(c, j, ok))
  {
  }

  lemma StepGrows(c: Chain, a: Action)
    requires Inv(c)
    ensures JobsGrow(c, Step(c, a))
  {
    assert Positions(0) == [0, 1, 2];
    hide Start, End, RestartRequest, EnqueueRequest, Positions, AllocateUnit;
    if Enabled(c, a) {
      match a
      case StartJob(j) => StartGrows(c, j);
      case EndJob(j, ok) => EndGrows(c, j, ok);
      case EndUncleaned(j) => EndGrows(AddReport(c, c.jobs[j].grouped, EndReport), j, false);
      case HandleFailure(j, plan) => CancelGrows(c.(handlers := c.handlers - {j}), |c.rows|, plan);
      case Cancel(plan) => CancelGrows(c, |c.rows|, plan);
      case Restart(netbird) => RestartGrows(c, netbird);
      case CreateCleanup => EnqueueGrows(c.(rows := FRESH_ROWS), 0, DeleteUnitTask, false, false);
      case _ =>
    }
  }

  lemma {:induction false} RunGrows(c: Chain, actions: seq<Action>)
    requires Inv(c)
    ensures Inv(Run(c, actions)) && JobsGrow(c, Run(c, actions))
  {
    hide Inv;
    if actions != [] {
      var n := |actions| - 1;
      RunGrows(c, actions[..n]);
      StepInv(Run(c, actions[..n]), actions[n]);
      StepGrows(Run(c, actions[..n]), actions[n]);
    }
  }

  // ---- Exactly when a stale pass breaks the closure ----

  /**
   Since the rows were loaded stage `p` has ended well, and the next stage is running, or was thought finished
   and has ended well too.
   */
  ghost predicate OvertakenAt(c: Chain, loaded: seq<Row>, p: nat)
    requires p < 2 && |c.rows| == |loaded| == 3
  {
    && !loaded[p].finished && JobSucceeded(c.rows[p], c.jobs)
    && (IsRunning(c.rows[p + 1], c.jobs) || (loaded[p + 1].finished && Ok(c.rows[p + 1])))
  }

  predicate IsRunning(row: Row, jobs: seq<Job>) {
    row.job.Some? && row.job.value < |jobs| && jobs[row.job.value].status == Running
  }

  /** The rows record the jobs that they recorded when they were loaded: none was rebuilt. */
  predicate SameAttempt(c: Chain, loaded: seq<Row>) {
    |c.rows| == |loaded| == 3 && forall p: nat | p < 3 :: c.rows[p].job == loaded[p].job
  }

  lemma PassIsWeak(c0: Chain, c: Chain)
    requires Inv(c0) && Inv(c) && JobsGrow(c0, c) && SameAttempt(c, c0.rows)
    requires forall p: nat | p < 2 :: !OvertakenAt(c, c0.rows, p)
    ensures Weak(StaleCancelFrom(c, c0.rows, 3))
  {
    var loaded := c0.rows;
    var c' := StaleCancelFrom(c, loaded, 3);
    StalePassLeaves(c, loaded, 3);
    DeletedJobsOk(c.jobs, c'.jobs);
    forall p: nat | p < 3
      ensures WeakRow(c', p)
    {
      assert RowOk(c.rows[p], c.jobs, p);
    }
    forall p: nat | 0 < p < 3
      ensures WeakLink(c', p)
    {
      PassLinks(c0, c, c', p);
    }
  }

  lemma PassLinks(c0: Chain, c: Chain, c': Chain, p: nat)
    requires Inv(c0) && Inv(c) && JobsGrow(c0, c) && SameAttempt(c, c0.rows) && 0 < p < 3
    requires !OvertakenAt(c, c0.rows, p - 1)
    requires c' == StaleCancelFrom(c, c0.rows, 3) && |c'.rows| == 3 && WeakRow(c', p)
    ensures WeakLink(c', p)
  {
    StalePassLeaves(c, c0.rows, 3);
    assert RowOk(c.rows[p], c.jobs, p) && RowOk(c.rows[p - 1], c.jobs, p - 1);
    assert Linked(c.rows[p - 1], c.rows[p], c.jobs);
    if Robbed(c', p - 1) {
      assert RowOk(c0.rows[p - 1], c0.jobs, p - 1) && RowOk(c0.rows[p], c0.jobs, p);
      assert Linked(c0.rows[p - 1], c0.rows[p], c0.jobs);
      assert c0.rows[p - 1].job.value in c.jobs[c.rows[p].job.value].deps;
      assert c'.jobs[c.rows[p].job.value].deleted;
    }
  }

  lemma {:induction false} CleanPassFinishes(c: Chain, n: nat)
    requires n <= |c.rows| == 3
    ensures var c' := CancelFrom(c, n, ALL_CLEAN);
            && |c'.rows| == 3
            && (forall p: nat | p < n :: c'.rows[p].finished)
            && (forall p: nat | p < 3 && (n <= p || c.rows[p].finished) :: c'.rows[p] == c.rows[p])
    decreases n
  {
    if n > 0 {
      CleanPassFinishes(CancelStage(c, n - 1, Clean), n - 1);
    }
  }

  /** A row marked as failed before one that went well: cancelling the rest ends the request like that. */
  lemma OpenRowsStay(c: Chain, p: nat)
    requires |c.rows| == 3 && p < 2
    requires c.rows[p].failed && c.rows[p].finished && Ok(c.rows[p + 1])
    ensures var c' := Step(c, Cancel(ALL_CLEAN)); Finished(c'.rows) && !FailuresClosed(c'.rows)
  {
    CleanPassFinishes(c, 3);
    var c' := Step(c, Cancel(ALL_CLEAN));
    assert c'.rows[p] == c.rows[p] && c'.rows[p + 1] == c.rows[p + 1];
  }

  lemma PassBreaks(c: Chain, loaded: seq<Row>, p: nat)
    requires Inv(c) && SameAttempt(c, loaded) && p < 2 && OvertakenAt(c, loaded, p)
    ensures !ClosedForGood(StaleCancelFrom(c, loaded, 3))
  {
    var c' := StaleCancelFrom(c, loaded, 3);
    var cancel := Cancel(ALL_CLEAN);
    StalePassLeaves(c, loaded, 3);
    assert RowOk(c.rows[p + 1], c.jobs, p + 1);
    hide Inv, StaleCancelFrom, CancelRequest, RowOk, Step, Run;
    if IsRunning(c.rows[p + 1], c.jobs) {
      var end := EndJob(c.rows[p + 1].job.value, true);
      NextEndsWell(c', p);
      OpenRowsStay(Step(c', end), p);
      RunSteps(c', end, cancel);
    } else {
      OpenRowsStay(c', p);
      RunSteps(c', cancel, cancel);
    }
  }

  lemma NextEndsWell(c: Chain, p: nat)
    requires p < 2 && |c.rows| == 3 && IsRunning(c.rows[p + 1], c.jobs) && HasJob(c.rows[p + 1], c.jobs, p + 1)
    ensures var c' := Step(c, EndJob(c.rows[p + 1].job.value, true));
            |c'.rows| == 3 && c'.rows[p] == c.rows[p] && Ok(c'.rows[p + 1])
  {
  }

  lemma RunSteps(c: Chain, a1: Action, a2: Action)
    ensures Run(c, [a1]) == Step(c, a1)
    ensures Run(c, [a1, a2]) == Step(Step(c, a1), a2)
  {
    assert [a1][..0] == [] && Run(c, []) == c && [a1, a2][..1] == [a1];
  }

  /**
   A pass that cancels from rows loaded at one moment of a run and writes at a later one, none rebuilt in
   between: the closure is kept, then and for good, exactly when no stage that has ended well meanwhile is
   followed by one that is running, or that was thought finished and has ended well too.
   */
  lemma {:induction false} StalePassHarmlessIff(before: seq<Action>, during: seq<Action>)
    requires SameAttempt(Run(Run(EMPTY, before), during), Run(EMPTY, before).rows)
    ensures var loaded := Run(EMPTY, before).rows; var c := Run(Run(EMPTY, before), during);
            ClosedForGood(StaleCancelFrom(c, loaded, 3)) <==> forall p: nat | p < 2 :: !OvertakenAt(c, loaded, p)
  {
    var c0 := Run(EMPTY, before);
    var c := Run(c0, during);
    RunInv(before);
    RunGrows(c0, during);
    hide Run, Inv, StaleCancelFrom, ClosedForGood, OvertakenAt;
    if forall p: nat | p < 2 :: !OvertakenAt(c, c0.rows, p) {
      PassIsWeak(c0, c);
      WeakIsClosedForGood(StaleCancelFrom(c, c0.rows, 3));
    } else {
      var p: nat :| p < 2 && OvertakenAt(c, c0.rows, p);
      PassBreaks(c, c0.rows, p);
    }
  }

  // ---- A run in which it does ----

  function StageJobRow(j: nat, status: Status, deps: set<nat>, deleted: bool): Job {
    Job(StageTask(j), deps, status, deleted, false)
  }

  /** The four jobs of an allocation without NetBird. */
  function FourJobs(s0: Status, s1: Status, s2: Status): seq<Job> {
    [StageJobRow(0, s0, {}, false), StageJobRow(1, s1, {0}, false), StageJobRow(2, s2, {1}, false),
     Job(ReadyTask(0), {2}, Waiting, false, false)]
  }

  function Midway(rows: seq<Row>, s0: Status, s1: Status, s2: Status): Chain {
    Chain(rows, FourJobs(s0, s1, s2), {}, Some(Sandbox(0, false)), 1, [])
  }

  const WAITING_ROW := Row(Some(2), false, false, false, false)

  /** The networking stage is running, the user stage is queued. */
  const LOADED := Midway([EndRow(0, true), StartRow(1), WAITING_ROW], Succeeded, Running, Waiting)

  const FIRST := Midway([Row(Some(0), false, false, false, false), Row(Some(1), false, false, false, false),
                         WAITING_ROW], Waiting, Waiting, Waiting)

  lemma AllocatedPlain()
    ensures AllocateUnit(false, false) == FIRST
  {
    var c0 := EMPTY.(rows := FRESH_ROWS, sandbox := Some(Sandbox(0, false)), nextSandbox := 1);
    var c := AllocateUnit(false, false);
    assert Positions(0) == [0, 1, 2];
    EnqueueStagesRows(c0, 0, ReadyTask(0), false, false);
    NewRowWaits(c0, 0, ReadyTask(0), false, false, 0);
    assert c.rows == [Row(Some(0), false, false, false, false), Row(Some(1), false, false, false, false), WAITING_ROW];
    EnqueueShape(c0, Positions(0), ReadyTask(0), false, false);
    assert c.jobs[0] == StageJob(Positions(0), 0, 0, None, None, false);
    assert c.jobs[1] == StageJob(Positions(0), 1, 0, None, None, false);
    assert c.jobs[2] == StageJob(Positions(0), 2, 0, None, None, false);
    assert c.jobs[0].deps == {} && c.jobs[1].deps == {0} && c.jobs[2].deps == {1};
    assert c.jobs[3] == Job(ReadyTask(0), {2}, Waiting, false, false);
    assert c.jobs == FourJobs(Waiting, Waiting, Waiting);
  }

  lemma StackStageGoesWell()
    ensures Step(Step(FIRST, StartJob(0)), EndJob(0, true))
         == STACK_DONE
  {
    assert Step(FIRST, StartJob(0)) == Midway([StartRow(0), FIRST.rows[1], WAITING_ROW], Running, Waiting, Waiting);
  }

  const STACK_DONE := Midway([EndRow(0, true), FIRST.rows[1], WAITING_ROW], Succeeded, Waiting, Waiting)

  lemma NetworkingStageStarts()
    ensures Step(STACK_DONE, StartJob(1)) == LOADED
  {
    assert CanStart(STACK_DONE, 1);
  }

  lemma {:induction false} LoadedIsReached()
    ensures Step(Step(Step(Step(EMPTY, Allocate(false, false)), StartJob(0)), EndJob(0, true)), StartJob(1)) == LOADED
  {
    AllocatedPlain();
    StackStageGoesWell();
    NetworkingStageStarts();
  }

  /**
   When a worker's saves fall between the loads and the writes of a cancel pass, the failure closure
   is lost: the networking stage is left failed before a user stage that went well.
   */
  lemma {:induction false} StaleCancelBreaksClosure()
    ensures Step(Step(Step(Step(EMPTY, Allocate(false, false)), StartJob(0)), EndJob(0, true)), StartJob(1)) == LOADED
    ensures var later := Step(Step(LOADED, EndJob(1, true)), StartJob(2));
            var c := Step(StaleCancelFrom(later, LOADED.rows, 3), EndJob(2, true));
            Finished(c.rows) && !FailuresClosed(c.rows)
  {
    var loaded, waiting := LOADED, WAITING_ROW;
    var ended := Step(loaded, EndJob(1, true));
    assert ended == Midway([EndRow(0, true), EndRow(1, true), waiting], Succeeded, Succeeded, Waiting);
    var later := Step(ended, StartJob(2));
    assert later == Midway([EndRow(0, true), EndRow(1, true), StartRow(2)], Succeeded, Succeeded, Running);
    var user := later.(rows := later.rows[2 := CancelRow(loaded.rows[2])], jobs := DeleteJob(later.jobs, 2));
    var networking := user.(rows := user.rows[1 := CancelRow(loaded.rows[1])], jobs := DeleteJob(user.jobs, 1));
    assert StaleCancelFrom(later, loaded.rows, 3) == StaleCancelFrom(user, loaded.rows, 2);
    assert StaleCancelFrom(user, loaded.rows, 2) == StaleCancelFrom(networking, loaded.rows, 1) == networking;
    assert networking.jobs[2].status == Running && networking.jobs[2].task == StageTask(2);
    var c := Step(networking, EndJob(2, true));
    assert c.rows == [EndRow(0, true), CancelRow(StartRow(1)), EndRow(2, true)];
    assert c.rows[1].failed && !c.rows[2].failed;
    LoadedIsReached();
  }
}
