/**
 The end of an allocation: its finalizer makes the sandbox ready, and over all runs a sandbox is ready exactly
 when the finalizer that names it has succeeded.
 */
module ChainFinish {
  import opened Common
  import opened StageChain
  import opened ChainSafety
  import opened ChainReady
  import opened ChainRestart
  import ChainReports

  /** A finalizer that begins saves its sandbox as ready, and puts it back if none is there; another one stays. */
  lemma {:induction false} FinalizerMakesReady(c: Chain, f: nat, s: nat)
    requires CanStart(c, f) && c.jobs[f].task == ReadyTask(s)
    ensures var c' := Step(c, StartJob(f));
            && c'.rows == c.rows && c'.reports == c.reports && c'.nextSandbox == c.nextSandbox
            && |c'.jobs| == |c.jobs| && (forall j: nat | j < |c.jobs| && j != f :: c'.jobs[j] == c.jobs[j])
            && (c.sandbox.None? || c.sandbox.value.id == s ==>
                  c'.sandbox == Some(Sandbox(s, true)) && c'.jobs[f].status == Succeeded && c'.handlers == c.handlers)
            && (c.sandbox.Some? && c.sandbox.value.id != s ==>
                  c'.sandbox == c.sandbox && c'.jobs[f].status == Failed && f in c'.handlers)
  {
  }

  // ---- Readiness and finalizers ----

  /** Finalizers do their work in one go, and no two are for one sandbox. */
  ghost predicate FinalizersOk(jobs: seq<Job>) {
    && (forall f | 0 <= f < |jobs| && jobs[f].task.ReadyTask? :: jobs[f].status != Running)
    && (forall f, g | 0 <= f < |jobs| && 0 <= g < |jobs| && jobs[f].task.ReadyTask? && jobs[f].task == jobs[g].task ::
          f == g)
  }

  predicate Names(c: Chain, f: nat) {
    f < |c.jobs| && c.sandbox.Some? && c.jobs[f].task == ReadyTask(c.sandbox.value.id)
  }

  /** The finalizer that names the sandbox has succeeded when that is ready, and waits otherwise. */
  ghost predicate ReadyTold(c: Chain) {
    c.sandbox.Some? ==>
      && (c.sandbox.value.ready ==> exists f: nat | f < |c.jobs| :: Names(c, f))
      && (forall f: nat | Names(c, f) :: c.jobs[f].status == if c.sandbox.value.ready then Succeeded else Waiting)
  }

  ghost predicate FinishInv(c: Chain) {
    Inv(c) && SandboxIdsUsed(c) && FinalizersOk(c.jobs) && ReadyTold(c)
  }

  /** The finalizers and the sandbox stay as they were. */
  ghost predicate SameFinalizers(c: Chain, c': Chain) {
    && c'.sandbox == c.sandbox && |c'.jobs| == |c.jobs|
    && (forall j: nat | j < |c.jobs| ::
          c'.jobs[j].task == c.jobs[j].task && (c.jobs[j].task.ReadyTask? ==> c'.jobs[j].status == c.jobs[j].status))
  }

  lemma SameFinalizersKeep(c: Chain, c': Chain)
    requires SameFinalizers(c, c') && FinalizersOk(c.jobs) && ReadyTold(c)
    ensures FinalizersOk(c'.jobs) && ReadyTold(c')
  {
    assert forall f: nat :: Names(c', f) <==> Names(c, f);
  }

  lemma StartFinish(c: Chain, j: nat)
    requires FinishInv(c) && CanStart(c, j)
    ensures FinalizersOk(Start(c, j).jobs) && ReadyTold(Start(c, j))
  {
    var c' := Start(c, j);
    if s :| c.jobs[j].task == ReadyTask(s) {
      FinalizerMakesReady(c, j, s);
      if c.sandbox.None? || c.sandbox.value.id == s {
        assert Names(c', j);
      } else {
        assert forall f: nat :: Names(c', f) <==> Names(c, f);
      }
    } else {
      SameFinalizersKeep(c, c');
    }
  }

  lemma EndFinish(c: Chain, j: nat, ok: bool)
    requires FinishInv(c) && CanEnd(c, j)
    ensures FinalizersOk(End(c, j, ok).jobs) && ReadyTold(End(c, j, ok))
  {
    SameFinalizersKeep(c, End(c, j, ok));
  }

  lemma CancelFinish(c: Chain, plan: seq<CancelOutcome>)
    requires FinishInv(c) && |c.rows| <= |plan|
    ensures FinalizersOk(CancelRequest(c, plan).jobs) && ReadyTold(CancelRequest(c, plan))
  {
    CancelKeepsTasks(c, |c.rows|, plan);
    ChainReports.CancelFromOnlyDeletes(c, |c.rows|, plan);
    SameFinalizersKeep(c, CancelRequest(c, plan));
  }

  /** A chain with a new sandbox that is not ready, and at most one new finalizer, which is for it. */
  lemma EnqueueFinish(c: Chain, c': Chain)
    requires FinalizersOk(c.jobs) && |c.jobs| <= |c'.jobs| && c'.jobs[..|c.jobs|] == c.jobs
    requires forall j: nat | |c.jobs| <= j < |c'.jobs| - 1 :: !c'.jobs[j].task.ReadyTask?
    requires c'.sandbox.Some? && !c'.sandbox.value.ready
    requires forall f: nat | f < |c.jobs| :: c.jobs[f].task != ReadyTask(c'.sandbox.value.id)
    requires |c'.jobs| > |c.jobs| ==>
               c'.jobs[|c'.jobs| - 1].task == ReadyTask(c'.sandbox.value.id) && c'.jobs[|c'.jobs| - 1].status == Waiting
    ensures FinalizersOk(c'.jobs) && ReadyTold(c')
  {
    assert forall j: nat | j < |c.jobs| :: c'.jobs[j] == c'.jobs[..|c.jobs|][j];
  }

  lemma AllocateFinish(netbird: bool, grouped: bool)
    ensures FinalizersOk(AllocateUnit(netbird, grouped).jobs) && ReadyTold(AllocateUnit(netbird, grouped))
  {
    var created := EMPTY.(rows := FRESH_ROWS, sandbox := Some(Sandbox(0, false)), nextSandbox := 1);
    assert Positions(0) == [0, 1, 2];
    EnqueuedTasks(created, 0, ReadyTask(0), netbird, grouped);
    EnqueueShape(created, Positions(0), ReadyTask(0), netbird, grouped);
    hide EnqueueRequest;
    EnqueueFinish(EMPTY, AllocateUnit(netbird, grouped));
  }

  lemma RestartFinish(c: Chain, netbird: bool)
    requires FinishInv(c)
    ensures FinalizersOk(RestartRequest(c, netbird).jobs) && ReadyTold(RestartRequest(c, netbird))
  {
    var c' := RestartRequest(c, netbird);
    if c.sandbox.Some? {
      if RestartAccepted(c.rows) {
        RestartEnqueues(c, netbird);
        var final := ReadyTask(c.nextSandbox);
        EnqueuedTasks(Replaced(c), FirstFailed(c.rows), final, netbird, false);
        EnqueueShape(Replaced(c), Positions(FirstFailed(c.rows)), final, netbird, false);
        hide EnqueueRequest, Positions, RestartRequest, Inv;
        EnqueueFinish(c, c');
      } else {
        EnqueueFinish(c, c');
      }
    }
  }

  lemma CleanupFinish(c: Chain)
    requires FinishInv(c)
    ensures FinalizersOk(Step(c, CreateCleanup).jobs) && ReadyTold(Step(c, CreateCleanup))
  {
    var c' := Step(c, CreateCleanup);
    assert Positions(0) == [0, 1, 2];
    EnqueuedTasks(c.(rows := FRESH_ROWS), 0, DeleteUnitTask, false, false);
    hide EnqueueRequest, Inv;
    assert forall f: nat :: Names(c', f) <==> Names(c, f);
  }

  lemma {:induction false} StepFinish(c: Chain, a: Action)
    requires FinishInv(c)
    ensures FinishInv(Step(c, a))
  {
    StepInv(c, a);
    StepKeepsIds(c, a);
    hide Inv, SandboxIdsUsed, FinalizersOk, ReadyTold, Start, End, EndUncleanedStage, CancelRequest, RestartRequest,
         EnqueueRequest, AllocateUnit;
    if Enabled(c, a) {
      match a
      case Allocate(netbird, grouped) => AllocateFinish(netbird, grouped);
      case StartJob(j) => StartFinish(c, j);
      case EndJob(j, ok) => EndFinish(c, j, ok);
      case EndUncleaned(j) => EndUncleanedFinish(c, j);
      case HandleFailure(j, plan) => HandleFinish(c, j, plan);
      case Cancel(plan) => CancelFinish(c, plan);
      case Restart(netbird) => RestartFinish(c, netbird);
      case DropSandbox => DropFinish(c);
      case CreateCleanup => CleanupFinish(c);
    }
  }

  lemma EndUncleanedFinish(c: Chain, j: nat)
    requires FinishInv(c) && CanEndUncleaned(c, j)
    ensures FinalizersOk(EndUncleanedStage(c, j).jobs) && ReadyTold(EndUncleanedStage(c, j))
  {
    SameFinalizersKeep(c, EndUncleanedStage(c, j));
  }

  lemma HandleFinish(c: Chain, j: nat, plan: seq<CancelOutcome>)
    requires FinishInv(c) && |c.rows| <= |plan| && j in c.handlers
    ensures FinalizersOk(HandleFailed(c, j, plan).jobs) && ReadyTold(HandleFailed(c, j, plan))
  {
    var c1 := c.(handlers := c.handlers - {j});
    SameFinalizersKeep(c, c1);
    CancelFinish(c1, plan);
  }

  lemma DropFinish(c: Chain)
    requires FinishInv(c)
    ensures FinalizersOk(Step(c, DropSandbox).jobs) && ReadyTold(Step(c, DropSandbox))
  {
  }

  lemma {:induction false} RunFinish(actions: seq<Action>)
    ensures FinishInv(Run(EMPTY, actions))
  {
    hide FinishInv;
    if actions == [] {
      EmptyFinish();
    } else {
      RunFinish(actions[..|actions| - 1]);
      StepFinish(Run(EMPTY, actions[..|actions| - 1]), actions[|actions| - 1]);
    }
  }

  lemma EmptyFinish()
    ensures FinishInv(EMPTY)
  {
  }

  /** At every moment with a sandbox: it is ready exactly when a finalizer that names it has succeeded. */
  lemma {:induction false} ReadyIff(actions: seq<Action>)
    requires Run(EMPTY, actions).sandbox.Some?
    ensures var c := Run(EMPTY, actions);
            c.sandbox.value.ready <==>
              exists f: nat | f < |c.jobs| ::
                c.jobs[f].task == ReadyTask(c.sandbox.value.id) && c.jobs[f].status == Succeeded
  {
    RunFinish(actions);
    var c := Run(EMPTY, actions);
    hide Run, Inv, SandboxIdsUsed;
    if c.sandbox.value.ready {
      var f: nat :| f < |c.jobs| && Names(c, f);
      assert c.jobs[f].task == ReadyTask(c.sandbox.value.id) && c.jobs[f].status == Succeeded;
    }
    if f: nat :| f < |c.jobs| && c.jobs[f].task == ReadyTask(c.sandbox.value.id) && c.jobs[f].status == Succeeded {
      assert Names(c, f);
    }
  }

  // ---- A good allocation gets ready ----

  /** A finalizer waits for one job, of a user stage. */
  ghost predicate WaitsForOne(jobs: seq<Job>, f: nat)
    requires f < |jobs|
  {
    exists u: nat :: jobs[f].deps == {u}
  }

  /** The finalizer of the sandbox that is there waits for the job that the user stage records. */
  ghost predicate WaitsForThis(c: Chain, f: nat) {
    Names(c, f) ==> |c.rows| == 3 && c.rows[2].job.Some? && c.jobs[f].deps == {c.rows[2].job.value}
  }

  ghost predicate DepsOk(c: Chain) {
    && (forall f: nat | f < |c.jobs| && c.jobs[f].task.ReadyTask? :: WaitsForOne(c.jobs, f))
    && (forall f: nat | f < |c.jobs| :: WaitsForThis(c, f))
  }

  ghost predicate GoodInv(c: Chain) {
    ReadyInv(c) && FinishInv(c) && DepsOk(c)
  }

  /** Jobs depend on what they depended on, and the user stage records the job that it recorded. */
  predicate SameDeps(c: Chain, c': Chain) {
    && |c'.jobs| == |c.jobs| && |c'.rows| == |c.rows|
    && (forall j: nat | j < |c.jobs| :: c'.jobs[j].task == c.jobs[j].task && c'.jobs[j].deps == c.jobs[j].deps)
    && (|c.rows| == 3 ==> c'.rows[2].job == c.rows[2].job)
  }

  lemma SameDepsKeep(c: Chain, c': Chain)
    requires DepsOk(c) && SameDeps(c, c') && c'.sandbox == c.sandbox
    ensures DepsOk(c')
  {
    forall f: nat | f < |c'.jobs|
      ensures WaitsForThis(c', f) && (c'.jobs[f].task.ReadyTask? ==> WaitsForOne(c'.jobs, f))
    {
      assert WaitsForThis(c, f) && (c.jobs[f].task.ReadyTask? ==> WaitsForOne(c.jobs, f));
    }
  }

  lemma StartSameDeps(c: Chain, j: nat)
    requires CanStart(c, j)
    ensures SameDeps(c, Start(c, j))
    ensures c.sandbox.Some? ==> Start(c, j).sandbox.Some? && Start(c, j).sandbox.value.id == c.sandbox.value.id
  {
  }

  lemma StartDeps(c: Chain, j: nat)
    requires GoodInv(c) && CanStart(c, j)
    ensures DepsOk(Start(c, j))
  {
    var c' := Start(c, j);
    StartSameDeps(c, j);
    if c.jobs[j].task.ReadyTask? && c.sandbox.None? {
      FinalizerJobIsCurrent(c, j);
      forall f: nat | f < |c'.jobs|
        ensures WaitsForThis(c', f) && (c'.jobs[f].task.ReadyTask? ==> WaitsForOne(c'.jobs, f))
      {
        assert c.jobs[f].task.ReadyTask? ==> WaitsForOne(c.jobs, f);
      }
    } else {
      SameDepsWhenNamed(c, c');
    }
  }

  lemma SameDepsWhenNamed(c: Chain, c': Chain)
    requires DepsOk(c) && SameDeps(c, c')
    requires c.sandbox.Some? <==> c'.sandbox.Some?
    requires c.sandbox.Some? ==> c'.sandbox.value.id == c.sandbox.value.id
    ensures DepsOk(c')
  {
    forall f: nat | f < |c'.jobs|
      ensures WaitsForThis(c', f) && (c'.jobs[f].task.ReadyTask? ==> WaitsForOne(c'.jobs, f))
    {
      assert WaitsForThis(c, f) && (c.jobs[f].task.ReadyTask? ==> WaitsForOne(c.jobs, f));
    }
  }

  /** A finalizer that can begin waited for the job that the user stage still records. */
  lemma FinalizerJobIsCurrent(c: Chain, f: nat)
    requires ReadyInv(c) && DepsOk(c) && CanStart(c, f) && c.jobs[f].task.ReadyTask?
    ensures |c.rows| == 3 && c.rows[2].job.Some? && c.jobs[f].deps == {c.rows[2].job.value}
  {
    assert WaitsForUserStage(c.jobs, f) && WaitsForOne(c.jobs, f);
    var u :| u in c.jobs[f].deps && u < |c.jobs| && c.jobs[u].task == StageTask(LAST);
    assert Current(c, u, LAST);
  }

  lemma {:induction false} CancelDeps(c: Chain, n: nat, plan: seq<CancelOutcome>)
    requires n <= |c.rows| && n <= |plan|
    ensures SameDeps(c, CancelFrom(c, n, plan)) && CancelFrom(c, n, plan).sandbox == c.sandbox
    decreases n
  {
    if n > 0 {
      CancelDeps(CancelStage(c, n - 1, plan[n - 1]), n - 1, plan);
    }
  }

  lemma CancelRequestDeps(c: Chain, plan: seq<CancelOutcome>)
    requires DepsOk(c) && |c.rows| <= |plan|
    ensures DepsOk(CancelRequest(c, plan))
  {
    CancelDeps(c, |c.rows|, plan);
    SameDepsKeep(c, CancelRequest(c, plan));
  }

  /** Enqueuing for a new sandbox: its finalizer waits for the job that the user stage now records. */
  lemma EnqueueDeps(c0: Chain, c: Chain, k: nat, s: nat, netbird: bool, grouped: bool)
    requires DepsOk(c0) && c.jobs == c0.jobs && k < 3
    requires JobsOk(c.jobs) && RowsOk(c.rows, c.jobs, k) && (k > 0 ==> JobSucceeded(c.rows[k - 1], c.jobs))
    requires c.sandbox.Some? && c.sandbox.value.id == s
    requires forall f: nat | f < |c.jobs| :: c.jobs[f].task != ReadyTask(s)
    ensures DepsOk(EnqueueRequest(c, Positions(k), ReadyTask(s), netbird, grouped))
  {
    var c' := EnqueueRequest(c, Positions(k), ReadyTask(s), netbird, grouped);
    EnqueueRequestInv(c, k, ReadyTask(s), netbird, grouped);
    EnqueuedTasks(c, k, ReadyTask(s), netbird, grouped);
    InvHasThree(c');
    hide EnqueueRequest, Positions, Inv, JobsOk, RowsOk;
    forall f: nat | f < |c'.jobs|
      ensures WaitsForThis(c', f) && (c'.jobs[f].task.ReadyTask? ==> WaitsForOne(c'.jobs, f))
    {
      if f < |c.jobs| {
        assert c0.jobs[f].task.ReadyTask? ==> WaitsForOne(c0.jobs, f);
      }
    }
  }

  lemma RestartDeps(c: Chain, netbird: bool)
    requires GoodInv(c)
    ensures DepsOk(RestartRequest(c, netbird))
  {
    var c' := RestartRequest(c, netbird);
    if c.sandbox.Some? && RestartAccepted(c.rows) {
      RestartEnqueuesSuffix(c, netbird);
      hide ReadyInv, FinalizersOk, ReadyTold, RestartRequest, EnqueueRequest, Positions;
      EnqueueDeps(c, Replaced(c), FirstFailed(c.rows), c.nextSandbox, netbird, false);
    } else if c.sandbox.Some? {
      forall f: nat | f < |c'.jobs|
        ensures WaitsForThis(c', f) && (c'.jobs[f].task.ReadyTask? ==> WaitsForOne(c'.jobs, f))
      {
        assert c.jobs[f].task.ReadyTask? ==> WaitsForOne(c.jobs, f);
      }
    }
  }

  lemma AllocateDeps(netbird: bool, grouped: bool)
    ensures DepsOk(AllocateUnit(netbird, grouped))
  {
    assert Positions(0) == [0, 1, 2];
    EnqueueDeps(EMPTY, EMPTY.(rows := FRESH_ROWS, sandbox := Some(Sandbox(0, false)), nextSandbox := 1), 0, 0, netbird,
                grouped);
  }

  lemma StepDeps(c: Chain, a: Action)
    requires GoodInv(c) && !a.CreateCleanup?
    ensures DepsOk(Step(c, a))
  {
    hide ReadyInv, FinishInv, DepsOk, Start, RestartRequest, CancelRequest, AllocateUnit;
    if Enabled(c, a) {
      match a
      case Allocate(netbird, grouped) => AllocateDeps(netbird, grouped);
      case StartJob(j) => StartDeps(c, j);
      case EndJob(j, ok) => SameDepsKeep(c, End(c, j, ok));
      case EndUncleaned(j) => SameDepsKeep(c, EndUncleanedStage(c, j));
      case HandleFailure(j, plan) =>
        SameDepsKeep(c, c.(handlers := c.handlers - {j}));
        CancelRequestDeps(c.(handlers := c.handlers - {j}), plan);
      case Cancel(plan) => CancelRequestDeps(c, plan);
      case Restart(netbird) => RestartDeps(c, netbird);
      case DropSandbox => DropDeps(c);
    }
  }

  lemma DropDeps(c: Chain)
    requires DepsOk(c)
    ensures DepsOk(c.(sandbox := None))
  {
    forall f: nat | f < |c.jobs| && c.jobs[f].task.ReadyTask?
      ensures WaitsForOne(c.(sandbox := None).jobs, f)
    {
      assert WaitsForOne(c.jobs, f);
    }
  }

  lemma {:induction false} RunGood(actions: seq<Action>)
    requires AllocationRun(actions)
    ensures GoodInv(Run(EMPTY, actions))
  {
    hide ReadyInv, FinishInv, DepsOk;
    RunReady(actions);
    RunFinish(actions);
    if actions == [] {
      EmptyDeps();
    } else {
      RunGood(actions[..|actions| - 1]);
      StepDeps(Run(EMPTY, actions[..|actions| - 1]), actions[|actions| - 1]);
    }
  }

  lemma EmptyDeps()
    ensures DepsOk(EMPTY)
  {
  }

  /**
   At every moment of an allocation: when all stages went well and a finalizer of the sandbox that is there is
   registered, the sandbox is ready, or that finalizer can begin at once and makes it ready.
   */
  lemma {:induction false} GoodAllocationGetsReady(actions: seq<Action>)
    requires AllocationRun(actions)
    requires AllOk(Run(EMPTY, actions).rows) && Awaited(Run(EMPTY, actions))
    ensures var c := Run(EMPTY, actions);
            c.sandbox.value.ready
            || exists f: nat | f < |c.jobs| ::
                 CanStart(c, f) && Step(c, StartJob(f)).sandbox == Some(Sandbox(c.sandbox.value.id, true))
  {
    RunGood(actions);
    var c := Run(EMPTY, actions);
    if !c.sandbox.value.ready {
      var f: nat :| f < |c.jobs| && c.jobs[f].task == ReadyTask(c.sandbox.value.id) && !c.jobs[f].deleted;
      assert Names(c, f) && WaitsForThis(c, f);
      assert RowOk(c.rows[2], c.jobs, 2);
      hide Run, ReadyInv, DepsOk, SandboxIdsUsed, FinalizersOk;
      assert CanStart(c, f);
      FinalizerMakesReady(c, f, c.sandbox.value.id);
    }
  }
}
