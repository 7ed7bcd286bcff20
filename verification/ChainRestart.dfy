/**
 Restarting and listing a request over all runs: what an accepted restart rebuilds, what a rejected
 one costs, and the shape of a finished listing.
 */
module ChainRestart {
  import opened Common
  import opened StageChain
  import opened ChainSafety
  import opened ChainReady
  import opened ChainProgress

  // ---- An accepted restart ----

  /** The chain an accepted restart enqueues onto. */
  function Replaced(c: Chain): Chain
    requires |c.rows| == 3
  {
    c.(sandbox := Some(Sandbox(c.nextSandbox, false)), nextSandbox := c.nextSandbox + 1, rows := RestartRows(c.rows).0)
  }

  lemma RestartEnqueuesSuffix(c: Chain, netbird: bool)
    requires Inv(c) && c.sandbox.Some? && RestartAccepted(c.rows)
    ensures var k := FirstFailed(c.rows);
            && k < 3
            && RestartRequest(c, netbird)
               == EnqueueRequest(Replaced(c), Positions(k), ReadyTask(c.nextSandbox), netbird, false)
            && Replaced(c).rows == c.rows[..k] + FRESH_ROWS[k..]
            && (forall p: nat | p < k :: Ok(c.rows[p]))
            && (forall p: nat | k <= p < 3 :: c.rows[p].failed)
            && JobsOk(c.jobs) && RowsOk(Replaced(c).rows, c.jobs, k)
            && (k > 0 ==> JobSucceeded(Replaced(c).rows[k - 1], c.jobs))
  {
    RestartKeepsPrefix(c);
    FinishedIsClosed(c);
    assert forall p: nat | p < 3 :: c.rows[p] in c.rows;
  }

  /** The row at `p` after an accepted restart that rebuilds from `k` on and numbers its stage jobs from `first`. */
  predicate RebuiltAt(c: Chain, c': Chain, k: nat, first: nat, p: nat) {
    && p < |c.rows| && p < |c'.rows|
    && (p < k ==> c'.rows[p] == c.rows[p] && Ok(c.rows[p]))
    && (p >= k ==>
          && first + p - k < |c'.jobs|
          && c.rows[p].failed && c'.rows[p] == FRESH_ROW.(job := Some(first + p - k))
          && c'.jobs[first + p - k].task == StageTask(p))
  }

  lemma RebuiltRow(c: Chain, c': Chain, k: nat, first: nat, p: nat)
    requires k <= p < 3 == |c.rows| == |c'.rows| && c.rows[p].failed
    requires c'.rows[p] == FRESH_ROW.(job := Some(first + p - k))
    requires first + p - k < |c'.jobs| && c'.jobs[first + p - k].task == StageTask(p)
    ensures RebuiltAt(c, c', k, first, p)
  {
  }

  lemma KeptRow(c: Chain, c': Chain, k: nat, first: nat, p: nat)
    requires p < k < 3 == |c.rows| == |c'.rows| && c'.rows[..k] == c.rows[..k] && Ok(c.rows[p])
    ensures RebuiltAt(c, c', k, first, p)
  {
    assert c'.rows[p] == c'.rows[..k][p] == c.rows[..k][p];
  }

  lemma RestartAt(c: Chain, netbird: bool, p: nat)
    requires Inv(c) && c.sandbox.Some? && RestartAccepted(c.rows) && p < 3
    ensures RebuiltAt(c, RestartRequest(c, netbird), FirstFailed(c.rows), |c.jobs| + if netbird then 1 else 0, p)
  {
    RestartEnqueuesSuffix(c, netbird);
    hide Inv, JobsOk, RowsOk, JobSucceeded, RestartRequest, EnqueueRequest, RestartRows, Positions, FirstFailed,
         Finished, RebuiltAt, Replaced;
    if p >= FirstFailed(c.rows) {
      RestartAtNew(c, Replaced(c), FirstFailed(c.rows), netbird, p);
    } else {
      RestartAtOld(c, Replaced(c), FirstFailed(c.rows), netbird, p);
    }
  }

  lemma RestartAtNew(c: Chain, replaced: Chain, k: nat, netbird: bool, p: nat)
    requires k <= p < 3 == |c.rows| && c.rows[p].failed
    requires replaced.rows == c.rows[..k] + FRESH_ROWS[k..] && replaced.jobs == c.jobs
    ensures RebuiltAt(c, EnqueueRequest(replaced, Positions(k), ReadyTask(c.nextSandbox), netbird, false), k,
                      |c.jobs| + if netbird then 1 else 0, p)
  {
    NewRowWaits(replaced, k, ReadyTask(c.nextSandbox), netbird, false, p);
    hide EnqueueRequest, Positions, RebuiltAt;
    assert replaced.rows[p] == FRESH_ROW;
    RebuiltRow(c, EnqueueRequest(replaced, Positions(k), ReadyTask(c.nextSandbox), netbird, false), k,
               |c.jobs| + if netbird then 1 else 0, p);
  }

  lemma RestartAtOld(c: Chain, replaced: Chain, k: nat, netbird: bool, p: nat)
    requires p < k < 3 == |c.rows| && Ok(c.rows[p])
    requires replaced.rows == c.rows[..k] + FRESH_ROWS[k..] && replaced.jobs == c.jobs
    requires JobsOk(c.jobs) && RowsOk(replaced.rows, c.jobs, k) && JobSucceeded(replaced.rows[k - 1], c.jobs)
    ensures RebuiltAt(c, EnqueueRequest(replaced, Positions(k), ReadyTask(c.nextSandbox), netbird, false), k,
                      |c.jobs| + if netbird then 1 else 0, p)
  {
    EnqueueRequestInv(replaced, k, ReadyTask(c.nextSandbox), netbird, false);
    hide EnqueueRequest, Positions, RebuiltAt, JobsOk, RowsOk;
    var c' := EnqueueRequest(replaced, Positions(k), ReadyTask(c.nextSandbox), netbird, false);
    InvHasThree(c');
    assert replaced.rows[..k] == c.rows[..k];
    KeptRow(c, c', k, |c.jobs| + if netbird then 1 else 0, p);
  }

  lemma InvHasThree(c: Chain)
    requires Inv(c) && c.jobs != []
    ensures |c.rows| == 3
  {
  }

  /**
   From `c` to `c'` the rows before the first failed stage are kept, every row from there on is a fresh
   one, and exactly these stages are enqueued, in chain order, between the optional provisioning job and
   the finalizer of the new sandbox.
   */
  predicate RebuiltSuffix(c: Chain, c': Chain, netbird: bool)
    requires |c.rows| == 3
  {
    var k := FirstFailed(c.rows);
    var first := |c.jobs| + if netbird then 1 else 0;
    && k < 3 && |c'.rows| == 3 && |c'.jobs| == first + 4 - k
    && (forall p: nat | p < 3 :: RebuiltAt(c, c', k, first, p))
    && c'.jobs[|c'.jobs| - 1].task == ReadyTask(c.nextSandbox)
  }

  lemma {:induction false} AcceptedRestart(c: Chain, netbird: bool)
    requires Inv(c) && c.sandbox.Some? && RestartAccepted(c.rows)
    ensures RebuiltSuffix(c, RestartRequest(c, netbird), netbird)
  {
    hide RebuiltAt, RestartRequest, RestartRows, EnqueueRequest;
    RestartEnqueuesSuffix(c, netbird);
    NewRowWaits(Replaced(c), FirstFailed(c.rows), ReadyTask(c.nextSandbox), netbird, false, 2);
    RestartAt(c, netbird, 0);
    RestartAt(c, netbird, 1);
    RestartAt(c, netbird, 2);
  }

  /** After any run, an accepted restart rebuilds exactly the failed suffix. */
  lemma {:induction false} RestartRebuildsFailedSuffix(actions: seq<Action>, netbird: bool)
    requires var c := Run(EMPTY, actions); c.sandbox.Some? && RestartAccepted(c.rows)
    ensures var c := Run(EMPTY, actions);
            RebuiltSuffix(c, Step(c, Restart(netbird)), netbird)
  {
    hide Run, RebuiltSuffix, RestartRequest;
    RunInv(actions);
    AcceptedRestart(Run(EMPTY, actions), netbird);
  }

  // ---- A rejected restart ----

  /** Finalizers name sandboxes that were created before. */
  predicate SandboxIdsUsed(c: Chain) {
    && (forall f | 0 <= f < |c.jobs| && c.jobs[f].task.ReadyTask? :: c.jobs[f].task.sandbox < c.nextSandbox)
    && (c.sandbox.Some? ==> c.sandbox.value.id < c.nextSandbox)
  }

  lemma {:induction false} CancelKeepsTasks(c: Chain, n: nat, plan: seq<CancelOutcome>)
    requires n <= |c.rows| && n <= |plan|
    ensures var c' := CancelFrom(c, n, plan);
            && |c'.jobs| == |c.jobs| && (forall j: nat | j < |c.jobs| :: c'.jobs[j].task == c.jobs[j].task)
            && c'.sandbox == c.sandbox && c'.nextSandbox == c.nextSandbox
    decreases n
  {
    if n > 0 {
      CancelKeepsTasks(CancelStage(c, n - 1, plan[n - 1]), n - 1, plan);
    }
  }

  /** Only one finalizer is new. */
  lemma EnqueuedTasks(c: Chain, k: nat, final: Task, netbird: bool, grouped: bool)
    requires k < 3 == |c.rows|
    ensures var c' := EnqueueRequest(c, Positions(k), final, netbird, grouped);
            && |c.jobs| < |c'.jobs| && c'.sandbox == c.sandbox && c'.nextSandbox == c.nextSandbox
            && (forall j: nat | j < |c.jobs| :: c'.jobs[j] == c.jobs[j])
            && (forall j: nat | |c.jobs| <= j < |c'.jobs| - 1 :: !c'.jobs[j].task.ReadyTask?)
            && c'.jobs[|c'.jobs| - 1].task == final && !c'.jobs[|c'.jobs| - 1].deleted
  {
    EnqueueShape(c, Positions(k), final, netbird, grouped);
    var c' := EnqueueRequest(c, Positions(k), final, netbird, grouped);
    assert forall j: nat | j < |c.jobs| :: c'.jobs[j] == c'.jobs[..|c.jobs|][j];
  }

  lemma EnqueueKeepsIds(c: Chain, k: nat, final: Task, netbird: bool, grouped: bool)
    requires k < 3 == |c.rows| && SandboxIdsUsed(c) && (final.ReadyTask? ==> final.sandbox < c.nextSandbox)
    ensures SandboxIdsUsed(EnqueueRequest(c, Positions(k), final, netbird, grouped))
  {
    EnqueuedTasks(c, k, final, netbird, grouped);
    hide EnqueueRequest, Positions;
  }

  lemma CancelKeepsIds(c: Chain, plan: seq<CancelOutcome>)
    requires SandboxIdsUsed(c) && |c.rows| <= |plan|
    ensures SandboxIdsUsed(CancelRequest(c, plan))
  {
    CancelKeepsTasks(c, |c.rows|, plan);
  }

  lemma WorkKeepsIds(c: Chain, j: nat)
    requires SandboxIdsUsed(c)
    ensures CanStart(c, j) ==> SandboxIdsUsed(Start(c, j))
    ensures forall ok :: CanEnd(c, j) ==> SandboxIdsUsed(End(c, j, ok))
    ensures CanEndUncleaned(c, j) ==> SandboxIdsUsed(EndUncleanedStage(c, j))
  {
  }

  lemma StepKeepsIds(c: Chain, a: Action)
    requires Inv(c) && SandboxIdsUsed(c)
    ensures SandboxIdsUsed(Step(c, a))
  {
    assert Positions(0) == [0, 1, 2];
    hide Inv, EnqueueRequest, Positions, Start, End, EndUncleanedStage, CancelRequest, RestartRequest;
    if Enabled(c, a) {
      match a
      case Allocate(netbird, grouped) =>
        EnqueueKeepsIds(EMPTY.(rows := FRESH_ROWS, sandbox := Some(Sandbox(0, false)), nextSandbox := 1), 0,
                        ReadyTask(0), netbird, grouped);
      case StartJob(j) => WorkKeepsIds(c, j);
      case EndJob(j, ok) => WorkKeepsIds(c, j);
      case EndUncleaned(j) => WorkKeepsIds(c, j);
      case HandleFailure(j, plan) => CancelKeepsIds(c.(handlers := c.handlers - {j}), plan);
      case Cancel(plan) => CancelKeepsIds(c, plan);
      case Restart(netbird) => RestartKeepsIds(c, netbird);
      case DropSandbox =>
      case CreateCleanup => EnqueueKeepsIds(c.(rows := FRESH_ROWS), 0, DeleteUnitTask, false, false);
    }
  }

  /** What an accepted restart enqueues onto, without looking at the rows. */
  lemma RestartEnqueues(c: Chain, netbird: bool)
    requires Inv(c) && c.sandbox.Some? && RestartAccepted(c.rows)
    ensures var k := FirstFailed(c.rows);
            k < 3 && |Replaced(c).rows| == 3
            && RestartRequest(c, netbird)
               == EnqueueRequest(Replaced(c), Positions(k), ReadyTask(c.nextSandbox), netbird, false)
  {
    RestartEnqueuesSuffix(c, netbird);
  }

  lemma RestartKeepsIds(c: Chain, netbird: bool)
    requires Inv(c) && SandboxIdsUsed(c)
    ensures SandboxIdsUsed(RestartRequest(c, netbird))
  {
    if c.sandbox.Some? && RestartAccepted(c.rows) {
      RestartEnqueues(c, netbird);
      EnqueueKeepsIds(Replaced(c), FirstFailed(c.rows), ReadyTask(c.nextSandbox), netbird, false);
    }
  }

  lemma {:induction false} RunKeepsIds(actions: seq<Action>)
    ensures SandboxIdsUsed(Run(EMPTY, actions))
  {
    if actions != [] {
      RunKeepsIds(actions[..|actions| - 1]);
      RunInv(actions[..|actions| - 1]);
      StepKeepsIds(Run(EMPTY, actions[..|actions| - 1]), actions[|actions| - 1]);
    }
  }

  /** A finalizer, deleted or not, names the sandbox that is there. */
  predicate Named(c: Chain) {
    && c.sandbox.Some?
    && exists f: nat | f < |c.jobs| :: c.jobs[f].task == ReadyTask(c.sandbox.value.id)
  }

  /** A registered one does. */
  predicate Awaited(c: Chain) {
    && c.sandbox.Some?
    && exists f: nat | f < |c.jobs| :: c.jobs[f].task == ReadyTask(c.sandbox.value.id) && !c.jobs[f].deleted
  }

  lemma RestartNames(c: Chain, netbird: bool)
    requires Inv(c) && SandboxIdsUsed(c) && c.sandbox.Some?
    ensures var c' := RestartRequest(c, netbird);
            && c'.sandbox.Some? && !c'.sandbox.value.ready
            && (RestartAccepted(c.rows) ==> Awaited(c'))
            && (!RestartAccepted(c.rows) ==> !Named(c'))
  {
    if RestartAccepted(c.rows) {
      RestartEnqueues(c, netbird);
      EnqueuedTasks(Replaced(c), FirstFailed(c.rows), ReadyTask(c.nextSandbox), netbird, false);
      hide Inv, RestartRequest, EnqueueRequest, Positions, RestartAccepted;
      var c' := RestartRequest(c, netbird);
      assert c'.jobs[|c'.jobs| - 1].task == ReadyTask(c'.sandbox.value.id);
    }
  }

  /**
   At every moment with a sandbox: a restart leaves a sandbox that some registered finalizer will mark as
   ready exactly when it is accepted, that is when all stages are finished and the last one failed.
   */
  lemma {:induction false} RestartAwaitedIff(actions: seq<Action>, netbird: bool)
    requires Run(EMPTY, actions).sandbox.Some?
    ensures var c := Run(EMPTY, actions);
            Awaited(Step(c, Restart(netbird))) <==> RestartAccepted(c.rows)
  {
    hide Run, RestartRequest;
    RunInv(actions);
    RunKeepsIds(actions);
    RestartNames(Run(EMPTY, actions), netbird);
  }

  /** The sandbox is there, not ready, and no finalizer names it. */
  ghost predicate Stranded(c: Chain) {
    Inv(c) && SandboxIdsUsed(c) && c.sandbox.Some? && !c.sandbox.value.ready && !Named(c)
  }

  /** A restart that is accepted in `c`. */
  predicate AcceptedIn(c: Chain, a: Action) {
    a.Restart? && c.sandbox.Some? && RestartAccepted(c.rows)
  }

  lemma StrandedStays(c: Chain, a: Action)
    requires Stranded(c) && !a.DropSandbox? && !AcceptedIn(c, a)
    ensures Stranded(Step(c, a))
  {
    StepInv(c, a);
    StepKeepsIds(c, a);
    hide Inv, SandboxIdsUsed;
    if Enabled(c, a) {
      match a
      case StartJob(j) => StrandedStart(c, j);
      case EndJob(j, ok) => StrandedEnd(c, j, ok);
      case EndUncleaned(j) => StrandedEnd(AddReport(c, c.jobs[j].grouped, EndReport), j, false);
      case HandleFailure(j, plan) => StrandedCancel(c.(handlers := c.handlers - {j}), plan);
      case Cancel(plan) => StrandedCancel(c, plan);
      case Restart(netbird) => StrandedRestart(c, netbird);
      case CreateCleanup => StrandedCleanup(c);
      case _ =>
    }
  }

  predicate Unready(c: Chain) {
    c.sandbox.Some? && !c.sandbox.value.ready && !Named(c)
  }

  lemma StrandedStart(c: Chain, j: nat)
    requires Unready(c) && CanStart(c, j)
    ensures Unready(Start(c, j))
  {
    assert c.jobs[j].task != ReadyTask(c.sandbox.value.id);
    SameTasks(c, Start(c, j));
  }

  lemma StrandedEnd(c: Chain, j: nat, ok: bool)
    requires Unready(c) && CanEnd(c, j)
    ensures Unready(End(c, j, ok))
  {
    SameTasks(c, End(c, j, ok));
  }

  lemma StrandedCancel(c: Chain, plan: seq<CancelOutcome>)
    requires Unready(c) && |c.rows| <= |plan|
    ensures Unready(CancelRequest(c, plan))
  {
    CancelKeepsTasks(c, |c.rows|, plan);
    SameTasks(c, CancelRequest(c, plan));
  }

  lemma SameTasks(c: Chain, c': Chain)
    requires Unready(c) && c'.sandbox == c.sandbox && |c'.jobs| == |c.jobs|
    requires forall j: nat | j < |c.jobs| :: c'.jobs[j].task == c.jobs[j].task
    ensures Unready(c')
  {
  }

  lemma StrandedRestart(c: Chain, netbird: bool)
    requires Stranded(c) && !RestartAccepted(c.rows)
    ensures Unready(RestartRequest(c, netbird))
  {
    RestartNames(c, netbird);
  }

  lemma StrandedCleanup(c: Chain)
    requires Stranded(c)
    ensures Unready(Step(c, CreateCleanup))
  {
    assert Positions(0) == [0, 1, 2];
    EnqueuedTasks(c.(rows := FRESH_ROWS), 0, DeleteUnitTask, false, false);
    hide EnqueueRequest;
  }

  /** The sandbox is never dropped, and every restart is rejected. */
  ghost predicate NoWayOut(c: Chain, actions: seq<Action>) {
    actions == [] ||
    (var n := |actions| - 1;
     NoWayOut(c, actions[..n]) && !actions[n].DropSandbox? && !AcceptedIn(Run(c, actions[..n]), actions[n]))
  }

  lemma {:induction false} StrandedRun(c: Chain, actions: seq<Action>)
    requires Stranded(c) && NoWayOut(c, actions)
    ensures Stranded(Run(c, actions))
  {
    hide Stranded, AcceptedIn;
    if actions != [] {
      StrandedRun(c, actions[..|actions| - 1]);
      StrandedStays(Run(c, actions[..|actions| - 1]), actions[|actions| - 1]);
    }
  }

  /**
   A rejected restart is not harmless, whether the request is still in progress or all its stages went
   well: from there on, whatever the jobs, the handlers and cancels do, the sandbox is not ready until a later
   restart is accepted or the sandbox is dropped.
   */
  lemma {:induction false} RejectedRestartStrands(before: seq<Action>, netbird: bool, later: seq<Action>)
    requires var c := Run(EMPTY, before);
             && c.sandbox.Some? && !RestartAccepted(c.rows)
             && NoWayOut(Step(c, Restart(netbird)), later)
    ensures var c := Run(Step(Run(EMPTY, before), Restart(netbird)), later);
            c.sandbox.Some? && !c.sandbox.value.ready && !Awaited(c)
  {
    RejectedIsStranded(before, netbird);
    hide Run, Inv;
    StrandedRun(Step(Run(EMPTY, before), Restart(netbird)), later);
  }

  lemma RejectedIsStranded(before: seq<Action>, netbird: bool)
    requires Run(EMPTY, before).sandbox.Some? && !RestartAccepted(Run(EMPTY, before).rows)
    ensures Stranded(Step(Run(EMPTY, before), Restart(netbird)))
  {
    hide Run, Inv, RestartRequest;
    var c := Run(EMPTY, before);
    RunInv(before);
    RunKeepsIds(before);
    RestartNames(c, netbird);
    StepInv(c, Restart(netbird));
    StepKeepsIds(c, Restart(netbird));
  }

  // ---- Once all stages went well ----

  lemma AllOkStays(c: Chain, a: Action)
    requires ReadyInv(c) && AllOk(c.rows) && !a.CreateCleanup?
    ensures AllOk(Step(c, a).rows)
  {
    if Enabled(c, a) {
      match a
      case StartJob(j) => if c.jobs[j].task.StageTask? { SettledJob(c, j); }
      case EndJob(j, ok) => if c.jobs[j].task.StageTask? { SettledJob(c, j); }
      case EndUncleaned(j) => SettledJob(c, j);
      case _ =>
    }
  }

  /** No stage job is left that would still change its row. */
  lemma SettledJob(c: Chain, j: nat)
    requires ReadyInv(c) && AllOk(c.rows) && j < |c.jobs| && c.jobs[j].task.StageTask?
    ensures Current(c, j, c.jobs[j].task.pos) ==> c.jobs[j].status == Succeeded
  {
    if Current(c, j, c.jobs[j].task.pos) {
      AllOkIsSettled(c, j, c.jobs[j].task.pos);
    }
  }

  /** Nothing but dropping the sandbox is a way out then. */
  lemma {:induction false} NoWayOutOnceOk(c: Chain, actions: seq<Action>)
    requires ReadyInv(c) && AllOk(c.rows) && AllocationRun(actions) && DropSandbox !in actions
    ensures NoWayOut(c, actions) && ReadyInv(Run(c, actions)) && AllOk(Run(c, actions).rows)
  {
    hide ReadyInv;
    if actions != [] {
      var n := |actions| - 1;
      NoWayOutOnceOk(c, actions[..n]);
      StepReady(Run(c, actions[..n]), actions[n]);
      AllOkStays(Run(c, actions[..n]), actions[n]);
    }
  }

  /**
   When all stages have gone well behind a rejected restart, at once or in the end, that is for good: short of
   dropping the sandbox nothing makes it ready any more.
   */
  lemma {:induction false} RejectedRestartNeverReadyAgain(before: seq<Action>, netbird: bool, middle: seq<Action>,
                                                          later: seq<Action>)
    requires AllocationRun(before) && AllocationRun(middle) && AllocationRun(later) && DropSandbox !in later
    requires var c := Run(EMPTY, before);
             && c.sandbox.Some? && !RestartAccepted(c.rows)
             && NoWayOut(Step(c, Restart(netbird)), middle)
             && AllOk(Run(Step(c, Restart(netbird)), middle).rows)
    ensures var c := Run(Run(Step(Run(EMPTY, before), Restart(netbird)), middle), later);
            AllOk(c.rows) && c.sandbox.Some? && !c.sandbox.value.ready
  {
    hide Run, ReadyInv, Inv, RestartRequest;
    var c0 := Step(Run(EMPTY, before), Restart(netbird));
    var c1 := Run(c0, middle);
    RunReady(before);
    StepReady(Run(EMPTY, before), Restart(netbird));
    ReadyRun(c0, middle);
    NoWayOutOnceOk(c1, later);
    RejectedIsStranded(before, netbird);
    StrandedRun(c0, middle);
    StrandedRun(c1, later);
  }

  lemma {:induction false} ReadyRun(c: Chain, actions: seq<Action>)
    requires ReadyInv(c) && AllocationRun(actions)
    ensures ReadyInv(Run(c, actions))
  {
    hide ReadyInv;
    if actions != [] {
      ReadyRun(c, actions[..|actions| - 1]);
      StepReady(Run(c, actions[..|actions| - 1]), actions[|actions| - 1]);
    }
  }

  // ---- Listing ----

  datatype StageState = InQueue | InProgress | Done | Broken

  function StateOf(row: Row): StageState {
    if !row.end && row.start then InProgress
    else if row.failed then Broken
    else if row.finished then Done
    else InQueue
  }

  /** `_get_request_stages_state`. */
  function StagesState(rows: seq<Row>): (states: seq<StageState>) {
    seq(|rows|, i requires 0 <= i < |rows| => StateOf(rows[i]))
  }

  const QUEUED := [InQueue, InQueue, InQueue]

  /** `get_allocation_request_stages_state`: stack, networking, user, which is the chain order. */
  function AllocationListing(rows: seq<Row>): seq<StageState> {
    if |rows| != 3 then QUEUED else StagesState(rows)
  }

  /** `get_cleanup_request_stages_state`: again stack, networking, user, which is the chain reversed. */
  function CleanupListing(rows: seq<Row>): seq<StageState> {
    if |rows| != 3 then QUEUED else StagesState([rows[2], rows[1], rows[0]])
  }

  /** Rows that are finished have an end, over all runs. */
  predicate EndsWithFinish(rows: seq<Row>) {
    forall r <- rows :: (r.finished <==> r.end) && (r.failed ==> r.finished)
  }

  lemma {:induction false} CancelKeepsEnds(c: Chain, n: nat, plan: seq<CancelOutcome>)
    requires n <= |c.rows| && n <= |plan| && EndsWithFinish(c.rows)
    ensures EndsWithFinish(CancelFrom(c, n, plan).rows)
    decreases n
  {
    if n > 0 {
      CancelKeepsEnds(CancelStage(c, n - 1, plan[n - 1]), n - 1, plan);
    }
  }

  lemma {:induction false} EnqueueKeepsEnds(rows: seq<Row>, jobs: seq<Job>, positions: seq<nat>, prev: Option<nat>,
                                            extra: Option<nat>, grouped: bool)
    requires forall i | 0 <= i < |positions| :: positions[i] < |rows|
    requires EndsWithFinish(rows)
    ensures EndsWithFinish(EnqueueStages(rows, jobs, positions, prev, extra, grouped).0)
    decreases |positions|
  {
    if positions != [] {
      var pos := positions[0];
      assert rows[pos] in rows;
      EnqueueKeepsEnds(rows[pos := rows[pos].(job := Some(|jobs|))],
                       jobs + [Job(StageTask(pos), StageDeps(pos, prev, extra), Waiting, false, grouped)],
                       positions[1..], Some(|jobs|), extra, grouped);
    }
  }

  lemma StepKeepsEnds(c: Chain, a: Action)
    requires EndsWithFinish(c.rows)
    ensures EndsWithFinish(Step(c, a).rows)
  {
    if Enabled(c, a) {
      match a
      case Allocate(netbird, grouped) =>
        var (jobs, extra) := EnqueueProvision([], netbird);
        EnqueueKeepsEnds(FRESH_ROWS, jobs, [0, 1, 2], None, extra, grouped);
      case HandleFailure(j, plan) => CancelKeepsEnds(c.(handlers := c.handlers - {j}), |c.rows|, plan);
      case Cancel(plan) => CancelKeepsEnds(c, |c.rows|, plan);
      case Restart(netbird) =>
        if c.sandbox.Some? && RestartAccepted(c.rows) {
          var (rows, positions) := RestartRows(c.rows);
          var (jobs, extra) := EnqueueProvision(c.jobs, netbird);
          EnqueueKeepsEnds(rows, jobs, positions, None, extra, false);
        }
      case CreateCleanup => EnqueueKeepsEnds(FRESH_ROWS, c.jobs, [0, 1, 2], None, None, false);
      case _ =>
    }
  }

  lemma {:induction false} RunKeepsEnds(actions: seq<Action>)
    ensures EndsWithFinish(Run(EMPTY, actions).rows)
  {
    if actions != [] {
      RunKeepsEnds(actions[..|actions| - 1]);
      StepKeepsEnds(Run(EMPTY, actions[..|actions| - 1]), actions[|actions| - 1]);
    }
  }

  lemma FinishedStates(c: Chain)
    requires Inv(c) && EndsWithFinish(c.rows) && c.rows != [] && Finished(c.rows)
    ensures var k := FirstFailed(c.rows);
            && |c.rows| == 3
            && (forall p: nat | p < k :: StateOf(c.rows[p]) == Done)
            && (forall p: nat | k <= p < 3 :: StateOf(c.rows[p]) == Broken)
  {
    FinishedIsClosed(c);
    assert forall p: nat | p < 3 :: c.rows[p] in c.rows;
  }

  /** A finished allocation lists the stages that went well first and then the failed ones, nothing else. */
  lemma {:induction false} FinishedAllocationListing(actions: seq<Action>)
    requires AllocationRun(actions)
    requires var c := Run(EMPTY, actions); c.rows != [] && Finished(c.rows)
    ensures var states := AllocationListing(Run(EMPTY, actions).rows); var k := FirstFailed(Run(EMPTY, actions).rows);
            && k <= |states| == 3
            && (forall p: nat | p < k :: states[p] == Done) && (forall p: nat | k <= p < 3 :: states[p] == Broken)
  {
    RunInv(actions);
    RunKeepsEnds(actions);
    FinishedStates(Run(EMPTY, actions));
  }

  /** A finished cleanup, run from the user stage back, lists the failed ones first. */
  lemma {:induction false} FinishedCleanupListing(before: seq<Action>, after: seq<Action>)
    requires forall a <- after :: !a.Restart?
    requires Finished(Run(EMPTY, before + [CreateCleanup] + after).rows)
    ensures var rows := Run(EMPTY, before + [CreateCleanup] + after).rows;
            var states := CleanupListing(rows); var k := 3 - FirstFailed(rows);
            && 0 <= k <= |states| == 3
            && (forall p: nat | p < k :: states[p] == Broken) && (forall p: nat | k <= p < 3 :: states[p] == Done)
  {
    var actions := before + [CreateCleanup] + after;
    RunInv(actions);
    RunKeepsEnds(actions);
    CleanupHasRows(before, after);
    FinishedStates(Run(EMPTY, actions));
  }

  lemma {:induction false} CleanupHasRows(before: seq<Action>, after: seq<Action>)
    requires forall a <- after :: !a.Restart?
    ensures Run(EMPTY, before + [CreateCleanup] + after).rows != []
  {
    var actions := before + [CreateCleanup] + after;
    hide Step, Inv;
    if after == [] {
      assert actions == before + [CreateCleanup] && actions[..|before|] == before;
      CleanupMakesRows(Run(EMPTY, before));
    } else {
      var n := |after| - 1;
      assert actions[..|actions| - 1] == before + [CreateCleanup] + after[..n];
      CleanupHasRows(before, after[..n]);
      RunInv(actions[..|actions| - 1]);
      RowsStay(Run(EMPTY, actions[..|actions| - 1]), after[n]);
    }
  }

  lemma CleanupMakesRows(c: Chain)
    ensures Step(c, CreateCleanup).rows != []
  {
    EnqueueStagesShape(FRESH_ROWS, c.jobs, [0, 1, 2], None, None, false);
  }

  lemma RowsStay(c: Chain, a: Action)
    requires Inv(c) && c.rows != [] && !a.Restart?
    ensures Step(c, a).rows != []
  {
    if Enabled(c, a) {
      match a
      case HandleFailure(j, plan) => CancelFromInv(c.(handlers := c.handlers - {j}), |c.rows|, plan);
      case Cancel(plan) => CancelFromInv(c, |c.rows|, plan);
      case CreateCleanup => EnqueueStagesShape(FRESH_ROWS, c.jobs, [0, 1, 2], None, None, false);
      case _ =>
    }
  }
}
