/**
 What one allocation tells its request group, over all runs: at most one report for the attempt that
 carries the group, unless removing a container raises behind it, and exactly when a report can still come.
 */
module ChainReports {
  import opened Common
  import opened StageChain
  import opened ChainSafety
  import opened ChainReady
  import opened ChainProgress

  // ---- The outcome of the attempt that carries the group, by the status of its jobs ----

  /** A stage raised. */
  predicate Raised(c: Chain) {
    exists j: nat | j < |c.jobs| :: c.jobs[j].grouped && c.jobs[j].status == Failed
  }

  /** The user stage went well, whatever became of its row. */
  predicate UserStageDone(c: Chain) {
    exists j: nat | j < |c.jobs| ::
      c.jobs[j].grouped && c.jobs[j].task == StageTask(LAST) && c.jobs[j].status in {Succeeded, Spoiled}
  }

  predicate Ended(c: Chain) {
    Raised(c) || UserStageDone(c)
  }

  predicate NextInLine(c: Chain, f: nat) {
    && f < |c.jobs| && c.jobs[f].grouped
    && forall g: nat | g < f && c.jobs[g].grouped :: c.jobs[g].status == Succeeded
  }

  /** A job that can still report: it is running, or registered with everything before it done. */
  predicate Live(c: Chain, f: nat) {
    NextInLine(c, f) && (c.jobs[f].status == Running || (c.jobs[f].status == Waiting && !c.jobs[f].deleted))
  }

  predicate CanReport(c: Chain) {
    c == EMPTY || exists f: nat | f < |c.jobs| :: Live(c, f)
  }

  /** The attempt broke off without a report: its next job was deleted, or ended behind its row. */
  predicate BrokenOff(c: Chain) {
    exists f: nat | f < |c.jobs| ::
      NextInLine(c, f) && ((c.jobs[f].status == Waiting && c.jobs[f].deleted)
                           || (c.jobs[f].status == Spoiled && c.jobs[f].task != StageTask(LAST)))
  }

  // ---- What every run keeps ----

  /** Provisioning always gets done. */
  predicate Provides(job: Job) {
    job.task.ProvisionTask? && job.deps == {} && !job.deleted && job.status in {Waiting, Running, Succeeded}
  }

  /** The jobs whose handlers carry the request group are the three of the first attempt, from `b` on. */
  ghost predicate FirstAttempt(jobs: seq<Job>, b: nat) {
    && b <= 1 && b + 2 < |jobs|
    && (forall j | 0 <= j < |jobs| :: jobs[j].grouped <==> b <= j <= b + 2)
    && jobs[b].task == StageTask(0) && jobs[b + 1].task == StageTask(1) && jobs[b + 2].task == StageTask(2)
    && jobs[b].deps == {} && jobs[b + 1].deps == {b} && jobs[b + 2].deps == {b + 1} + (if b == 1 then {0} else {})
    && (b == 1 ==> Provides(jobs[0]))
  }

  /** What the three jobs have told the group. */
  predicate Told(jobs: seq<Job>, b: nat, reports: seq<Report>)
    requires b + 2 < |jobs|
  {
    if jobs[b].status == Failed || jobs[b + 1].status == Failed then reports == [FailReport]
    else if jobs[b + 2].status == Failed then reports == [FailReport] || reports == [EndReport, FailReport]
    else reports == if jobs[b + 2].status in {Succeeded, Spoiled} then [EndReport] else []
  }

  ghost predicate ReportsMatch(c: Chain, b: nat) {
    FirstAttempt(c.jobs, b) && Told(c.jobs, b, c.reports)
  }

  ghost predicate Ungrouped(c: Chain) {
    c.reports == [] && forall j | 0 <= j < |c.jobs| :: !c.jobs[j].grouped
  }

  ghost predicate ReportInv(c: Chain) {
    Inv(c) && (Ungrouped(c) || exists b: nat :: ReportsMatch(c, b))
  }

  /** At most one job of the first attempt has begun and not succeeded. */
  lemma AttemptInOrder(jobs: seq<Job>, b: nat)
    requires JobsOk(jobs) && FirstAttempt(jobs, b)
    ensures jobs[b + 2].status != Waiting ==> jobs[b + 1].status == Succeeded
    ensures jobs[b + 1].status != Waiting ==> jobs[b].status == Succeeded
  {
    assert b in jobs[b + 1].deps && b + 1 in jobs[b + 2].deps;
  }

  /** What a job that moves on to `status` says. */
  predicate Says(job: Job, status: Status, said: seq<Report>) {
    if !job.grouped then said == []
    else if status == Failed then
      said == [FailReport] || (job.task == StageTask(LAST) && said == [EndReport, FailReport])
    else said == if job.task == StageTask(LAST) && status in {Succeeded, Spoiled} then [EndReport] else []
  }

  lemma StatusReports(c: Chain, c': Chain, b: nat, j: nat, status: Status, said: seq<Report>)
    requires JobsOk(c.jobs) && JobsOk(c'.jobs) && ReportsMatch(c, b)
    requires j < |c.jobs| && c.jobs[j].status in {Waiting, Running}
    requires c'.jobs == c.jobs[j := c.jobs[j].(status := status)]
    requires c.jobs[j].task.ProvisionTask? ==> status in {Running, Succeeded}
    requires Says(c.jobs[j], status, said) && c'.reports == c.reports + said
    ensures ReportsMatch(c', b)
  {
    hide JobsOk;
    AttemptInOrder(c.jobs, b);
    AttemptUpdate(c.jobs, b, j, status);
    AttemptInOrder(c'.jobs, b);
  }

  lemma AttemptUpdate(jobs: seq<Job>, b: nat, j: nat, status: Status)
    requires FirstAttempt(jobs, b) && j < |jobs|
    requires jobs[j].task.ProvisionTask? ==> status in {Running, Succeeded}
    ensures FirstAttempt(jobs[j := jobs[j].(status := status)], b)
  {
  }

  /** A job moves on, and says what it has to. */
  ghost predicate MovesOn(c: Chain, c': Chain, j: nat, said: seq<Report>) {
    && j < |c.jobs| && j < |c'.jobs| && c.jobs[j].status in {Waiting, Running}
    && c'.jobs == c.jobs[j := c.jobs[j].(status := c'.jobs[j].status)]
    && (c.jobs[j].task.ProvisionTask? ==> c'.jobs[j].status in {Running, Succeeded})
    && Says(c.jobs[j], c'.jobs[j].status, said) && c'.reports == c.reports + said
  }

  lemma MovedReports(c: Chain, c': Chain, j: nat, said: seq<Report>)
    requires ReportInv(c) && Inv(c') && MovesOn(c, c', j, said)
    ensures ReportInv(c')
  {
    if Ungrouped(c) {
      assert Ungrouped(c');
    } else {
      var b: nat :| ReportsMatch(c, b);
      StatusReports(c, c', b, j, c'.jobs[j].status, said);
    }
  }

  /** Finalizers and provisioning have nothing to tell. */
  lemma OnlyStagesReport(c: Chain, j: nat)
    requires ReportInv(c) && j < |c.jobs| && c.jobs[j].grouped
    ensures c.jobs[j].task.StageTask?
  {
  }

  lemma StartSays(c: Chain, j: nat) returns (said: seq<Report>)
    requires ReportInv(c) && CanStart(c, j)
    ensures MovesOn(c, Start(c, j), j, said) && |said| <= 1
  {
    var job := c.jobs[j];
    said := if job.grouped && Start(c, j).jobs[j].status == Failed then [FailReport] else [];
    if job.grouped {
      OnlyStagesReport(c, j);
    }
  }

  lemma EndSays(c: Chain, j: nat, ok: bool) returns (said: seq<Report>)
    requires ReportInv(c) && CanEnd(c, j)
    ensures MovesOn(c, End(c, j, ok), j, said) && |said| <= 1
    ensures c.jobs[j].grouped && !ok ==> said == [FailReport]
  {
    var job := c.jobs[j];
    said := if !job.grouped then [] else if !ok then [FailReport]
            else if job.task == StageTask(LAST) then [EndReport] else [];
    if job.grouped {
      OnlyStagesReport(c, j);
    }
  }

  lemma EndUncleanedSays(c: Chain, j: nat) returns (said: seq<Report>)
    requires CanEndUncleaned(c, j)
    ensures MovesOn(c, EndUncleanedStage(c, j), j, said)
    ensures said == if c.jobs[j].grouped then [EndReport, FailReport] else []
  {
    said := if c.jobs[j].grouped then [EndReport, FailReport] else [];
  }

  lemma SameJobsReports(c: Chain, c': Chain)
    requires ReportInv(c) && Inv(c') && c'.reports == c.reports && OnlyDeletes(c, c')
    requires forall j: nat | |c.jobs| <= j < |c'.jobs| :: !c'.jobs[j].grouped
    ensures ReportInv(c')
  {
    if Ungrouped(c) {
      assert Ungrouped(c');
    } else {
      var b: nat :| ReportsMatch(c, b);
      assert c'.jobs[0] == c.jobs[0] || b == 0;
      assert ReportsMatch(c', b);
    }
  }

  /** The old jobs may have been deleted, but nothing else, and provisioning not even that. */
  ghost predicate OnlyDeletes(c: Chain, c': Chain) {
    && |c.jobs| <= |c'.jobs|
    && (forall j: nat | j < |c.jobs| ::
          && c'.jobs[j] == c.jobs[j].(deleted := c'.jobs[j].deleted) && (c.jobs[j].deleted ==> c'.jobs[j].deleted)
          && (c.jobs[j].task.ProvisionTask? && c.jobs[j].deps == {} ==> c'.jobs[j] == c.jobs[j]))
  }

  lemma CancelStageOnlyDeletes(c: Chain, pos: nat, outcome: CancelOutcome)
    requires Inv(c) && pos < |c.rows|
    ensures var c' := CancelStage(c, pos, outcome);
            OnlyDeletes(c, c') && c'.reports == c.reports && |c'.jobs| == |c.jobs|
  {
    assert RowOk(c.rows[pos], c.jobs, pos);
  }

  lemma {:induction false} CancelFromOnlyDeletes(c: Chain, n: nat, plan: seq<CancelOutcome>)
    requires Inv(c) && n <= |c.rows| && n <= |plan|
    ensures var c' := CancelFrom(c, n, plan);
            OnlyDeletes(c, c') && c'.reports == c.reports && |c'.jobs| == |c.jobs|
    decreases n
  {
    if n > 0 {
      hide Inv, CancelStage, OnlyDeletes;
      CancelStageOnlyDeletes(c, n - 1, plan[n - 1]);
      CancelStageInv(c, n - 1, plan[n - 1]);
      CancelKeepsLength(c, n - 1, plan[n - 1]);
      CancelFromOnlyDeletes(CancelStage(c, n - 1, plan[n - 1]), n - 1, plan);
      DeletesJoin(c, CancelStage(c, n - 1, plan[n - 1]), CancelFrom(c, n, plan));
    }
  }

  lemma DeletesJoin(c: Chain, c1: Chain, c2: Chain)
    requires OnlyDeletes(c, c1) && (c2 == c1 || OnlyDeletes(c1, c2))
    ensures OnlyDeletes(c, c2)
  {
  }

  lemma CancelKeepsLength(c: Chain, pos: nat, outcome: CancelOutcome)
    requires pos < |c.rows|
    ensures |CancelStage(c, pos, outcome).rows| == |c.rows|
  {
  }

  /** Only the stage jobs among the new jobs carry the group. */
  lemma NewJobsGroup(c: Chain, k: nat, sandbox: nat, netbird: bool, grouped: bool)
    requires k < 3 == |c.rows|
    ensures var c' := EnqueueRequest(c, Positions(k), ReadyTask(sandbox), netbird, grouped);
            var first := |c.jobs| + if netbird then 1 else 0;
            && |c'.jobs| == first + 4 - k
            && (forall j: nat | j < |c.jobs| :: c'.jobs[j] == c.jobs[j])
            && (forall j: nat | first <= j < first + 3 - k ::
                  && c'.jobs[j].grouped == grouped && c'.jobs[j].status == Waiting
                  && c'.jobs[j].task == StageTask(k + j - first)
                  && !c'.jobs[j].deleted
                  && c'.jobs[j].deps == (if j > first then {j - 1} else {})
                                        + (if j == first + 2 - k && netbird then {|c.jobs|} else {}))
            && (netbird ==> Provides(c'.jobs[|c.jobs|]))
            && (forall j: nat | |c.jobs| <= j < first || first + 3 - k <= j < |c'.jobs| :: !c'.jobs[j].grouped)
            && c'.reports == c.reports
  {
    EnqueueShape(c, Positions(k), ReadyTask(sandbox), netbird, grouped);
    var c' := EnqueueRequest(c, Positions(k), ReadyTask(sandbox), netbird, grouped);
    forall j: nat | j < |c.jobs|
      ensures c'.jobs[j] == c.jobs[j]
    {
      assert c'.jobs[j] == c'.jobs[..|c.jobs|][j];
    }
  }

  /** A restart appends jobs that carry no group, and reports nothing. */
  lemma RestartAppends(c: Chain, netbird: bool)
    requires Inv(c)
    ensures var c' := RestartRequest(c, netbird);
            && c'.reports == c.reports && |c.jobs| <= |c'.jobs|
            && OnlyDeletes(c, c')
            && (forall j: nat | |c.jobs| <= j < |c'.jobs| :: !c'.jobs[j].grouped)
  {
    if c.sandbox.Some? && RestartAccepted(c.rows) {
      RestartKeepsPrefix(c);
      var (rows, positions) := RestartRows(c.rows);
      var replaced := c.(sandbox := Some(Sandbox(c.nextSandbox, false)), nextSandbox := c.nextSandbox + 1,
                         rows := rows);
      NewJobsGroup(replaced, FirstFailed(c.rows), c.nextSandbox, netbird, false);
    }
  }

  lemma RestartReports(c: Chain, netbird: bool)
    requires ReportInv(c)
    ensures ReportInv(RestartRequest(c, netbird))
  {
    assert Inv(RestartRequest(c, netbird)) by { RestartInv(c, netbird); }
    RestartAppends(c, netbird);
    SameJobsReports(c, RestartRequest(c, netbird));
  }

  lemma AllocateReports(netbird: bool, grouped: bool)
    ensures ReportInv(AllocateUnit(netbird, grouped))
    ensures var b := if netbird then 1 else 0;
            grouped ==> ReportsMatch(AllocateUnit(netbird, true), b) && Live(AllocateUnit(netbird, true), b)
  {
    var created := EMPTY.(rows := FRESH_ROWS, sandbox := Some(Sandbox(0, false)), nextSandbox := 1);
    assert Positions(0) == [0, 1, 2];
    FreshRowsInv(created, ReadyTask(0), netbird, grouped);
    NewJobsGroup(created, 0, 0, netbird, grouped);
    var c := AllocateUnit(netbird, grouped);
    if grouped {
      var b := if netbird then 1 else 0;
      assert ReportsMatch(c, b);
    } else {
      assert Ungrouped(c);
    }
  }

  lemma CancelReports(c: Chain, plan: seq<CancelOutcome>)
    requires ReportInv(c) && |c.rows| <= |plan| == 3
    ensures ReportInv(CancelRequest(c, plan))
  {
    CancelFromInv(c, |c.rows|, plan);
    CancelFromOnlyDeletes(c, |c.rows|, plan);
    SameJobsReports(c, CancelRequest(c, plan));
  }

  lemma HasInv(c: Chain)
    requires ReportInv(c)
    ensures Inv(c) && |c.rows| <= 3
  {
  }

  lemma {:induction false} StepReports(c: Chain, a: Action)
    requires ReportInv(c) && !a.CreateCleanup?
    ensures ReportInv(Step(c, a))
  {
    HasInv(c);
    StepInv(c, a);
    hide ReportInv, Inv, Start, End, EndUncleanedStage, AllocateUnit, CancelRequest, RestartRequest, MovesOn;
    if Enabled(c, a) {
      match a
      case Allocate(netbird, grouped) => AllocateReports(netbird, grouped);
      case StartJob(j) =>
        var said := StartSays(c, j);
        MovedReports(c, Start(c, j), j, said);
      case EndJob(j, ok) =>
        var said := EndSays(c, j, ok);
        MovedReports(c, End(c, j, ok), j, said);
      case EndUncleaned(j) =>
        var said := EndUncleanedSays(c, j);
        MovedReports(c, EndUncleanedStage(c, j), j, said);
      case HandleFailure(j, plan) =>
        SameJobsReports(c, c.(handlers := c.handlers - {j}));
        CancelReports(c.(handlers := c.handlers - {j}), plan);
      case Cancel(plan) => CancelReports(c, plan);
      case Restart(netbird) => RestartReports(c, netbird);
      case DropSandbox => SameJobsReports(c, Step(c, a));
    }
  }

  lemma {:induction false} RunReports(actions: seq<Action>)
    requires AllocationRun(actions)
    ensures ReportInv(Run(EMPTY, actions))
  {
    if actions == [] {
      assert Ungrouped(EMPTY);
    } else {
      RunReports(actions[..|actions| - 1]);
      StepReports(Run(EMPTY, actions[..|actions| - 1]), actions[|actions| - 1]);
    }
  }

  // ---- What the reports mean ----

  /** The attempt seen from outside: what it has told, and whether it can tell more. */
  predicate Summed(c: Chain) {
    && (c.reports != [] <==> Ended(c))
    && (FailReport in c.reports <==> Raised(c))
    && (c.reports == [] || c.reports == [FailReport] || c.reports == [EndReport]
        || c.reports == [EndReport, FailReport])
    && !(Ended(c) && CanReport(c)) && !(Ended(c) && BrokenOff(c)) && !(CanReport(c) && BrokenOff(c))
    && (c != EMPTY && (exists j: nat | j < |c.jobs| :: c.jobs[j].grouped) ==> Ended(c) || CanReport(c) || BrokenOff(c))
  }

  /** Which jobs are next in line. */
  lemma NextOfAttempt(c: Chain, b: nat, f: nat)
    requires JobsOk(c.jobs) && FirstAttempt(c.jobs, b)
    ensures NextInLine(c, f) <==>
              f == b || (f == b + 1 && c.jobs[b].status == Succeeded)
              || (f == b + 2 && c.jobs[b + 1].status == Succeeded)
  {
    AttemptInOrder(c.jobs, b);
  }

  /** The job of the first attempt that everything hangs on. */
  function Next(jobs: seq<Job>, b: nat): (f: nat)
    requires b + 2 < |jobs|
    ensures f < |jobs|
  {
    if jobs[b].status != Succeeded then b else if jobs[b + 1].status != Succeeded then b + 1 else b + 2
  }

  lemma AttemptStands(c: Chain, b: nat)
    requires JobsOk(c.jobs) && FirstAttempt(c.jobs, b)
    ensures var f := Next(c.jobs, b); var status := c.jobs[f].status;
            && c.jobs[f].grouped
            && (c.jobs[f].task == StageTask(LAST) <==> f == b + 2)
            && (Raised(c) <==> status == Failed)
            && (UserStageDone(c) <==> f == b + 2 && status in {Succeeded, Spoiled})
            && (CanReport(c) <==> status == Running || (status == Waiting && !c.jobs[f].deleted))
            && (BrokenOff(c) <==> (status == Waiting && c.jobs[f].deleted) || (status == Spoiled && f != b + 2))
  {
    AttemptInOrder(c.jobs, b);
    var f := Next(c.jobs, b);
    forall g: nat {
      NextOfAttempt(c, b, g);
    }
    assert c.jobs[f].grouped && NextInLine(c, f);
    assert forall j: nat | j < |c.jobs| && c.jobs[j].grouped && j != f :: c.jobs[j].status in {Succeeded, Waiting};
    assert forall g: nat | NextInLine(c, g) && g != f :: c.jobs[g].status == Succeeded;
    hide JobsOk, NextInLine;
    assert Live(c, f) <==> c.jobs[f].status == Running || (c.jobs[f].status == Waiting && !c.jobs[f].deleted);
    assert forall g: nat | Live(c, g) :: g == f;
  }

  lemma AttemptSummed(c: Chain, b: nat)
    requires Inv(c) && ReportsMatch(c, b)
    ensures Summed(c)
  {
    AttemptInOrder(c.jobs, b);
    AttemptStands(c, b);
    hide Inv, JobsOk, Raised, UserStageDone, CanReport, BrokenOff, FirstAttempt;
  }

  lemma UngroupedSummed(c: Chain)
    requires Ungrouped(c)
    ensures Summed(c)
  {
    assert c.reports == [] && FailReport !in c.reports;
    assert !Raised(c) && !UserStageDone(c) && !BrokenOff(c);
  }

  lemma InvIsSummed(c: Chain)
    requires ReportInv(c)
    ensures Summed(c)
  {
    if Ungrouped(c) {
      UngroupedSummed(c);
    } else {
      var b: nat :| ReportsMatch(c, b);
      AttemptSummed(c, b);
    }
  }

  // ---- When nothing more is told ----

  /** A step that is not a job's own leaves what the group's jobs have done as it was. */
  ghost predicate OnlyAppends(c: Chain, c': Chain) {
    && c'.reports == c.reports && |c.jobs| <= |c'.jobs|
    && (forall j: nat | j < |c.jobs| ::
          && c'.jobs[j].grouped == c.jobs[j].grouped
          && (c.jobs[j].grouped ==>
                c'.jobs[j].status == c.jobs[j].status && (c.jobs[j].deleted ==> c'.jobs[j].deleted)))
    && (forall j: nat | |c.jobs| <= j < |c'.jobs| :: !c'.jobs[j].grouped)
  }

  lemma MovedUngrouped(c: Chain, c': Chain, j: nat, said: seq<Report>)
    requires MovesOn(c, c', j, said) && !c.jobs[j].grouped
    ensures OnlyAppends(c, c')
  {
  }

  /** A job of the group that can begin or end is live. */
  lemma MovableIsLive(c: Chain, j: nat)
    requires ReportInv(c) && (CanStart(c, j) || CanEnd(c, j)) && c.jobs[j].grouped
    ensures Live(c, j)
  {
    var b: nat :| ReportsMatch(c, b);
    AttemptInOrder(c.jobs, b);
    NextOfAttempt(c, b, j);
  }

  lemma CancelOnlyAppends(c: Chain, plan: seq<CancelOutcome>)
    requires Inv(c) && |c.rows| <= |plan|
    ensures OnlyAppends(c, CancelRequest(c, plan))
  {
    CancelFromOnlyDeletes(c, |c.rows|, plan);
  }

  lemma NoneIsLive(c: Chain, j: nat)
    requires ReportInv(c) && !CanReport(c) && (CanStart(c, j) || CanEnd(c, j))
    ensures !c.jobs[j].grouped
  {
    if c.jobs[j].grouped {
      MovableIsLive(c, j);
    }
  }

  lemma WorkAppends(c: Chain, j: nat, ok: bool)
    requires ReportInv(c) && !CanReport(c)
    ensures CanStart(c, j) ==> OnlyAppends(c, Start(c, j))
    ensures CanEnd(c, j) ==> OnlyAppends(c, End(c, j, ok))
    ensures CanEndUncleaned(c, j) ==> OnlyAppends(c, EndUncleanedStage(c, j))
  {
    if CanStart(c, j) {
      NoneIsLive(c, j);
      var said := StartSays(c, j);
      MovedUngrouped(c, Start(c, j), j, said);
    }
    if CanEnd(c, j) {
      NoneIsLive(c, j);
      var said := EndSays(c, j, ok);
      MovedUngrouped(c, End(c, j, ok), j, said);
    }
    if CanEndUncleaned(c, j) {
      var said := EndUncleanedSays(c, j);
      MovedUngrouped(c, EndUncleanedStage(c, j), j, said);
    }
    hide *;
  }

  lemma SettledOnlyAppends(c: Chain, a: Action)
    requires ReportInv(c) && !CanReport(c) && !a.CreateCleanup?
    ensures OnlyAppends(c, Step(c, a))
  {
    HasInv(c);
    hide ReportInv, Inv, CancelRequest, Start, End, EndUncleanedStage, MovesOn, CanReport, RestartRequest, OnlyAppends;
    if Enabled(c, a) {
      match a
      case StartJob(j) => WorkAppends(c, j, false);
      case EndJob(j, ok) => WorkAppends(c, j, ok);
      case EndUncleaned(j) => WorkAppends(c, j, false);
      case HandleFailure(j, plan) => FewerHandlers(c, j); CancelOnlyAppends(c.(handlers := c.handlers - {j}), plan);
      case Cancel(plan) => CancelOnlyAppends(c, plan);
      case Restart(netbird) => RestartAppends(c, netbird); DeletesAppend(c, RestartRequest(c, netbird));
      case _ => DeletesAppend(c, Step(c, a));
    }
  }

  lemma DeletesAppend(c: Chain, c': Chain)
    requires OnlyDeletes(c, c') && c'.reports == c.reports
    requires forall j: nat | |c.jobs| <= j < |c'.jobs| :: !c'.jobs[j].grouped
    ensures OnlyAppends(c, c')
  {
  }

  lemma FewerHandlers(c: Chain, j: nat)
    requires Inv(c) && c != EMPTY
    ensures Inv(c.(handlers := c.handlers - {j}))
  {
  }

  lemma AppendedStaysSettled(c: Chain, c': Chain)
    requires OnlyAppends(c, c') && !CanReport(c) && c' != EMPTY
    ensures !CanReport(c')
  {
    forall f: nat | f < |c'.jobs|
      ensures !Live(c', f)
    {
      if f < |c.jobs| {
        assert !Live(c, f);
      }
    }
  }

  /** A unit that cannot report stays one, and its reports stay as they are. */
  lemma {:induction false} SettledStays(c: Chain, a: Action)
    requires ReportInv(c) && !CanReport(c) && !a.CreateCleanup?
    ensures !CanReport(Step(c, a)) && Step(c, a).reports == c.reports
  {
    SettledOnlyAppends(c, a);
    HasJobs(c);
    AppendedStaysSettled(c, Step(c, a));
  }

  lemma HasJobs(c: Chain)
    requires ReportInv(c) && c != EMPTY
    ensures c.jobs != []
  {
    assert RowOk(c.rows[0], c.jobs, 0);
  }

  // ---- When a report can still come ----

  lemma {:induction false} RunJoins(c: Chain, first: seq<Action>, second: seq<Action>)
    ensures Run(c, first + second) == Run(Run(c, first), second)
  {
    hide Step;
    if second == [] {
      assert first + second == first;
    } else {
      var n := |second| - 1;
      assert (first + second)[..|first| + n] == first + second[..n];
      RunJoins(c, first, second[..n]);
    }
  }

  /** Provisioning done, when the job waits for it, and then a job that begins and fails. */
  function ReportRun(c: Chain, f: nat): seq<Action>
    requires f < |c.jobs|
  {
    (if c.jobs[f].task == StageTask(LAST) then [StartJob(0), EndJob(0, true)] else [])
    + [StartJob(f), EndJob(f, false)]
  }

  lemma OneStep(c: Chain, a: Action)
    ensures Run(c, [a]) == Step(c, a)
  {
    assert [a][..0] == [] && Run(c, []) == c;
  }

  lemma TwoSteps(c: Chain, a1: Action, a2: Action)
    ensures Run(c, [a1, a2]) == Step(Step(c, a1), a2)
  {
    OneStep(c, a1);
    assert [a1, a2][..1] == [a1];
  }

  /** Everything the live job waits for is done, but perhaps provisioning. */
  lemma LiveWaitsFor(c: Chain, f: nat)
    requires ReportInv(c) && Live(c, f)
    ensures forall d <- c.jobs[f].deps ::
              d < |c.jobs| && (c.jobs[d].status == Succeeded ||
                               (d == 0 && Provides(c.jobs[0]) && !c.jobs[0].grouped
                                && c.jobs[f].task == StageTask(LAST)))
    ensures c.jobs[f].task == StageTask(LAST) ==> 0 < f && (c.jobs[0].status == Succeeded || Provides(c.jobs[0]))
  {
    var b: nat :| ReportsMatch(c, b);
    AttemptInOrder(c.jobs, b);
    NextOfAttempt(c, b, f);
  }

  lemma BeginsAndFails(c: Chain, f: nat)
    requires ReportInv(c) && Live(c, f) && forall d <- c.jobs[f].deps :: d < |c.jobs| && c.jobs[d].status == Succeeded
    ensures Run(c, [StartJob(f), EndJob(f, false)]).reports != []
  {
    TwoSteps(c, StartJob(f), EndJob(f, false));
    var c1 := Step(c, StartJob(f));
    StepReports(c, StartJob(f));
    if CanStart(c, f) {
      var said := StartSays(c, f);
      OnlyStagesReport(c, f);
    }
    if CanEnd(c1, f) {
      var said := EndSays(c1, f, false);
    }
  }

  lemma ProvisioningGetsDone(c: Chain, f: nat)
    requires ReportInv(c) && Live(c, f) && c.jobs[f].task == StageTask(LAST)
    ensures var c' := Run(c, [StartJob(0), EndJob(0, true)]);
            && ReportInv(c') && Live(c', f) && c'.jobs[f] == c.jobs[f] && c'.reports == c.reports
            && forall d <- c'.jobs[f].deps :: d < |c'.jobs| && c'.jobs[d].status == Succeeded
  {
    TwoSteps(c, StartJob(0), EndJob(0, true));
    LiveWaitsFor(c, f);
    StepReports(c, StartJob(0));
    StepReports(Step(c, StartJob(0)), EndJob(0, true));
    ProvisioningSteps(c);
    hide ReportInv, Run, Step, Provides;
  }

  /** A job that provides, or has succeeded, has done so after the two steps, and nothing else changes. */
  lemma ProvisioningSteps(c: Chain)
    requires c.jobs != [] && (c.jobs[0].status == Succeeded || Provides(c.jobs[0]))
    ensures var c' := Step(Step(c, StartJob(0)), EndJob(0, true));
            && |c'.jobs| == |c.jobs| && c'.jobs[0] == c.jobs[0].(status := Succeeded) && c'.reports == c.reports
            && forall j: nat | 0 < j < |c.jobs| :: c'.jobs[j] == c.jobs[j]
  {
    if c.jobs[0].status == Succeeded {
      assert Step(c, StartJob(0)) == c;
    }
  }

  lemma ReportComes(c: Chain, f: nat)
    requires ReportInv(c) && Live(c, f)
    ensures Run(c, ReportRun(c, f)).reports != []
  {
    hide ReportInv;
    if c.jobs[f].task == StageTask(LAST) {
      ProvisioningGetsDone(c, f);
      BeginsAndFails(Run(c, [StartJob(0), EndJob(0, true)]), f);
      RunJoins(c, [StartJob(0), EndJob(0, true)], [StartJob(f), EndJob(f, false)]);
    } else {
      LiveWaitsFor(c, f);
      BeginsAndFails(c, f);
      assert [] + [StartJob(f), EndJob(f, false)] == [StartJob(f), EndJob(f, false)];
    }
  }

  lemma AllocateAndReport() returns (more: seq<Action>)
    ensures Orderly(more) && Run(EMPTY, more).reports != []
  {
    AllocateReports(false, true);
    var c := AllocateUnit(false, true);
    more := [Allocate(false, true)] + ReportRun(c, 0);
    ReportComes(c, 0);
    RunJoins(EMPTY, [Allocate(false, true)], ReportRun(c, 0));
    OneStep(EMPTY, Allocate(false, true));
    hide Run, AllocateUnit, ReportInv;
  }

  /** A continuation that makes a unit report, when it can. */
  lemma ReportingRun(c: Chain) returns (more: seq<Action>)
    requires ReportInv(c) && CanReport(c)
    ensures Orderly(more) && Run(c, more).reports != []
  {
    if c == EMPTY {
      more := AllocateAndReport();
    } else {
      var f: nat :| f < |c.jobs| && Live(c, f);
      more := ReportRun(c, f);
      ReportComes(c, f);
    }
  }

  /** An allocation in which removing containers never raises. */
  predicate Orderly(actions: seq<Action>) {
    forall a <- actions :: !a.CreateCleanup? && !a.EndUncleaned?
  }

  lemma {:induction false} SettledRun(c: Chain, more: seq<Action>)
    requires ReportInv(c) && !CanReport(c) && AllocationRun(more)
    ensures ReportInv(Run(c, more)) && !CanReport(Run(c, more)) && Run(c, more).reports == c.reports
  {
    if more != [] {
      SettledRun(c, more[..|more| - 1]);
      StepReports(Run(c, more[..|more| - 1]), more[|more| - 1]);
      SettledStays(Run(c, more[..|more| - 1]), more[|more| - 1]);
    }
  }

  ghost predicate TellsMore(c: Chain) {
    exists more: seq<Action> :: AllocationRun(more) && Run(c, more).reports != c.reports
  }

  /**
   At every moment of an allocation: its group has heard from it exactly when a stage raised or the user
   stage went well, and can still hear from it exactly when a job of the first attempt is running, or is
   registered with all stages before it done.
   */
  lemma {:induction false} CanReportIff(before: seq<Action>)
    requires AllocationRun(before)
    ensures var c := Run(EMPTY, before);
            && (c.reports != [] <==> Ended(c)) && (FailReport in c.reports <==> Raised(c))
            && (TellsMore(c) <==> CanReport(c))
  {
    RunReports(before);
    var c := Run(EMPTY, before);
    InvIsSummed(c);
    if CanReport(c) {
      var more := ReportingRun(c);
      assert AllocationRun(more) && Run(c, more).reports != c.reports;
    } else {
      forall more: seq<Action> | AllocationRun(more)
        ensures Run(c, more).reports == c.reports
      {
        SettledRun(c, more);
      }
    }
  }

  /**
   An allocation with a group has told it something, or can, or never will; the last exactly when the next
   job of its first attempt was deleted before it began, or ended well behind a row that was gone.
   */
  lemma {:induction false} NeverReportsIff(before: seq<Action>)
    requires AllocationRun(before)
    ensures var c := Run(EMPTY, before);
            c != EMPTY && (exists j: nat | j < |c.jobs| :: c.jobs[j].grouped) ==>
              (c.reports == [] && !TellsMore(c) <==> BrokenOff(c))
  {
    RunReports(before);
    CanReportIff(before);
    InvIsSummed(Run(EMPTY, before));
  }

  // ---- How often a unit reports ----

  /** Removing the container of a user stage that carries the group raises. */
  predicate Uncleaned(c: Chain, a: Action) {
    a.EndUncleaned? && Enabled(c, a) && c.jobs[a.job].grouped
  }

  lemma UncleanedTellsTwice(c: Chain, a: Action)
    requires ReportInv(c) && Uncleaned(c, a)
    ensures c.reports == [] && Step(c, a).reports == [EndReport, FailReport]
  {
    MovableIsLive(c, a.job);
    InvIsSummed(c);
    var said := EndUncleanedSays(c, a.job);
  }

  lemma OthersTellOnce(c: Chain, a: Action)
    requires ReportInv(c) && !Uncleaned(c, a) && !a.CreateCleanup?
    ensures |Step(c, a).reports| <= |c.reports| + 1
  {
    HasInv(c);
    hide ReportInv, Inv, CancelRequest;
    if Enabled(c, a) {
      match a
      case StartJob(j) => var said := StartSays(c, j);
      case EndJob(j, ok) => var said := EndSays(c, j, ok);
      case EndUncleaned(j) => var said := EndUncleanedSays(c, j);
      case HandleFailure(j, plan) => FewerHandlers(c, j); CancelOnlyAppends(c.(handlers := c.handlers - {j}), plan);
      case Cancel(plan) => CancelOnlyAppends(c, plan);
      case Restart(netbird) => RestartAppends(c, netbird);
      case _ =>
    }
  }

  lemma {:induction false} ReportsGrow(c: Chain, a: Action)
    requires ReportInv(c) && !a.CreateCleanup?
    ensures var c' := Step(c, a);
            && (c'.reports == c.reports || c.reports == [])
            && (|c'.reports| == 2 <==> |c.reports| == 2 || Uncleaned(c, a))
  {
    InvIsSummed(c);
    StepReports(c, a);
    InvIsSummed(Step(c, a));
    if !CanReport(c) {
      SettledStays(c, a);
    }
    if Uncleaned(c, a) {
      UncleanedTellsTwice(c, a);
    } else {
      OthersTellOnce(c, a);
    }
  }

  /** The action at `k` is such a removal. */
  predicate UncleanedAt(actions: seq<Action>, k: nat) {
    k < |actions| && Uncleaned(Run(EMPTY, actions[..k]), actions[k])
  }

  lemma UncleanedBefore(actions: seq<Action>)
    requires actions != []
    ensures var n := |actions| - 1;
            (exists k: nat | k < |actions| :: UncleanedAt(actions, k))
            <==> (exists k: nat | k < n :: UncleanedAt(actions[..n], k))
                 || Uncleaned(Run(EMPTY, actions[..n]), actions[n])
  {
    hide Run, Uncleaned;
    var n := |actions| - 1;
    forall k: nat | k < n
      ensures UncleanedAt(actions, k) <==> UncleanedAt(actions[..n], k)
    {
      assert actions[..n][..k] == actions[..k] && actions[..n][k] == actions[k];
    }
    assert UncleanedAt(actions, n) <==> Uncleaned(Run(EMPTY, actions[..n]), actions[n]);
  }

  /**
   Over all runs a unit tells its group at most two things; and two, an end and a failure, exactly when
   removing the container of its first user stage raised.
   */
  lemma {:induction false} ReportsTwiceIff(actions: seq<Action>)
    requires AllocationRun(actions)
    ensures var reports := Run(EMPTY, actions).reports;
            && (reports == [] || reports == [FailReport] || reports == [EndReport]
                || reports == [EndReport, FailReport])
            && (|reports| == 2 <==> exists k: nat | k < |actions| :: UncleanedAt(actions, k))
  {
    hide Uncleaned, UncleanedAt, ReportInv;
    RunReports(actions);
    InvIsSummed(Run(EMPTY, actions));
    if actions != [] {
      var n := |actions| - 1;
      RunReports(actions[..n]);
      ReportsTwiceIff(actions[..n]);
      ReportsGrow(Run(EMPTY, actions[..n]), actions[n]);
      UncleanedBefore(actions);
    }
  }

  // ---- Two runs ----

  lemma CleanStageDeletes(c: Chain, pos: nat)
    requires pos < |c.rows| == 3 && !c.rows[pos].finished && c.rows[pos].job.Some?
    ensures var c' := CancelStage(c, pos, Clean);
            && |c'.rows| == 3 && |c'.jobs| == |c.jobs|
            && (forall j: nat | j < |c.jobs| ::
                  c'.jobs[j].status == c.jobs[j].status && (c.jobs[j].deleted ==> c'.jobs[j].deleted))
            && (c.rows[pos].job.value < |c.jobs| ==> c'.jobs[c.rows[pos].job.value].deleted)
            && (forall p: nat | p < pos :: c'.rows[p] == c.rows[p])
  {
  }

  lemma {:induction false} CleanCancelDeletes(c: Chain, n: nat)
    requires n <= |c.rows| == 3 && forall p: nat | p < n :: !c.rows[p].finished && c.rows[p].job.Some?
    ensures var c' := CancelFrom(c, n, [Clean, Clean, Clean]);
            && |c'.jobs| == |c.jobs|
            && (forall j: nat | j < |c.jobs| ::
                  c'.jobs[j].status == c.jobs[j].status && (c.jobs[j].deleted ==> c'.jobs[j].deleted))
            && (forall p: nat | p < n :: c.rows[p].job.value < |c.jobs| ==> c'.jobs[c.rows[p].job.value].deleted)
    decreases n
  {
    if n > 0 {
      hide CancelStage;
      CleanStageDeletes(c, n - 1);
      CleanCancelDeletes(CancelStage(c, n - 1, Clean), n - 1);
    }
  }

  lemma CancelBreaksOff(c: Chain, b: nat)
    requires ReportInv(c) && Live(c, b) && c.jobs[b].status == Waiting
    requires |c.rows| == 3 && forall p: nat | p < 3 :: !c.rows[p].finished && c.rows[p].job.Some?
    requires c.rows[0].job == Some(b)
    ensures BrokenOff(CancelRequest(c, [Clean, Clean, Clean]))
  {
    var c' := CancelRequest(c, [Clean, Clean, Clean]);
    assert c.rows[0] in c.rows;
    CleanCancelDeletes(c, 3);
    CancelFromOnlyDeletes(c, 3, [Clean, Clean, Clean]);
    hide ReportInv, CancelRequest;
    assert NextInLine(c', b);
  }

  lemma AllocatedIsQueued(netbird: bool)
    ensures var c := AllocateUnit(netbird, true);
            |c.rows| == 3 && forall p: nat | p < 3 ::
              !c.rows[p].finished && c.rows[p].job == Some(p + if netbird then 1 else 0)
    ensures var c := AllocateUnit(netbird, true); var b := if netbird then 1 else 0;
            b < |c.jobs| && c.jobs[b].status == Waiting
  {
    var created := EMPTY.(rows := FRESH_ROWS, sandbox := Some(Sandbox(0, false)), nextSandbox := 1);
    assert Positions(0) == [0, 1, 2];
    EnqueueStagesRows(created, 0, ReadyTask(0), netbird, true);
    NewRowWaits(created, 0, ReadyTask(0), netbird, true, 0);
  }

  /** A unit cancelled while all its stages are queued breaks off: it never reports. */
  lemma {:induction false} QueuedUnitIsSilenced(netbird: bool)
    ensures var c := Step(AllocateUnit(netbird, true), Cancel([Clean, Clean, Clean]));
            BrokenOff(c) && !Ended(c) && !CanReport(c)
  {
    var c := AllocateUnit(netbird, true);
    AllocatedIsQueued(netbird);
    AllocateReports(netbird, true);
    hide AllocateUnit, ReportsMatch, ReportInv;
    CancelBreaksOff(c, if netbird then 1 else 0);
    StepReports(c, Cancel([Clean, Clean, Clean]));
    hide CancelRequest, Live, BrokenOff, Ended;
    InvIsSummed(Step(c, Cancel([Clean, Clean, Clean])));
  }

  /** The first `i` stages of a unit went well, the others are queued. */
  predicate Progressed(c: Chain, i: nat) {
    && |c.rows| == 3 && |c.jobs| > 3
    && (forall p: nat | p < 3 ::
          && c.rows[p].job == Some(p) && c.jobs[p].task == StageTask(p) && c.jobs[p].grouped && !c.jobs[p].deleted
          && c.jobs[p].status == (if p < i then Succeeded else Waiting))
    && c.jobs[0].deps == {} && c.jobs[1].deps == {0} && c.jobs[2].deps == {1}
  }

  lemma StageGoesWell(c: Chain, i: nat)
    requires Progressed(c, i) && i < 2
    ensures Progressed(Step(Step(c, StartJob(i)), EndJob(i, true)), i + 1)
  {
  }

  lemma UnitIsQueued()
    ensures Progressed(AllocateUnit(false, true), 0)
  {
    var created := EMPTY.(rows := FRESH_ROWS, sandbox := Some(Sandbox(0, false)), nextSandbox := 1);
    assert Positions(0) == [0, 1, 2];
    AllocatedIsQueued(false);
    NewJobsGroup(created, 0, 0, false, true);
    assert AllocateUnit(false, true) == EnqueueRequest(created, Positions(0), ReadyTask(0), false, true);
    hide EnqueueRequest, Positions, AllocateUnit;
  }

  const FIRST_TWO := [Allocate(false, true), StartJob(0), EndJob(0, true), StartJob(1), EndJob(1, true)]

  lemma FirstTwoGoWell()
    ensures Progressed(Run(EMPTY, FIRST_TWO), 2)
  {
    hide Progressed;
    var c := AllocateUnit(false, true);
    UnitIsQueued();
    StageGoesWell(c, 0);
    StageGoesWell(Step(Step(c, StartJob(0)), EndJob(0, true)), 1);
    RunJoins(EMPTY, [Allocate(false, true)], [StartJob(0), EndJob(0, true)]);
    RunJoins(EMPTY, [Allocate(false, true)] + [StartJob(0), EndJob(0, true)], [StartJob(1), EndJob(1, true)]);
    TwoSteps(c, StartJob(0), EndJob(0, true));
    TwoSteps(Step(Step(c, StartJob(0)), EndJob(0, true)), StartJob(1), EndJob(1, true));
    OneStep(EMPTY, Allocate(false, true));
    assert FIRST_TWO == [Allocate(false, true)] + [StartJob(0), EndJob(0, true)] + [StartJob(1), EndJob(1, true)];
  }

  lemma ThenUncleaned(c: Chain)
    requires Progressed(c, 2)
    ensures Uncleaned(Step(c, StartJob(2)), EndUncleaned(2))
  {
    assert CanStart(c, 2);
  }

  const TWICE := FIRST_TWO + [StartJob(2), EndUncleaned(2)]

  /** A unit does report twice. */
  lemma {:induction false} TwiceIsReached()
    ensures Run(EMPTY, TWICE).reports == [EndReport, FailReport]
  {
    var c := Run(EMPTY, FIRST_TWO);
    FirstTwoGoWell();
    RunReports(FIRST_TWO);
    RunJoins(EMPTY, FIRST_TWO, [StartJob(2), EndUncleaned(2)]);
    TwoSteps(c, StartJob(2), EndUncleaned(2));
    StepReports(c, StartJob(2));
    hide Run, ReportInv;
    ThenUncleaned(c);
    UncleanedTellsTwice(Step(c, StartJob(2)), EndUncleaned(2));
  }
}
