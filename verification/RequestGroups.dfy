/**
 The progress counters of a batch of allocations, what they amount to over every interleaving of the
 batch's units, and exactly when the summary of a batch can still be sent.
 */
module RequestGroups {
  import opened StageChain
  import opened ChainReports

  /** Counters, whether the group row is there, and the mails sent so far. */
  datatype Group = Group(unitCount: int, failed: int, finished: int, present: bool,
                         failMails: nat, summaryMails: nat)

  function NewGroup(unitCount: int): Group {
    Group(unitCount, 0, 0, true, 0, 0)
  }

  /** A counter call; refreshing a deleted group raises, which changes nothing. */
  function Tell(g: Group, report: Report): Group {
    if !g.present then g
    else
      var counted := if report.FailReport?
                     then g.(failed := g.failed + 1, finished := g.finished + 1,
                             failMails := g.failMails + if g.failed == 0 then 1 else 0)
                     else g.(finished := g.finished + 1);
      // The summary mail takes the group row with it.
      if counted.finished == counted.unitCount
      then counted.(summaryMails := counted.summaryMails + 1, present := false)
      else counted
  }

  class SandboxRequestGroup {
    const unitCount: int
    var failedCount: int
    var finishedCount: int
    var present: bool
    var failMails: nat
    var summaryMails: nat

    function View(): Group
      reads this
    {
      Group(unitCount, failedCount, finishedCount, present, failMails, summaryMails)
    }

    constructor (unitCount: int)
      ensures View() == NewGroup(unitCount)
    {
      this.unitCount := unitCount;
      failedCount, finishedCount, present, failMails, summaryMails := 0, 0, true, 0, 0;
    }

    method SendSummaryNotification()
      modifies this`summaryMails, this`present
      ensures summaryMails == old(summaryMails) + 1 && !present
    {
      summaryMails := summaryMails + 1;
      present := false;
    }

    method OnAllocationFail() returns (raised: bool)
      modifies this
      ensures View() == Tell(old(View()), FailReport)
      ensures raised == !old(present)
    {
      if !present {
        return true;
      }
      var first := failedCount == 0;
      failedCount := failedCount + 1;
      finishedCount := finishedCount + 1;
      // on commit
      if first {
        failMails := failMails + 1;
      }
      if finishedCount == unitCount {
        SendSummaryNotification();
      }
      raised := false;
    }

    method OnAllocationEnd() returns (raised: bool)
      modifies this
      ensures View() == Tell(old(View()), EndReport)
      ensures raised == !old(present)
    {
      if !present {
        return true;
      }
      finishedCount := finishedCount + 1;
      if finishedCount == unitCount {
        SendSummaryNotification();
      }
      raised := false;
    }
  }

  // ---- A batch of units sharing one group ----

  function TellAll(g: Group, reports: seq<Report>): Group {
    if reports == [] then g else Tell(TellAll(g, reports[..|reports| - 1]), reports[|reports| - 1])
  }

  datatype Batch = Batch(units: seq<Chain>, group: Group)

  datatype UnitAction = UnitAction(unit: nat, action: Action)

  function NewBatch(n: nat): Batch {
    Batch(seq(n, _ => EMPTY), NewGroup(n))
  }

  /** Telling an end to a group that is gone raises inside the try block, like a failed removal. */
  function Effective(g: Group, unit: Chain, a: Action): Action {
    if !g.present && a.EndJob? && a.ok && CanEndUncleaned(unit, a.job) && unit.jobs[a.job].grouped
    then EndUncleaned(a.job)
    else a
  }

  /** The group after one unit took a step. */
  function ToldOf(g: Group, unit: Chain, unit': Chain): Group {
    TellAll(g, if |unit.reports| <= |unit'.reports| then unit'.reports[|unit.reports|..] else [])
  }

  function BatchStep(b: Batch, a: UnitAction): Batch {
    if a.unit >= |b.units| then b
    else
      var unit := b.units[a.unit];
      var unit' := Step(unit, Effective(b.group, unit, a.action));
      Batch(b.units[a.unit := unit'], ToldOf(b.group, unit, unit'))
  }

  function BatchRun(b: Batch, actions: seq<UnitAction>): Batch {
    if actions == [] then b
    else BatchStep(BatchRun(b, actions[..|actions| - 1]), actions[|actions| - 1])
  }

  // ---- Counting ----

  function Count(p: Chain -> bool, units: seq<Chain>): (n: nat)
    ensures n <= |units|
  {
    if units == [] then 0 else (if p(units[0]) then 1 else 0) + Count(p, units[1..])
  }

  function Change(p: Chain -> bool, unit: Chain, unit': Chain): int {
    (if p(unit') then 1 else 0) - (if p(unit) then 1 else 0)
  }

  lemma {:induction false} CountUpdate(p: Chain -> bool, units: seq<Chain>, i: nat, unit: Chain)
    requires i < |units|
    ensures Count(p, units[i := unit]) == Count(p, units) + Change(p, units[i], unit)
  {
    var units' := units[i := unit];
    if i == 0 {
      assert units'[1..] == units[1..];
    } else {
      assert units'[1..] == units[1..][i - 1 := unit];
      CountUpdate(p, units[1..], i - 1, unit);
    }
  }

  lemma {:induction false} CountsAll(p: Chain -> bool, units: seq<Chain>)
    ensures Count(p, units) == |units| <==> forall u <- units :: p(u)
  {
    if units != [] {
      CountsAll(p, units[1..]);
      assert units == [units[0]] + units[1..];
    }
  }

  lemma {:induction false} CountsNone(p: Chain -> bool, units: seq<Chain>)
    ensures Count(p, units) == 0 <==> forall u <- units :: !p(u)
  {
    if units != [] {
      CountsNone(p, units[1..]);
      assert units == [units[0]] + units[1..];
    }
  }

  /** The unit has told its group an end and then a failure. */
  predicate ToldTwice(c: Chain) {
    |c.reports| == 2
  }

  /** What the group must be after `told` reports, of which `failures` were failures. */
  predicate Accounted(g: Group, units: nat, told: nat, failures: nat) {
    && g.unitCount == units
    && g.finished == (if told < units then told else units)
    && g.present == (told < units)
    && g.summaryMails == (if told < units then 0 else 1)
    && (told <= units ==> g.failed == failures)
    && 0 <= g.failed <= g.finished && g.failed <= failures
    && g.failMails == (if g.failed > 0 then 1 else 0)
  }

  lemma TellCounts(g: Group, units: nat, told: nat, failures: nat, report: Report)
    requires Accounted(g, units, told, failures)
    ensures Accounted(Tell(g, report), units, told + 1, failures + if report.FailReport? then 1 else 0)
  {
  }

  ghost predicate AllInv(units: seq<Chain>) {
    forall i: nat | i < |units| :: ReportInv(units[i])
  }

  ghost predicate BatchInv(b: Batch) {
    && AllInv(b.units)
    && Accounted(b.group, |b.units|, Count(Ended, b.units) + Count(ToldTwice, b.units), Count(Raised, b.units))
  }

  /** The group after one unit moved on, by what became of that unit. */
  ghost predicate Recounted(g: Group, units: nat, told: nat, failures: nat, unit: Chain, unit': Chain) {
    && 0 <= told + Change(Ended, unit, unit') + Change(ToldTwice, unit, unit')
    && 0 <= failures + Change(Raised, unit, unit')
    && Accounted(g, units, told + Change(Ended, unit, unit') + Change(ToldTwice, unit, unit'),
                 failures + Change(Raised, unit, unit'))
  }

  lemma TellSaid(g: Group, units: nat, told: nat, failures: nat, said: seq<Report>)
    requires Accounted(g, units, told, failures)
    requires said == [] || said == [FailReport] || said == [EndReport] || said == [EndReport, FailReport]
    ensures Accounted(TellAll(g, said), units, told + |said|, failures + if FailReport in said then 1 else 0)
  {
    hide Accounted, Tell;
    if said == [EndReport, FailReport] {
      assert said[..1] == [EndReport] && [EndReport][..0] == [];
      TellCounts(g, units, told, failures, EndReport);
      TellCounts(Tell(g, EndReport), units, told + 1, failures, FailReport);
      assert TellAll(g, [EndReport]) == Tell(TellAll(g, []), EndReport);
    } else if said != [] {
      assert said[..0] == [];
      TellCounts(g, units, told, failures, said[0]);
    }
  }

  /** What a unit says in one step is what becomes of it. */
  lemma SaysWhatItBecame(unit: Chain, a: Action)
    requires ReportInv(unit) && !a.CreateCleanup?
    ensures var unit' := Step(unit, a);
            && |unit.reports| <= |unit'.reports|
            && var said := unit'.reports[|unit.reports|..];
               && (said == [] || said == [FailReport] || said == [EndReport] || said == [EndReport, FailReport])
               && |said| == Change(Ended, unit, unit') + Change(ToldTwice, unit, unit')
               && (if FailReport in said then 1 else 0) == Change(Raised, unit, unit')
  {
    StepReports(unit, a);
    ReportsGrow(unit, a);
    InvIsSummed(unit);
    InvIsSummed(Step(unit, a));
    hide Step, ReportInv, Ended, Raised, CanReport, BrokenOff;
  }

  lemma TellUnit(g: Group, units: nat, told: nat, failures: nat, unit: Chain, a: Action)
    requires Accounted(g, units, told, failures)
    requires ReportInv(unit) && !a.CreateCleanup?
    ensures var unit' := Step(unit, a);
            && |unit.reports| <= |unit'.reports|
            && Recounted(TellAll(g, unit'.reports[|unit.reports|..]), units, told, failures, unit, unit')
  {
    SaysWhatItBecame(unit, a);
    hide Step, ReportInv, Change, Accounted, TellAll;
    TellSaid(g, units, told, failures, Step(unit, a).reports[|unit.reports|..]);
  }

  lemma UnitMoved(b: Batch, i: nat, unit': Chain, g: Group)
    requires BatchInv(b) && i < |b.units| && ReportInv(unit')
    requires Recounted(g, |b.units|, Count(Ended, b.units) + Count(ToldTwice, b.units), Count(Raised, b.units),
                       b.units[i], unit')
    ensures BatchInv(Batch(b.units[i := unit'], g))
  {
    CountUpdate(Ended, b.units, i, unit');
    CountUpdate(ToldTwice, b.units, i, unit');
    CountUpdate(Raised, b.units, i, unit');
    InvsStay(b.units, i, unit');
    hide ReportInv, AllInv, Ended, Raised, Accounted, Count, ToldTwice, Change;
  }

  lemma InvsStay(units: seq<Chain>, i: nat, unit': Chain)
    requires i < |units| && ReportInv(unit') && AllInv(units)
    ensures AllInv(units[i := unit'])
  {
    hide ReportInv;
  }

  lemma InvParts(b: Batch, i: nat)
    requires BatchInv(b) && i < |b.units|
    ensures ReportInv(b.units[i])
    ensures Accounted(b.group, |b.units|, Count(Ended, b.units) + Count(ToldTwice, b.units), Count(Raised, b.units))
  {
  }

  lemma UnitTells(b: Batch, i: nat, a: Action)
    requires BatchInv(b) && i < |b.units| && !a.CreateCleanup?
    ensures Recounted(ToldOf(b.group, b.units[i], Step(b.units[i], a)), |b.units|,
                      Count(Ended, b.units) + Count(ToldTwice, b.units), Count(Raised, b.units), b.units[i],
                      Step(b.units[i], a))
    ensures ReportInv(Step(b.units[i], a))
  {
    hide BatchInv, AllInv, ReportInv, Step, TellAll, ToldOf, Accounted, Recounted, Ended, Raised, ToldTwice, Count;
    InvParts(b, i);
    StepReports(b.units[i], a);
    TellStep(b.group, |b.units|, Count(Ended, b.units) + Count(ToldTwice, b.units), Count(Raised, b.units),
             b.units[i], a);
  }

  lemma TellStep(g: Group, units: nat, told: nat, failures: nat, unit: Chain, a: Action)
    requires Accounted(g, units, told, failures)
    requires ReportInv(unit) && !a.CreateCleanup?
    ensures Recounted(ToldOf(g, unit, Step(unit, a)), units, told, failures, unit, Step(unit, a))
  {
    hide Accounted, ReportInv, Step, Recounted, TellAll;
    TellUnit(g, units, told, failures, unit, a);
  }

  lemma UnitStep(b: Batch, i: nat, a: Action)
    requires BatchInv(b) && i < |b.units| && !a.CreateCleanup?
    ensures BatchInv(Batch(b.units[i := Step(b.units[i], a)], ToldOf(b.group, b.units[i], Step(b.units[i], a))))
  {
    hide BatchInv, ReportInv, Step, ToldOf, Recounted, Ended, Raised, ToldTwice, Count;
    UnitTells(b, i, a);
    UnitMoved(b, i, Step(b.units[i], a), ToldOf(b.group, b.units[i], Step(b.units[i], a)));
  }

  lemma {:induction false} BatchStepInv(b: Batch, a: UnitAction)
    requires BatchInv(b) && !a.action.CreateCleanup?
    ensures BatchInv(BatchStep(b, a))
  {
    hide BatchInv, Step, ToldOf;
    if a.unit < |b.units| {
      UnitStep(b, a.unit, Effective(b.group, b.units[a.unit], a.action));
    }
  }

  lemma {:induction false} BatchRunInv(b: Batch, actions: seq<UnitAction>)
    requires BatchInv(b) && forall a <- actions :: !a.action.CreateCleanup?
    ensures BatchInv(BatchRun(b, actions)) && |BatchRun(b, actions).units| == |b.units|
  {
    hide BatchInv;
    if actions != [] {
      BatchRunInv(b, actions[..|actions| - 1]);
      BatchStepInv(BatchRun(b, actions[..|actions| - 1]), actions[|actions| - 1]);
    }
  }

  lemma NewBatchInv(n: nat)
    requires n > 0
    ensures BatchInv(NewBatch(n)) && Count(ToldTwice, NewBatch(n).units) == 0
  {
    assert Ungrouped(EMPTY);
    var units := NewBatch(n).units;
    assert forall u <- units :: u == EMPTY;
    CountsNone(Ended, units);
    CountsNone(ToldTwice, units);
    CountsNone(Raised, units);
  }

  // ---- Batches in which removing containers never raises ----

  predicate OrderlyBatch(actions: seq<UnitAction>) {
    forall a <- actions :: !a.action.CreateCleanup? && !a.action.EndUncleaned?
  }

  /** While no unit counted twice and one has not ended, the group is there. */
  lemma PresentWhile(b: Batch, i: nat)
    requires BatchInv(b) && Count(ToldTwice, b.units) == 0 && i < |b.units| && !Ended(b.units[i])
    ensures b.group.present
  {
    CountsAll(Ended, b.units);
    assert b.units[i] in b.units;
  }

  /** So nothing is told to a group that is gone. */
  lemma NothingRefused(b: Batch, i: nat, a: Action)
    requires BatchInv(b) && Count(ToldTwice, b.units) == 0 && i < |b.units|
    ensures Effective(b.group, b.units[i], a) == a
  {
    var unit := b.units[i];
    if Effective(b.group, unit, a) != a {
      MovableIsLive(unit, a.job);
      InvIsSummed(unit);
      PresentWhile(b, i);
    }
  }

  lemma StillOnce(b: Batch, a: UnitAction)
    requires BatchInv(b) && Count(ToldTwice, b.units) == 0 && !a.action.CreateCleanup? && !a.action.EndUncleaned?
    ensures Count(ToldTwice, BatchStep(b, a).units) == 0
  {
    if a.unit < |b.units| {
      var unit := b.units[a.unit];
      NothingRefused(b, a.unit, a.action);
      ReportsGrow(unit, a.action);
      CountsNone(ToldTwice, b.units);
      assert unit in b.units;
      CountUpdate(ToldTwice, b.units, a.unit, Step(unit, a.action));
    }
  }

  lemma {:induction false} OnceRun(b: Batch, actions: seq<UnitAction>)
    requires BatchInv(b) && Count(ToldTwice, b.units) == 0 && OrderlyBatch(actions)
    ensures Count(ToldTwice, BatchRun(b, actions).units) == 0
  {
    hide BatchInv;
    if actions != [] {
      OnceRun(b, actions[..|actions| - 1]);
      BatchRunInv(b, actions[..|actions| - 1]);
      StillOnce(BatchRun(b, actions[..|actions| - 1]), actions[|actions| - 1]);
    }
  }

  /**
   Over every interleaving of the units of a batch, the group has been told once for every unit in which a
   stage raised or the user stage went well, and once more for every unit whose container removal raised
   behind its report; it is there, and its summary unsent, while these are fewer than the units.
   */
  lemma {:induction false} BatchAccounting(n: nat, actions: seq<UnitAction>)
    requires n > 0 && forall a <- actions :: !a.action.CreateCleanup?
    ensures var b := BatchRun(NewBatch(n), actions);
            Accounted(b.group, n, Count(Ended, b.units) + Count(ToldTwice, b.units), Count(Raised, b.units))
  {
    NewBatchInv(n);
    BatchRunInv(NewBatch(n), actions);
  }

  /**
   When no removal raises, the counters are the numbers of units that ended and that failed, the first
   failure is mailed once, and the summary exactly when all units have ended.
   */
  lemma {:induction false} OrderlyAccounting(n: nat, actions: seq<UnitAction>)
    requires n > 0 && OrderlyBatch(actions)
    ensures var b := BatchRun(NewBatch(n), actions);
            && b.group.finished == Count(Ended, b.units) && b.group.failed == Count(Raised, b.units)
            && b.group.failMails == (if exists u <- b.units :: Raised(u) then 1 else 0)
            && b.group.summaryMails == (if forall u <- b.units :: Ended(u) then 1 else 0)
            && b.group.present == (b.group.summaryMails == 0)
  {
    NewBatchInv(n);
    BatchRunInv(NewBatch(n), actions);
    OnceRun(NewBatch(n), actions);
    var b := BatchRun(NewBatch(n), actions);
    CountsAll(Ended, b.units);
    CountsNone(Raised, b.units);
  }

  /**
   A unit whose user stage goes well when the group is gone fails behind its report, as telling the group raises:
   its job has failed, and so has its row.
   */
  lemma {:induction false} EndAfterSummaryFails(b: Batch, i: nat, j: nat)
    requires i < |b.units| && !b.group.present
    requires CanEndUncleaned(b.units[i], j) && b.units[i].jobs[j].grouped && Current(b.units[i], j, LAST)
    ensures var b' := BatchStep(b, UnitAction(i, EndJob(j, true))); var unit := b'.units[i];
            && unit.jobs[j].status == Failed && unit.rows[LAST].failed && unit.rows[LAST].finished
            && j in unit.handlers && b'.group == b.group
  {
    var unit' := Step(b.units[i], EndUncleaned(j));
    var told := unit'.reports[|b.units[i].reports|..];
    assert told == [EndReport, FailReport];
    assert told[..1] == [EndReport] && [EndReport][..0] == [];
    assert TellAll(b.group, [EndReport]) == b.group;
  }

  /** While the group is there, what a unit does is its own step. */
  lemma {:induction false} StepsAreTheUnits(b: Batch, a: UnitAction)
    requires a.unit < |b.units| && (b.group.present || !a.action.EndJob?)
    ensures BatchStep(b, a).units == b.units[a.unit := Step(b.units[a.unit], a.action)]
  {
  }

  // ---- When the summary can still be sent ----

  lemma {:induction false} BatchRunJoins(b: Batch, first: seq<UnitAction>, second: seq<UnitAction>)
    ensures BatchRun(b, first + second) == BatchRun(BatchRun(b, first), second)
  {
    hide BatchStep;
    if second == [] {
      assert first + second == first;
    } else {
      var n := |second| - 1;
      assert (first + second)[..|first| + n] == first + second[..n];
      BatchRunJoins(b, first, second[..n]);
    }
  }

  function Lift(i: nat, actions: seq<Action>): (r: seq<UnitAction>)
    ensures |r| == |actions| && forall k | 0 <= k < |r| :: r[k] == UnitAction(i, actions[k])
  {
    seq(|actions|, k requires 0 <= k < |actions| => UnitAction(i, actions[k]))
  }

  /** The run of one unit inside a batch. */
  lemma {:induction false} LiftedRun(b: Batch, i: nat, actions: seq<Action>)
    requires BatchInv(b) && Count(ToldTwice, b.units) == 0 && i < |b.units| && Orderly(actions)
    ensures BatchRun(b, Lift(i, actions)).units == b.units[i := Run(b.units[i], actions)]
  {
    hide BatchInv, Step;
    if actions != [] {
      var n := |actions| - 1;
      LiftedRun(b, i, actions[..n]);
      assert Lift(i, actions)[..n] == Lift(i, actions[..n]);
      var b1 := BatchRun(b, Lift(i, actions[..n]));
      BatchRunInv(b, Lift(i, actions[..n]));
      OnceRun(b, Lift(i, actions[..n]));
      NothingRefused(b1, i, actions[n]);
    }
  }

  /** A run that makes every unit end that can. */
  lemma {:induction false} SummaryRun(b: Batch) returns (more: seq<UnitAction>)
    requires BatchInv(b) && Count(ToldTwice, b.units) == 0
    requires forall u <- b.units :: Ended(u) || CanReport(u)
    ensures OrderlyBatch(more) && forall u <- BatchRun(b, more).units :: Ended(u)
    decreases |b.units| - Count(Ended, b.units)
  {
    CountsAll(Ended, b.units);
    if forall u <- b.units :: Ended(u) {
      more := [];
    } else {
      var i: nat :| i < |b.units| && !Ended(b.units[i]);
      assert b.units[i] in b.units;
      var actions := ReportingRun(b.units[i]);
      var unit' := Run(b.units[i], actions);
      var b1 := BatchRun(b, Lift(i, actions));
      UnitEnds(b.units[i], actions);
      LiftedRun(b, i, actions);
      BatchRunInv(b, Lift(i, actions));
      OnceRun(b, Lift(i, actions));
      CountUpdate(Ended, b.units, i, unit');
      OthersStill(b.units, i, unit');
      more := SummaryRun(b1);
      BatchRunJoins(b, Lift(i, actions), more);
      more := Lift(i, actions) + more;
    }
  }

  lemma OthersStill(units: seq<Chain>, i: nat, unit: Chain)
    requires i < |units| && Ended(unit) && forall u <- units :: Ended(u) || CanReport(u)
    ensures forall u <- units[i := unit] :: Ended(u) || CanReport(u)
  {
  }

  lemma UnitEnds(unit: Chain, actions: seq<Action>)
    requires ReportInv(unit) && Orderly(actions) && Run(unit, actions).reports != []
    ensures Ended(Run(unit, actions))
  {
    RunKeepsReports(unit, actions);
    InvIsSummed(Run(unit, actions));
  }

  lemma {:induction false} RunKeepsReports(c: Chain, actions: seq<Action>)
    requires ReportInv(c) && Orderly(actions)
    ensures ReportInv(Run(c, actions))
  {
    hide ReportInv;
    if actions != [] {
      RunKeepsReports(c, actions[..|actions| - 1]);
      StepReports(Run(c, actions[..|actions| - 1]), actions[|actions| - 1]);
    }
  }

  /** A unit of a batch that will never end. */
  predicate GivenUp(c: Chain) {
    !Ended(c) && !CanReport(c)
  }

  lemma GivenUpStays(b: Batch, i: nat, a: UnitAction)
    requires BatchInv(b) && !a.action.CreateCleanup? && i < |b.units| && GivenUp(b.units[i])
    ensures GivenUp(BatchStep(b, a).units[i])
  {
    if a.unit == i {
      var unit := b.units[i];
      var action := Effective(b.group, unit, a.action);
      SettledStays(unit, action);
      StepReports(unit, action);
      InvIsSummed(unit);
      InvIsSummed(Step(unit, action));
    }
  }

  /**
   A unit that has not ended and cannot report, as one cancelled while it was queued, is never counted,
   whatever the units do, restarts included; so no orderly run sends the summary.
   */
  lemma {:induction false} CancelledUnitBlocksSummary(b: Batch, i: nat, actions: seq<UnitAction>)
    requires BatchInv(b) && i < |b.units| && GivenUp(b.units[i])
    requires forall a <- actions :: !a.action.CreateCleanup?
    ensures var b' := BatchRun(b, actions);
            && BatchInv(b') && |b'.units| == |b.units| && GivenUp(b'.units[i])
            && (Count(ToldTwice, b.units) == 0 && OrderlyBatch(actions) ==>
                  b'.group.summaryMails == 0 && b'.group.present)
  {
    hide BatchInv, GivenUp;
    GivenUpRun(b, i, actions);
    BatchRunInv(b, actions);
    if Count(ToldTwice, b.units) == 0 && OrderlyBatch(actions) {
      OnceRun(b, actions);
      UnsentWhile(BatchRun(b, actions), i);
    }
  }

  lemma UnsentWhile(b: Batch, i: nat)
    requires BatchInv(b) && Count(ToldTwice, b.units) == 0 && i < |b.units| && GivenUp(b.units[i])
    ensures b.group.summaryMails == 0 && b.group.present
  {
    PresentWhile(b, i);
  }

  lemma {:induction false} GivenUpRun(b: Batch, i: nat, actions: seq<UnitAction>)
    requires BatchInv(b) && i < |b.units| && GivenUp(b.units[i])
    requires forall a <- actions :: !a.action.CreateCleanup?
    ensures |BatchRun(b, actions).units| == |b.units| && GivenUp(BatchRun(b, actions).units[i])
  {
    hide BatchInv, GivenUp;
    if actions != [] {
      GivenUpRun(b, i, actions[..|actions| - 1]);
      BatchRunInv(b, actions[..|actions| - 1]);
      GivenUpStays(BatchRun(b, actions[..|actions| - 1]), i, actions[|actions| - 1]);
    }
  }

  ghost predicate SummaryCanCome(b: Batch) {
    exists more: seq<UnitAction> :: OrderlyBatch(more) && BatchRun(b, more).group.summaryMails == 1
  }

  /**
   At every moment of a batch in which no removal raises: the summary was sent or still can be exactly when
   every unit has ended or can report.
   */
  lemma {:induction false} SummaryCanComeIff(n: nat, before: seq<UnitAction>)
    requires n > 0 && OrderlyBatch(before)
    ensures var b := BatchRun(NewBatch(n), before);
            SummaryCanCome(b) <==> forall u <- b.units :: Ended(u) || CanReport(u)
  {
    hide BatchInv;
    var b := BatchRun(NewBatch(n), before);
    NewBatchInv(n);
    BatchRunInv(NewBatch(n), before);
    OnceRun(NewBatch(n), before);
    if forall u <- b.units :: Ended(u) || CanReport(u) {
      var more := SummaryRun(b);
      BatchRunJoins(NewBatch(n), before, more);
      OrderlyAccounting(n, before + more);
    } else {
      var i: nat :| i < |b.units| && GivenUp(b.units[i]);
      forall more: seq<UnitAction> | OrderlyBatch(more)
        ensures BatchRun(b, more).group.summaryMails == 0
      {
        CancelledUnitBlocksSummary(b, i, more);
      }
    }
  }

  /** A removal that raises can use up another unit's report: the summary goes out before that unit began. */
  lemma {:induction false} SummaryComesEarly()
    ensures var b := BatchRun(NewBatch(2), Lift(0, TWICE));
            b.group.summaryMails == 1 && !b.group.present && b.units == [Run(EMPTY, TWICE), EMPTY]
  {
    TwiceInBatch();
    NewBatchInv(2);
    hide BatchInv, BatchRun, Run;
    BatchRunInv(NewBatch(2), Lift(0, TWICE));
    TwiceIsReached();
    OneCountsTwice(BatchRun(NewBatch(2), Lift(0, TWICE)));
  }

  lemma TwiceInBatch()
    ensures BatchRun(NewBatch(2), Lift(0, TWICE)).units == [Run(EMPTY, TWICE), EMPTY]
  {
    var b, actions := NewBatch(2), FIRST_TWO + [StartJob(2)];
    hide BatchInv, Run, Step;
    NewBatchInv(2);
    assert TWICE == actions + [EndUncleaned(2)];
    assert TWICE[..|actions|] == actions;
    LiftedRun(b, 0, actions);
    assert Lift(0, TWICE)[..|actions|] == Lift(0, actions);
    LastOfTwo(BatchRun(b, Lift(0, actions)), EndUncleaned(2));
    RunSnocIs(EMPTY, actions, EndUncleaned(2));
  }

  lemma RunSnocIs(c: Chain, actions: seq<Action>, a: Action)
    ensures Run(c, actions + [a]) == Step(Run(c, actions), a)
  {
    assert (actions + [a])[..|actions|] == actions;
  }

  lemma LastOfTwo(b: Batch, a: Action)
    requires |b.units| == 2 && !a.EndJob?
    ensures BatchStep(b, UnitAction(0, a)).units == [Step(b.units[0], a), b.units[1]]
  {
    hide Step, ToldOf;
  }

  lemma OneCountsTwice(b: Batch)
    requires BatchInv(b) && |b.units| == 2 && ToldTwice(b.units[0])
    ensures b.group.summaryMails == 1 && !b.group.present
  {
    InvIsSummed(b.units[0]);
    assert b.units[0] in b.units;
    CountsNone(ToldTwice, b.units);
    CountsNone(Ended, b.units);
    hide Count, ReportInv;
  }
}
