/**
 The request and stage handlers as they work on the stored rows and on the queue, each proved to do
 what the chain model says.
 */
module ChainHandlers {
  import opened Common
  import opened StageChain

  /** The stored state of one request: its stage rows, the queue, and its sandbox. */
  class RequestStore {
    var rows: seq<Row>
    var jobs: seq<Job>
    var handlers: set<nat>
    var sandbox: Option<Sandbox>
    var nextSandbox: nat
    var reports: seq<Report>

    function View(): Chain
      reads this
    {
      Chain(rows, jobs, handlers, sandbox, nextSandbox, reports)
    }

    constructor ()
      ensures View() == EMPTY
    {
      rows, jobs, handlers, sandbox, nextSandbox, reports := [], [], {}, None, 0, [];
    }

    /** Saves a stage copy, unless the row it belongs to was replaced. */
    method SaveStage(pos: nat, stage: Row) returns (saved: bool)
      modifies this`rows
      ensures saved == (pos < |old(rows)| && old(rows)[pos].job == stage.job)
      ensures rows == if saved then old(rows)[pos := stage] else old(rows)
    {
      saved := pos < |rows| && rows[pos].job == stage.job;
      if saved {
        rows := rows[pos := stage];
      }
    }

    method Report(grouped: bool, report: Report)
      modifies this`reports
      ensures reports == if grouped then old(reports) + [report] else old(reports)
    {
      if grouped {
        reports := reports + [report];
      }
    }

    method Enqueue(task: Task, deps: set<nat>, grouped: bool) returns (job: nat)
      modifies this`jobs
      ensures job == |old(jobs)| && jobs == old(jobs) + [Job(task, deps, Waiting, false, grouped)]
    {
      job := |jobs|;
      jobs := jobs + [Job(task, deps, Waiting, false, grouped)];
    }

    /** Deletes a job together with the jobs that depend on it. */
    method Delete(j: nat)
      modifies this`jobs
      ensures jobs == DeleteJob(old(jobs), j)
    {
      var i := 0;
      var was := jobs;
      while i < |jobs|
        invariant 0 <= i <= |jobs| == |was|
        invariant jobs[..i] == DeleteJob(was, j)[..i] && jobs[i..] == was[i..]
      {
        if i == j || j in jobs[i].deps {
          jobs := jobs[i := jobs[i].(deleted := true)];
        }
        i := i + 1;
      }
    }
  }

  class StageHandler {
    var stage: Row          // the handler's own copy
    const pos: nat
    const grouped: bool     // carries a request group

    constructor (stage: Row, pos: nat, grouped: bool)
      ensures this.stage == stage && this.pos == pos && this.grouped == grouped
    {
      this.stage, this.pos, this.grouped := stage, pos, grouped;
    }

    /**
     `execute`; `ok` is how the work of the stage itself ends, and `cleaned` whether its container, behind the
     report, is removed without an exception.
     */
    method Execute(store: RequestStore, ok: bool, cleaned: bool) returns (raised: bool)
      requires stage.job.Some? && stage == FRESH_ROW.(job := stage.job)
      requires CanStart(store.View(), stage.job.value)
      requires store.jobs[stage.job.value].task == StageTask(pos) && store.jobs[stage.job.value].grouped == grouped
      modifies this`stage, store`rows, store`reports
      ensures var c := old(store.View()); var j := old(stage).job.value;
              var c' := if !Current(c, j, pos) then Start(c, j)
                        else if ok && !cleaned && pos == LAST then EndUncleanedStage(Start(c, j), j)
                        else End(Start(c, j), j, ok && cleaned);
              store.rows == c'.rows && store.reports == c'.reports
              && raised == (c'.jobs[j].status == Failed)
    {
      // try
      stage := stage.(start := true);
      var saved := store.SaveStage(pos, stage);
      raised := !(saved && ok);
      if !raised {
        store.Report(grouped && pos == LAST, EndReport);
        raised := !cleaned;
      }
      if raised {
        // except
        stage := stage.(failed := true);
        store.Report(grouped, FailReport);
      }
      // finally
      stage := stage.(end := true, finished := true);
      saved := store.SaveStage(pos, stage);
      raised := raised || !saved;
    }

    /** `cancel`, on a copy loaded from the store. */
    method Cancel(store: RequestStore, outcome: CancelOutcome) returns (raised: bool)
      requires pos < |store.rows| && stage == store.rows[pos]
      modifies this`stage, store`rows, store`jobs
      ensures store.View() == CancelStage(old(store.View()), pos, outcome)
      ensures raised == CancelRaises(old(store.View()), pos, outcome)
    {
      raised := false;
      if !stage.finished {
        // try
        if outcome.RaisesBeforeDelete? {
          raised := true;
        } else {
          if stage.job.Some? {
            store.Delete(stage.job.value);
          }
          raised := outcome.RaisesAfterDelete?;
        }
        // finally
        stage := stage.(failed := true);
        stage := stage.(end := true);
        stage := stage.(finished := true);
        var _ := store.SaveStage(pos, stage);
      }
    }
  }

  datatype Verdict = Accepted | Rejected | Raised

  class RequestHandler {
    constructor () {}

    /** `cancel_request`: last stage first; an exception of one stage ends the pass. */
    method CancelRequest(store: RequestStore, plan: seq<CancelOutcome>) returns (v: Verdict)
      requires |store.rows| <= |plan|
      modifies store`rows, store`jobs
      ensures store.View() == StageChain.CancelRequest(old(store.View()), plan)
      ensures v.Rejected? <==> Finished(old(store.rows))
    {
      if forall r <- store.rows :: r.finished {
        return Rejected;
      }
      var loaded := store.rows;
      var n := |loaded|;
      v := Accepted;
      while n > 0 && v.Accepted?
        invariant 0 <= n <= |loaded| == |store.rows| && store.rows[..n] == loaded[..n] && !v.Rejected?
        invariant CancelFrom(old(store.View()), |loaded|, plan)
               == if v.Accepted? then CancelFrom(store.View(), n, plan) else store.View()
        decreases n, v.Accepted?
      {
        assert loaded[n - 1] == loaded[..n][n - 1] == store.rows[n - 1];
        var handler := new StageHandler(loaded[n - 1], n - 1, false);
        var raised := handler.Cancel(store, plan[n - 1]);
        if raised {
          v := Raised;
        }
        assert store.rows[..n - 1] == loaded[..n][..n - 1];
        n := n - 1;
      }
    }

    /** `request_exception_handler` for the failed job `j`. */
    method HandleException(store: RequestStore, j: nat, plan: seq<CancelOutcome>) returns (v: Verdict)
      requires |store.rows| <= |plan|
      modifies store`rows, store`jobs, store`handlers
      ensures store.View() == HandleFailed(old(store.View()), j, plan)
    {
      store.handlers := store.handlers - {j};
      v := Rejected;
      if exists pos: nat | pos < |store.rows| :: store.rows[pos].job == Some(j) {
        assert exists pos: nat | pos < |store.rows| :: Current(old(store.View()), j, pos) by {
          var pos: nat :| pos < |store.rows| && store.rows[pos].job == Some(j);
          assert Current(old(store.View()), j, pos);
        }
        v := CancelRequest(store, plan);
      }
    }

    /** The loop of `_enqueue_request`. */
    method EnqueueStages(store: RequestStore, positions: seq<nat>, extra: Option<nat>, grouped: bool)
      returns (previous: Option<nat>)
      requires forall i | 0 <= i < |positions| :: positions[i] < |store.rows|
      modifies store`rows, store`jobs
      ensures (store.rows, store.jobs, previous)
           == StageChain.EnqueueStages(old(store.rows), old(store.jobs), positions, None, extra, grouped)
      ensures |store.rows| == |old(store.rows)|
    {
      previous := None;
      var i := 0;
      while i < |positions|
        invariant 0 <= i <= |positions| && |store.rows| == |old(store.rows)|
        invariant StageChain.EnqueueStages(old(store.rows), old(store.jobs), positions, None, extra, grouped)
               == StageChain.EnqueueStages(store.rows, store.jobs, positions[i..], previous, extra, grouped)
      {
        var pos := positions[i];
        var deps := DepsOn(previous);
        if extra.Some? && pos == LAST {
          deps := DepsOn(previous) + DepsOn(extra);
        }
        assert deps == StageDeps(pos, previous, extra);
        assert positions[i..][0] == pos && positions[i..][1..] == positions[i + 1..];
        var job := store.Enqueue(StageTask(pos), deps, grouped);
        previous := Some(job);
        store.rows := store.rows[pos := store.rows[pos].(job := Some(job))];
        i := i + 1;
      }
    }

    /** `_enqueue_allocation_request`: provisioning, the stages, the finalizer. */
    method EnqueueRequest(store: RequestStore, positions: seq<nat>, final: Task, netbird: bool, grouped: bool)
      requires forall i | 0 <= i < |positions| :: positions[i] < |store.rows|
      modifies store`rows, store`jobs
      ensures store.View() == StageChain.EnqueueRequest(old(store.View()), positions, final, netbird, grouped)
    {
      var extra: Option<nat> := None;
      if netbird {
        var job := store.Enqueue(ProvisionTask, {}, false);
        extra := Some(job);
      }
      var last := EnqueueStages(store, positions, extra, grouped);
      var _ := store.Enqueue(final, DepsOn(last), false);
    }

    /** `_restart_stage_handlers` after its two checks. */
    method RestartStageHandlers(store: RequestStore) returns (positions: seq<nat>)
      requires |store.rows| == 3
      modifies store`rows
      ensures (store.rows, positions) == RestartRows(old(store.rows))
    {
      positions := [];
      if store.rows[0].failed {
        store.rows := store.rows[0 := FRESH_ROW];
        positions := [0];
      }
      if store.rows[0].failed || store.rows[1].failed {
        store.rows := store.rows[1 := FRESH_ROW];
        positions := positions + [1];
      }
      store.rows := store.rows[2 := FRESH_ROW];
      positions := positions + [2];
    }

    /** `_create_restart_jobs`. */
    method CreateRestartJobs(store: RequestStore, netbird: bool) returns (v: Verdict)
      requires |store.rows| == 3
      modifies store
      ensures store.View() == RestartRequest(old(store.View()), netbird)
      ensures v.Accepted? <==> old(store.sandbox).Some? && RestartAccepted(old(store.rows))
    {
      if store.sandbox.None? {
        return Raised;
      }
      var sandbox := store.nextSandbox;
      store.sandbox := Some(Sandbox(sandbox, false));
      store.nextSandbox := sandbox + 1;
      if (exists r <- store.rows :: !r.finished) || !store.rows[2].failed {
        return Rejected;
      }
      var positions := RestartStageHandlers(store);
      EnqueueRequest(store, positions, ReadyTask(sandbox), netbird, false);
      v := Accepted;
    }

    /** `_mark_sandbox_as_ready`. */
    method MarkSandboxAsReady(store: RequestStore, j: nat, sandbox: nat) returns (v: Verdict)
      requires CanStart(store.View(), j) && store.jobs[j].task == ReadyTask(sandbox)
      modifies store`sandbox, store`jobs, store`handlers
      ensures store.View() == Start(old(store.View()), j)
      ensures v.Accepted? <==> old(store.sandbox).None? || old(store.sandbox).value.id == sandbox
      ensures if v.Accepted? then store.sandbox == Some(Sandbox(sandbox, true)) else store.sandbox == old(store.sandbox)
    {
      if store.sandbox.None? || store.sandbox.value.id == sandbox {
        store.sandbox := Some(Sandbox(sandbox, true));
        store.jobs := store.jobs[j := store.jobs[j].(status := Succeeded)];
        v := Accepted;
      } else {
        store.jobs := store.jobs[j := store.jobs[j].(status := Failed)];
        store.handlers := store.handlers + {j};
        v := Raised;
      }
    }
  }
}
