/**
 Background jobs as the program updates their tables: planning, leasing, execution, and the recovery
 at a supervisor's start, each equal to the steps of one thread.
 */
module JobTables {
  import opened Text
  import opened Jobs
  import opened JobRecovery
  import D = DedupKeys

  /** The newest active job with a key. */
  function NewestActive(jobs: seq<Job>, key: string): (r: Option<nat>)
    ensures r.Some? <==> HasActiveJob(jobs, key)
    ensures r.Some? ==> r.value < |jobs| && jobs[r.value].key == key && IsActive(jobs[r.value].status)
    ensures r.Some? ==> forall i | r.value < i < |jobs| :: !(jobs[i].key == key && IsActive(jobs[i].status))
  {
    if jobs == [] then None
    else
      var last := |jobs| - 1;
      if jobs[last].key == key && IsActive(jobs[last].status) then Some(last)
      else
        var earlier := NewestActive(jobs[..last], key);
        assert HasActiveJob(jobs, key) ==> HasActiveJob(jobs[..last], key) by {
          if i :| 0 <= i < |jobs| && jobs[i].key == key && IsActive(jobs[i].status) {
            assert jobs[..last][i] == jobs[i];
          }
        }
        assert HasActiveJob(jobs[..last], key) ==> HasActiveJob(jobs, key) by {
          if i :| 0 <= i < last && jobs[..last][i].key == key && IsActive(jobs[..last][i].status) {
            assert jobs[i] == jobs[..last][i];
          }
        }
        earlier
  }

  datatype PlanningDecision = PlannedJob(job: nat) | SuppressedDuplicate(existing: nat) | RejectedPlan

  /** The one pair of job and trigger kind that is recognised but not supported. */
  predicate IsCompatible(kind: D.JobKind, trigger: D.Trigger) {
    !(kind.ContradictionAndDriftScan? && trigger.kind.DriftOrAnomalySignal?)
  }

  // ----- The steps of an execution --------------------------------------------------------------------

  /** How an execution can end: it fails early with its lease, and late or with success without. */
  datatype Ending = Early(timedOut: bool) | Late(succeeds: bool) {
    function Outcome(): Outcome {
      match this
      case Early(timedOut) => if timedOut then Timeout else Failure
      case Late(succeeds) => if succeeds then Success else Failure
    }
  }

  function ExecutionSteps(ending: Ending): (steps: seq<Step>)
    ensures |steps| == if ending.Late? then 6 else 5
  {
    [StartJob, StartRun, TakeWorkerLease]
    + (if ending.Late? then [ReleaseWorkerLease] else [])
    + [EndRun(ending.Outcome()), EndJob]
  }

  function MovesOf(t: nat, steps: seq<Step>): (moves: seq<Move>)
    ensures |moves| == |steps| && forall i | 0 <= i < |steps| :: moves[i] == Move(t, steps[i])
  {
    seq(|steps|, i requires 0 <= i < |steps| => Move(t, steps[i]))
  }

  /** The tables after the first `n` steps of an execution that nobody interferes with, and its phase. */
  function Progress(w: World, job: nat, run: nat, ending: Ending, n: nat): World
    requires job < |w.jobs| && run < |w.runs| && n <= |ExecutionSteps(ending)|
  {
    var last := |ExecutionSteps(ending)|;
    var running := w.(jobs := SetJob(w.jobs, job, JobStatus.Running));
    var started := running.(runs := SetRun(w.runs, run, RunStatus.Running));
    var working := started.(leases := w.leases + {run});
    var answered := if ending.Late? then working.(leases := working.leases - {run}) else working;
    var ended := answered.(runs := SetRun(answered.runs, run, ending.Outcome().RunEndsAs()));
    if n == 0 then w
    else if !MayTake(w.jobs, job, JobStatus.Running) then Idle(w, 0)
    else if n == 1 then At(running, 0, Executing(job, run, JobStarted))
    else if n == 2 then At(started, 0, Executing(job, run, RunStarted))
    else if n == 3 then At(working, 0, Executing(job, run, Working))
    else if n == 4 && ending.Late? then At(answered, 0, Executing(job, run, Released))
    else if n < last then At(ended, 0, Executing(job, run, RunEnded(ending.Outcome())))
    else Idle(ended.(jobs := SetJob(running.jobs, job, ending.Outcome().JobEndsAs())), 0)
  }

  lemma {:induction false} ExecutionMove(w: World, step: Step)
    requires 0 in w.threads && w.threads[0].Executing? && !step.Crash?
    ensures Apply(w, Move(0, step)) == ApplyExecution(w, 0, w.threads[0].job, w.threads[0].run, w.threads[0].stage, step)
  {
  }

  lemma {:induction false} LonelyWriteJob(w: World, job: nat, status: JobStatus, next: Option<Phase>)
    requires 0 in w.threads && w.threads == map[0 := w.threads[0]] && !w.threads[0].Selected? && job < |w.jobs|
    ensures WriteJob(w, 0, job, status, next) ==
            if !MayTake(w.jobs, job, status) then Idle(w, 0)
            else if next.Some? then At(w.(jobs := SetJob(w.jobs, job, status)), 0, next.value)
            else Idle(w.(jobs := SetJob(w.jobs, job, status)), 0)
  {
  }

  lemma {:induction false} IdleStepsDoNothing(w: World, step: Step)
    requires 0 !in w.threads && !step.CheckKey? && !step.SelectDue? && !step.ListStranded? && !step.ExpireWorkerLease?
    ensures Apply(w, Move(0, step)) == w
  {
  }

  lemma {:induction false} StartingStep(w: World, job: nat, run: nat, ending: Ending)
    requires job < |w.jobs| && run < |w.runs| && w.threads == map[0 := Executing(job, run, Claimed)]
    ensures Apply(w, Move(0, StartJob)) == Progress(w, job, run, ending, 1)
  {
    ExecutionMove(w, StartJob);
    LonelyWriteJob(w, job, JobStatus.Running, Some(Executing(job, run, JobStarted)));
  }

  lemma {:induction false} WorkingStep(w: World, job: nat, run: nat, ending: Ending, n: nat, step: Step)
    requires job < |w.jobs| && run < |w.runs| && MayTake(w.jobs, job, JobStatus.Running)
    requires 0 < n < |ExecutionSteps(ending)| - 1 && step == ExecutionSteps(ending)[n]
    requires w.threads == map[0 := Executing(job, run, Claimed)]
    ensures Apply(Progress(w, job, run, ending, n), Move(0, step)) == Progress(w, job, run, ending, n + 1)
  {
    assert forall stage: Stage :: w.threads[0 := Executing(job, run, stage)] == map[0 := Executing(job, run, stage)];
    ExecutionMove(Progress(w, job, run, ending, n), step);
  }

  lemma {:induction false} EndingStep(w: World, job: nat, run: nat, ending: Ending)
    requires job < |w.jobs| && run < |w.runs| && MayTake(w.jobs, job, JobStatus.Running)
    requires w.threads == map[0 := Executing(job, run, Claimed)]
    ensures var last := |ExecutionSteps(ending)|;
            Apply(Progress(w, job, run, ending, last - 1), Move(0, EndJob)) == Progress(w, job, run, ending, last)
  {
    var p := Progress(w, job, run, ending, |ExecutionSteps(ending)| - 1);
    assert p.threads == map[0 := Executing(job, run, RunEnded(ending.Outcome()))];
    ExecutionMove(p, EndJob);
    LonelyWriteJob(p, job, ending.Outcome().JobEndsAs(), None);
  }

  lemma {:induction false} ProgressStep(w: World, job: nat, run: nat, ending: Ending, n: nat, step: Step)
    requires job < |w.jobs| && run < |w.runs| && n < |ExecutionSteps(ending)| && step == ExecutionSteps(ending)[n]
    requires w.threads == map[0 := Executing(job, run, Claimed)]
    ensures Apply(Progress(w, job, run, ending, n), Move(0, step)) == Progress(w, job, run, ending, n + 1)
  {
    if n == 0 {
      StartingStep(w, job, run, ending);
    } else if !MayTake(w.jobs, job, JobStatus.Running) {
      IdleStepsDoNothing(Idle(w, 0), step);
    } else if n < |ExecutionSteps(ending)| - 1 {
      WorkingStep(w, job, run, ending, n, step);
    } else {
      EndingStep(w, job, run, ending);
    }
  }

  lemma {:induction false} ExecutionUnfolds(w: World, job: nat, run: nat, ending: Ending, n: nat)
    requires job < |w.jobs| && run < |w.runs| && n <= |ExecutionSteps(ending)|
    requires w.threads == map[0 := Executing(job, run, Claimed)]
    ensures After(w, MovesOf(0, ExecutionSteps(ending)[..n])) == Progress(w, job, run, ending, n)
  {
    var steps := ExecutionSteps(ending);
    if n == 0 {
      assert MovesOf(0, steps[..0]) == [];
    } else {
      ExecutionUnfolds(w, job, run, ending, n - 1);
      AfterOneMore(w, MovesOf(0, steps[..n - 1]), Move(0, steps[n - 1]));
      assert MovesOf(0, steps[..n]) == MovesOf(0, steps[..n - 1]) + [Move(0, steps[n - 1])];
      ProgressStep(w, job, run, ending, n - 1, steps[n - 1]);
    }
  }

  // ----- The tables ---------------------------------------------------------------------------------------

  class BackgroundJobs {
    var jobs: seq<Job>
    var runs: seq<Run>
    var leases: set<nat>

    constructor ()
      ensures TablesAmid(map[]) == INIT
    {
      jobs, runs, leases := [], [], {};
    }

    /** The tables, and what other threads are doing. */
    function TablesAmid(phases: map<nat, Phase>): World
      reads this
    {
      World(jobs, runs, leases, phases)
    }

    /** One planning: an incompatible request is rejected, else the check and the insert commit together. */
    method PlanBackgroundJob(kind: D.JobKind, trigger: D.Trigger, conversation: Option<string>, availableAt: int)
        returns (decision: PlanningDecision)
      modifies this
      ensures decision.RejectedPlan? <==> kind.ContradictionAndDriftScan? && trigger.kind.DriftOrAnomalySignal?
      ensures decision.RejectedPlan? ==> TablesAmid(map[]) == old(TablesAmid(map[]))
      ensures !decision.RejectedPlan? ==>
                var key := D.BuildDeduplicationKey(kind, trigger, conversation);
                && TablesAmid(map[]) == Apply(Apply(old(TablesAmid(map[])), Move(0, CheckKey(key))), Move(0, InsertJob(availableAt)))
                && decision == match NewestActive(old(jobs), key)
                               case Some(existing) => SuppressedDuplicate(existing)
                               case None => PlannedJob(|old(jobs)|)
    {
      if !IsCompatible(kind, trigger) {
        return RejectedPlan;
      }
      var key := D.BuildDeduplicationKey(kind, trigger, conversation);
      var existing := NewestActive(jobs, key);
      if existing.Some? {
        return SuppressedDuplicate(existing.value);
      }
      decision := PlannedJob(|jobs|);
      jobs := jobs + [Job(key, availableAt, Planned)];
      assert map[0 := Checked(key)] - {0} == map[];
    }

    /** One lease transaction, beside leasers that hold the given row locks. */
    method LeaseNextDueJob(now: int, others: map<nat, Phase>, ghost t: nat) returns (leased: Option<Run>)
      requires t !in others
      modifies this`jobs, this`runs
      ensures TablesAmid(if leased.Some? then others[t := Executing(leased.value.job, |old(runs)|, Claimed)] else others)
           == Apply(Apply(old(TablesAmid(others)), Move(t, SelectDue(now))), Move(t, CommitLease))
      ensures leased.Some? <==> exists j: nat :: IsDue(old(TablesAmid(others)), now, j)
      ensures leased.Some? ==> runs == old(runs) + [leased.value] && leased.value.status.Leased?
    {
      var due := NextDue(TablesAmid(others), now, 0);
      if due.None? {
        return None;
      }
      ghost var before := TablesAmid(others);
      assert IsDue(before, now, due.value);
      leased := Some(Run(due.value, RunStatus.Leased));
      jobs := SetJob(jobs, due.value, JobStatus.Leased);
      runs := runs + [Run(due.value, RunStatus.Leased)];
      assert others[t := Selected(due.value)][t := Executing(due.value, |before.runs|, Claimed)]
          == others[t := Executing(due.value, |before.runs|, Claimed)];
    }

    /** The update is refused where the index over active keys would not allow it. */
    method UpdateJobStatus(job: nat, status: JobStatus) returns (ok: bool)
      requires job < |jobs|
      modifies this`jobs
      ensures ok <==> MayTake(old(jobs), job, status)
      ensures jobs == if ok then SetJob(old(jobs), job, status) else old(jobs)
    {
      ok := MayTake(jobs, job, status);
      if ok {
        jobs := jobs[job := jobs[job].(status := status)];
      }
    }

    /** The update is refused unless exactly the runs that are not merely leased have a start time. */
    method UpdateJobRunStatus(run: nat, status: RunStatus, hasStartTime: bool) returns (ok: bool)
      requires run < |runs|
      modifies this`runs
      ensures ok <==> (hasStartTime <==> !status.Leased?)
      ensures runs == if ok then SetRun(old(runs), run, status) else old(runs)
    {
      ok := hasStartTime != status.Leased?;
      if ok {
        runs := runs[run := runs[run].(status := status)];
      }
    }

    /** The steps of a leased job that stops after the first `n` of them. */
    method ExecuteLeasedJob(job: nat, run: nat, ending: Ending, n: nat)
      requires job < |jobs| && run < |runs| && n <= |ExecutionSteps(ending)|
      modifies this
      ensures var moves := MovesOf(0, ExecutionSteps(ending)[..n]);
              var after := After(old(TablesAmid(map[0 := Executing(job, run, Claimed)])), moves);
              TablesAmid(after.threads) == after
    {
      ExecutionUnfolds(TablesAmid(map[0 := Executing(job, run, Claimed)]), job, run, ending, n);
      if n == 0 { return; }
      var ok := UpdateJobStatus(job, JobStatus.Running);
      if !ok || n == 1 { return; }
      ok := UpdateJobRunStatus(run, RunStatus.Running, true);
      if n == 2 { return; }
      leases := leases + {run};
      if n == 3 { return; }
      if ending.Late? {
        leases := leases - {run};
        if n == 4 { return; }
      }
      ok := UpdateJobRunStatus(run, ending.Outcome().RunEndsAs(), true);
      if n < |ExecutionSteps(ending)| { return; }
      ok := UpdateJobStatus(job, ending.Outcome().JobEndsAs());
    }

    /** The recovery of one listed run; it may stop between its two writes. */
    method RecoverRun(run: nat, stops: bool) returns (ok: bool)
      requires run < |runs| && runs[run].job < |jobs|
      requires UniqueActive(jobs) && IsActive(jobs[runs[run].job].status)
      modifies this`jobs, this`runs
      ensures ok <==> !old(runs)[run].status.Leased? && !stops
      ensures runs == if old(runs)[run].status.Leased? then old(runs) else SetRun(old(runs), run, RunStatus.Failed)
      ensures jobs == if ok then SetJob(old(jobs), old(runs)[run].job, Planned) else old(jobs)
    {
      ActiveJobsMayTake(jobs, runs[run].job, Planned);
      var job, started := runs[run].job, !runs[run].status.Leased?;
      ok := UpdateJobRunStatus(run, RunStatus.Failed, started);
      if !ok || stops {
        return false;
      }
      ok := UpdateJobStatus(job, Planned);
    }

    /**
     The recovery at a supervisor's start goes through the runs it has listed, and ends in an error at the
     first that was never started.
     */
    method RecoverAtRestart(listed: seq<nat>) returns (recovered: nat)
      requires UniqueActive(jobs) && IsListing(TablesAmid(map[]), listed)
      modifies this`jobs, this`runs
      ensures recovered <= |listed|
      ensures var before := old(TablesAmid(map[]));
              && TablesAmid(map[]) == Pass(before, listed, recovered)
              && (forall i | 0 <= i < recovered :: before.runs[listed[i]].status.Running?)
              && (recovered < |listed| ==> before.runs[listed[recovered]].status.Leased?)
    {
      ghost var before := TablesAmid(map[]);
      recovered := 0;
      while recovered < |listed|
        invariant recovered <= |listed|
        invariant TablesAmid(map[]) == Pass(before, listed, recovered)
        invariant forall i | 0 <= i < recovered :: before.runs[listed[i]].status.Running?
      {
        PassTouchesOnlyItsRuns(before, listed, recovered, recovered);
        PassKeepsUnique(before, listed, recovered);
        assert jobs == Pass(before, listed, recovered).jobs && runs == Pass(before, listed, recovered).runs;
        var ok := RecoverRun(listed[recovered], false);
        if !ok {
          return;
        }
        recovered := recovered + 1;
      }
    }
  }
}
