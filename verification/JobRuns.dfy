/**
 How jobs and their runs agree as long as recovery never lists a run that somebody still holds.
 */
module JobRuns {
  import opened Text
  import opened Jobs

  // ----- The invariant ------------------------------------------------------------------------

  predicate IsNewest(runs: seq<Run>, run: nat)
    requires run < |runs|
  {
    forall s | run < s < |runs| :: runs[s].job != runs[run].job
  }

  /** The pairs of a job's status and that of its newest run that committed writes can leave behind. */
  predicate Matching(job: JobStatus, run: RunStatus) {
    match job
    case Planned => run.Failed?
    case Leased => run.Leased?
    case Running => true
    case Completed => run.Completed?
    case Failed => run.Failed? || run.TimedOut?
    case _ => false
  }

  predicate HasRun(runs: seq<Run>, job: nat) {
    exists r :: 0 <= r < |runs| && runs[r].job == job
  }

  /** The newest run of a job matches the job; older ones were failed to make way for it. */
  predicate RunOk(jobs: seq<Job>, runs: seq<Run>, r: nat)
    requires r < |runs|
  {
    && runs[r].job < |jobs|
    && if IsNewest(runs, r) then Matching(jobs[runs[r].job].status, runs[r].status) else runs[r].status.Failed?
  }

  predicate TablesOk(jobs: seq<Job>, runs: seq<Run>) {
    && (forall r | 0 <= r < |runs| :: RunOk(jobs, runs, r))
    && (forall j | 0 <= j < |jobs| :: jobs[j].status.Planned? || HasRun(runs, j))
  }

  predicate StageOk(job: JobStatus, run: RunStatus, leased: bool, stage: Stage) {
    match stage
    case Claimed => job.Leased? && run.Leased? && !leased
    case JobStarted => job.Running? && run.Leased? && !leased
    case RunStarted => job.Running? && run.Running? && !leased
    case Working => job.Running? && run.Running?
    case Released => job.Running? && run.Running? && !leased
    case RunEnded(outcome) => job.Running? && run == outcome.RunEndsAs()
  }

  predicate IsNewestRunOf(jobs: seq<Job>, runs: seq<Run>, job: nat, run: nat) {
    run < |runs| && runs[run].job == job && job < |jobs| && IsNewest(runs, run)
  }

  predicate PhaseOk(jobs: seq<Job>, runs: seq<Run>, leases: set<nat>, p: Phase) {
    match p
    case Executing(job, run, stage) =>
      IsNewestRunOf(jobs, runs, job, run) && StageOk(jobs[job].status, runs[run].status, run in leases, stage)
    case Listed(job, run) =>
      IsNewestRunOf(jobs, runs, job, run) && IsUnderway(jobs[job].status) && !HasEnded(runs[run].status)
    case Recovering(job, run, started) =>
      && IsNewestRunOf(jobs, runs, job, run) && IsUnderway(jobs[job].status) && !HasEnded(runs[run].status)
      && (started <==> runs[run].status.Running?)
    case Replanning(job, run) =>
      IsNewestRunOf(jobs, runs, job, run) && jobs[job].status.Running? && runs[run].status.Failed?
    case _ => true
  }

  predicate RunsApart(p: Phase, q: Phase) {
    HoldsRun(p) && HoldsRun(q) ==> p.run != q.run
  }

  predicate Inv(w: World) {
    && Sound(w)
    && TablesOk(w.jobs, w.runs)
    && (forall t | t in w.threads :: PhaseOk(w.jobs, w.runs, w.leases, w.threads[t]))
    && (forall t, u | t in w.threads && u in w.threads && t != u :: RunsApart(w.threads[t], w.threads[u]))
  }

  /** The move does not list a run that a worker or another supervisor holds. */
  predicate IsAlone(w: World, move: Move) {
    move.thread !in w.threads && move.step.ListStranded? && IsListable(w, move.step.run) ==> !IsHeld(w.threads, move.step.run)
  }

  predicate AloneThroughout(moves: seq<Move>) {
    forall k | 0 <= k < |moves| :: IsAlone(After(INIT, moves[..k]), moves[k])
  }

  lemma {:induction false} AlonePrefix(moves: seq<Move>, k: nat)
    requires AloneThroughout(moves) && k <= |moves|
    ensures AloneThroughout(moves[..k])
  {
    forall i | 0 <= i < k ensures IsAlone(After(INIT, moves[..k][..i]), moves[..k][i]) {
      assert moves[..k][..i] == moves[..i];
      assert IsAlone(After(INIT, moves[..i]), moves[i]);
    }
  }

  // ----- Steps that hold no run yet ---------------------------------------------------------------

  lemma {:induction false} FirstKeepsInv(w: World, move: Move)
    requires Inv(w) && move.thread !in w.threads && IsAlone(w, move)
    ensures Inv(Apply(w, move))
  {
    ApplyKeepsSound(w, move);
    if move.step.ListStranded? && IsListable(w, move.step.run) {
      var run := move.step.run;
      assert RunOk(w.jobs, w.runs, run);
      forall u | u in w.threads ensures HoldsRun(w.threads[u]) ==> w.threads[u].run != run {
      }
    }
  }

  lemma {:induction false} InsertKeepsInv(w: World, t: nat, availableAt: int)
    requires Inv(w) && t in w.threads && w.threads[t].Checked?
    ensures Inv(Apply(w, Move(t, InsertJob(availableAt))))
  {
    var w' := Apply(w, Move(t, InsertJob(availableAt)));
    ApplyKeepsSound(w, Move(t, InsertJob(availableAt)));
    forall r | 0 <= r < |w'.runs| ensures RunOk(w'.jobs, w'.runs, r) {
      assert RunOk(w.jobs, w.runs, r);
    }
    forall j | 0 <= j < |w'.jobs| ensures w'.jobs[j].status.Planned? || HasRun(w'.runs, j) {
      assert j < |w.jobs| ==> w.jobs[j] == w'.jobs[j];
    }
    forall u | u in w'.threads ensures PhaseOk(w'.jobs, w'.runs, w'.leases, w'.threads[u]) {
      assert PhaseOk(w.jobs, w.runs, w.leases, w.threads[u]);
    }
  }

  lemma {:induction false} NewRunLeavesOthersNewest(runs: seq<Run>, run: Run, r: nat)
    requires r < |runs|
    ensures IsNewest(runs + [run], r) <==> IsNewest(runs, r) && runs[r].job != run.job
    ensures IsNewest(runs + [run], |runs|)
  {
    var runs' := runs + [run];
    assert runs'[|runs|] == run;
    assert forall s | r < s < |runs| :: runs'[s] == runs[s];
  }

  lemma {:induction false} LeaseKeepsTables(jobs: seq<Job>, runs: seq<Run>, job: nat)
    requires TablesOk(jobs, runs) && job < |jobs| && jobs[job].status.Planned?
    ensures TablesOk(SetJob(jobs, job, JobStatus.Leased), runs + [Run(job, RunStatus.Leased)])
  {
    var jobs', runs' := SetJob(jobs, job, JobStatus.Leased), runs + [Run(job, RunStatus.Leased)];
    forall r | 0 <= r < |runs'| ensures RunOk(jobs', runs', r) {
      if r < |runs| {
        assert RunOk(jobs, runs, r);
        NewRunLeavesOthersNewest(runs, Run(job, RunStatus.Leased), r);
      }
    }
    assert runs'[|runs|].job == job;
    forall j | 0 <= j < |jobs'| && j != job && !jobs'[j].status.Planned? ensures HasRun(runs', j) {
      var r :| 0 <= r < |runs| && runs[r].job == j;
      assert runs'[r].job == j;
    }
  }

  lemma {:induction false} LeaseLeavesOthers(jobs: seq<Job>, runs: seq<Run>, leases: set<nat>, job: nat, other: Phase)
    requires job < |jobs| && jobs[job].status.Planned? && PhaseOk(jobs, runs, leases, other)
    ensures PhaseOk(SetJob(jobs, job, JobStatus.Leased), runs + [Run(job, RunStatus.Leased)], leases, other)
    ensures HoldsRun(other) ==> other.run < |runs|
  {
    if HoldsRun(other) {
      NewRunLeavesOthersNewest(runs, Run(job, RunStatus.Leased), other.run);
    }
  }

  lemma {:induction false} CommitKeepsInv(w: World, t: nat)
    requires Inv(w) && t in w.threads && w.threads[t].Selected?
    ensures Inv(Apply(w, Move(t, CommitLease)))
  {
    var job := w.threads[t].job;
    ApplyKeepsSound(w, Move(t, CommitLease));
    assert Refers(w.jobs, w.runs, w.threads[t]);
    LeaseKeepsTables(w.jobs, w.runs, job);
    var w' := Apply(w, Move(t, CommitLease));
    assert IsNewest(w'.runs, |w.runs|);
    forall u | u in w'.threads && u != t
      ensures PhaseOk(w'.jobs, w'.runs, w'.leases, w'.threads[u])
      ensures RunsApart(w'.threads[u], w'.threads[t]) && RunsApart(w'.threads[t], w'.threads[u])
    {
      LeaseLeavesOthers(w.jobs, w.runs, w.leases, job, w.threads[u]);
    }
    forall u, v | u in w'.threads && v in w'.threads && u != v ensures RunsApart(w'.threads[u], w'.threads[v]) {
      if u != t && v != t { assert RunsApart(w.threads[u], w.threads[v]); }
    }
  }

  // ----- Steps of the thread that holds a run --------------------------------------------------------

  /** Only this job, its run, and the lease of that may be different. */
  predicate WritesOnly(w: World, w': World, job: nat, run: nat) {
    && |w'.jobs| == |w.jobs| && |w'.runs| == |w.runs|
    && (forall j | 0 <= j < |w.jobs| && j != job :: w'.jobs[j] == w.jobs[j])
    && (forall r | 0 <= r < |w.runs| :: w'.runs[r].job == w.runs[r].job && (r != run ==> w'.runs[r] == w.runs[r]))
    && w'.leases - {run} == w.leases - {run}
  }

  lemma {:induction false} WriteLeavesOthers(w: World, w': World, job: nat, run: nat, other: Phase)
    requires IsNewestRunOf(w.jobs, w.runs, job, run) && WritesOnly(w, w', job, run)
    requires PhaseOk(w.jobs, w.runs, w.leases, other) && (HoldsRun(other) ==> other.run != run)
    ensures PhaseOk(w'.jobs, w'.runs, w'.leases, other)
  {
    if HoldsRun(other) {
      assert other.run < run || run < other.run;
      assert other.run in w'.leases <==> other.run in w'.leases - {run};
      assert other.job != job;
      assert IsNewest(w'.runs, other.run);
    }
  }

  lemma {:induction false} WriteKeepsTables(w: World, w': World, job: nat, run: nat)
    requires TablesOk(w.jobs, w.runs) && IsNewestRunOf(w.jobs, w.runs, job, run) && WritesOnly(w, w', job, run)
    requires Matching(w'.jobs[job].status, w'.runs[run].status)
    ensures TablesOk(w'.jobs, w'.runs) && IsNewestRunOf(w'.jobs, w'.runs, job, run)
  {
    forall r | 0 <= r < |w'.runs| ensures RunOk(w'.jobs, w'.runs, r) {
      assert RunOk(w.jobs, w.runs, r);
      assert IsNewest(w'.runs, r) <==> IsNewest(w.runs, r);
    }
    forall j | 0 <= j < |w'.jobs| && !w'.jobs[j].status.Planned? ensures HasRun(w'.runs, j) {
      if j == job {
        assert w'.runs[run].job == j;
      } else {
        var r :| 0 <= r < |w.runs| && w.runs[r].job == j;
        assert w'.runs[r].job == j;
      }
    }
  }

  /** A step of the thread that holds a run keeps the invariant if its write leaves a matching pair. */
  lemma {:induction false} HolderKeepsInv(w: World, w': World, t: nat)
    requires Inv(w) && Sound(w') && t in w.threads && HoldsRun(w.threads[t])
    requires WritesOnly(w, w', w.threads[t].job, w.threads[t].run)
    requires Matching(w'.jobs[w.threads[t].job].status, w'.runs[w.threads[t].run].status)
    requires forall u | u != t :: (u in w'.threads <==> u in w.threads) && (u in w.threads ==> w'.threads[u] == w.threads[u])
    requires t in w'.threads ==>
               && HoldsRun(w'.threads[t]) && w'.threads[t].run == w.threads[t].run
               && PhaseOk(w'.jobs, w'.runs, w'.leases, w'.threads[t])
    ensures Inv(w')
  {
    var p := w.threads[t];
    assert PhaseOk(w.jobs, w.runs, w.leases, p);
    WriteKeepsTables(w, w', p.job, p.run);
    forall u | u in w'.threads ensures PhaseOk(w'.jobs, w'.runs, w'.leases, w'.threads[u]) {
      if u != t {
        assert RunsApart(p, w.threads[u]);
        WriteLeavesOthers(w, w', p.job, p.run, w.threads[u]);
      }
    }
    forall u, v | u in w'.threads && v in w'.threads && u != v ensures RunsApart(w'.threads[u], w'.threads[v]) {
      assert RunsApart(w.threads[u], w.threads[v]);
    }
  }

  lemma {:induction false} LeavingKeepsInv(w: World, t: nat)
    requires Inv(w) && Sound(Idle(w, t))
    ensures Inv(Idle(w, t))
  {
  }

  lemma {:induction false} ExecutionKeepsInv(w: World, t: nat, step: Step)
    requires Inv(w) && t in w.threads && w.threads[t].Executing? && !step.Crash?
    requires Sound(Apply(w, Move(t, step)))
    ensures Inv(Apply(w, Move(t, step)))
  {
    var p := w.threads[t];
    assert PhaseOk(w.jobs, w.runs, w.leases, p);
    assert RunOk(w.jobs, w.runs, p.run);
    var w' := Apply(w, Move(t, step));
    assert w' == ApplyExecution(w, t, p.job, p.run, p.stage, step);
    if w' == Idle(w, t) {
      LeavingKeepsInv(w, t);
    } else if w' != w {
      HolderKeepsInv(w, w', t);
    }
  }

  lemma {:induction false} RecoveryKeepsInv(w: World, t: nat, step: Step)
    requires Inv(w) && t in w.threads && !step.Crash?
    requires w.threads[t].Listed? || w.threads[t].Recovering? || w.threads[t].Replanning?
    requires Sound(Apply(w, Move(t, step)))
    ensures Inv(Apply(w, Move(t, step)))
  {
    var p := w.threads[t];
    assert PhaseOk(w.jobs, w.runs, w.leases, p);
    assert RunOk(w.jobs, w.runs, p.run);
    var w' := Apply(w, Move(t, step));
    if w' == Idle(w, t) {
      LeavingKeepsInv(w, t);
    } else if w' != w {
      HolderKeepsInv(w, w', t);
    }
  }

  lemma {:induction false} ApplyKeepsInv(w: World, move: Move)
    requires Inv(w) && IsAlone(w, move)
    ensures Inv(Apply(w, move))
  {
    var t := move.thread;
    ApplyKeepsSound(w, move);
    if t !in w.threads {
      FirstKeepsInv(w, move);
    } else if move.step.Crash? {
      LeavingKeepsInv(w, t);
    } else {
      match w.threads[t]
      case Checked(_) => if move.step.InsertJob? { InsertKeepsInv(w, t, move.step.availableAt); }
      case Selected(_) =>
        if move.step.CommitLease? { CommitKeepsInv(w, t); }
        else if move.step.AbortLease? { LeavingKeepsInv(w, t); }
      case Executing(_, _, _) => ExecutionKeepsInv(w, t, move.step);
      case _ => RecoveryKeepsInv(w, t, move.step);
    }
  }

  lemma {:induction false} AloneRunsKeepInv(moves: seq<Move>)
    requires AloneThroughout(moves)
    ensures Inv(After(INIT, moves))
  {
    if moves != [] {
      var n := |moves| - 1;
      AlonePrefix(moves, n);
      AloneRunsKeepInv(moves[..n]);
      assert IsAlone(After(INIT, moves[..n]), moves[n]);
      ApplyKeepsInv(After(INIT, moves[..n]), moves[n]);
    }
  }

  // ----- What it says ------------------------------------------------------------------------------------

  /**
   As long as recovery lists no run that is held, wherever planners, leasers, workers and supervisors stop: a job
   has at most one run that has not ended, which is its newest, and the others have failed; a leased job has a
   leased run, and a running run a running job.
   */
  lemma {:induction false} JobsAndRunsAgree(moves: seq<Move>, r: nat)
    requires AloneThroughout(moves) && r < |After(INIT, moves).runs|
    ensures var w := After(INIT, moves);
            && w.runs[r].job < |w.jobs|
            && (w.runs[r].status.Running? ==> w.jobs[w.runs[r].job].status.Running?)
            && (!HasEnded(w.runs[r].status) ==> IsNewest(w.runs, r))
            && (IsNewest(w.runs, r) && w.jobs[w.runs[r].job].status.Leased? ==> w.runs[r].status.Leased?)
            && (forall s | 0 <= s < r && w.runs[s].job == w.runs[r].job :: w.runs[s].status.Failed?)
  {
    AloneRunsKeepInv(moves);
    var w := After(INIT, moves);
    assert RunOk(w.jobs, w.runs, r);
    forall s | 0 <= s < r && w.runs[s].job == w.runs[r].job ensures w.runs[s].status.Failed? {
      assert RunOk(w.jobs, w.runs, s);
    }
  }

  /** The end of a run tells how it ended, whether its worker failed with its lease or after it; no other run is touched. */
  lemma {:induction false} RunOutcomesAreRecorded(moves: seq<Move>, t: nat, outcome: Outcome)
    requires t in After(INIT, moves).threads && After(INIT, moves).threads[t].Executing?
    requires var stage := After(INIT, moves).threads[t].stage;
             (stage.Working? && !outcome.Success?) || (stage.Released? && !outcome.Timeout?)
    ensures var w := After(INIT, moves);
            var w', run := Apply(w, Move(t, EndRun(outcome))), w.threads[t].run;
            && run < |w.runs| && |w'.runs| == |w.runs| && w'.jobs == w.jobs
            && (w'.runs[run].status.Completed? <==> outcome.Success?)
            && (w'.runs[run].status.Failed? <==> outcome.Failure?)
            && (w'.runs[run].status.TimedOut? <==> outcome.Timeout?)
            && (forall r | 0 <= r < |w.runs| && r != run :: w'.runs[r] == w.runs[r])
            && t in w'.threads && w'.threads[t] == Executing(w.threads[t].job, run, RunEnded(outcome))
  {
    KeysStayUnique(moves);
    assert Refers(After(INIT, moves).jobs, After(INIT, moves).runs, After(INIT, moves).threads[t]);
  }

  /** The end of its job follows: completed after a success, failed after anything else. */
  lemma {:induction false} JobOutcomesAreRecorded(moves: seq<Move>, t: nat)
    requires AloneThroughout(moves)
    requires t in After(INIT, moves).threads && After(INIT, moves).threads[t].Executing? && After(INIT, moves).threads[t].stage.RunEnded?
    ensures var w := After(INIT, moves);
            var w', job := Apply(w, Move(t, EndJob)), w.threads[t].job;
            && job < |w.jobs| && |w'.jobs| == |w.jobs| && w'.runs == w.runs
            && (w'.jobs[job].status.Completed? <==> w.threads[t].stage.outcome.Success?)
            && (w'.jobs[job].status.Failed? <==> !w.threads[t].stage.outcome.Success?)
            && (forall j | 0 <= j < |w.jobs| && j != job :: w'.jobs[j] == w.jobs[j])
            && t !in w'.threads
  {
    AloneRunsKeepInv(moves);
    var w := After(INIT, moves);
    assert PhaseOk(w.jobs, w.runs, w.leases, w.threads[t]);
    forall u | u in w.threads ensures w.threads[u] != Selected(w.threads[t].job) {
      assert Refers(w.jobs, w.runs, w.threads[u]);
    }
  }

  lemma {:induction false} NewestRun(runs: seq<Run>, j: nat, n: nat) returns (r: nat)
    requires n < |runs| && runs[n].job == j
    ensures n <= r < |runs| && runs[r].job == j && IsNewest(runs, r)
    decreases |runs| - n
  {
    if s :| n < s < |runs| && runs[s].job == j {
      r := NewestRun(runs, j, s);
    } else {
      r := n;
    }
  }

  /** There a job that has ended has a newest run that ended the same way: failed jobs a failed or timed-out one. */
  lemma {:induction false} EndedJobsHaveEndedRuns(moves: seq<Move>, j: nat)
    requires AloneThroughout(moves) && j < |After(INIT, moves).jobs|
    requires After(INIT, moves).jobs[j].status.Completed? || After(INIT, moves).jobs[j].status.Failed?
    ensures var w := After(INIT, moves);
            exists r :: 0 <= r < |w.runs| && w.runs[r].job == j && IsNewest(w.runs, r)
                        && Matching(w.jobs[j].status, w.runs[r].status)
  {
    AloneRunsKeepInv(moves);
    var w := After(INIT, moves);
    assert HasRun(w.runs, j);
    var n :| 0 <= n < |w.runs| && w.runs[n].job == j;
    var r := NewestRun(w.runs, j, n);
    assert RunOk(w.jobs, w.runs, r);
  }

  predicate WithoutRecovery(moves: seq<Move>) {
    forall k | 0 <= k < |moves| :: !moves[k].step.ListStranded?
  }

  predicate IsRecovery(p: Phase) {
    p.Listed? || p.Recovering? || p.Replanning?
  }

  /** Nobody recovers, and a planned job has never been leased. */
  predicate NeverRecovered(w: World) {
    && (forall r, s | 0 <= r < s < |w.runs| :: w.runs[r].job != w.runs[s].job)
    && (forall r | 0 <= r < |w.runs| && w.runs[r].job < |w.jobs| :: !w.jobs[w.runs[r].job].status.Planned?)
    && (forall t | t in w.threads :: !IsRecovery(w.threads[t]))
  }

  /** Jobs stay, and none goes back to planned. */
  predicate NonePlannedAgain(jobs: seq<Job>, jobs': seq<Job>) {
    && |jobs| <= |jobs'|
    && forall j | 0 <= j < |jobs| :: jobs'[j].status.Planned? ==> jobs[j].status.Planned?
  }

  predicate SameRunJobs(runs: seq<Run>, runs': seq<Run>) {
    |runs'| == |runs| && forall r | 0 <= r < |runs| :: runs'[r].job == runs[r].job
  }

  lemma {:induction false} StepLeavesRunJobs(w: World, move: Move)
    requires Sound(w) && NeverRecovered(w)
    requires !(move.thread in w.threads && w.threads[move.thread].Selected? && move.step.CommitLease?)
    ensures NonePlannedAgain(w.jobs, Apply(w, move).jobs) && SameRunJobs(w.runs, Apply(w, move).runs)
  {
  }

  lemma {:induction false} ThreadsNeverRecover(w: World, move: Move)
    requires NeverRecovered(w) && !move.step.ListStranded?
    ensures forall t | t in Apply(w, move).threads :: !IsRecovery(Apply(w, move).threads[t])
  {
  }

  lemma {:induction false} ApplyKeepsNeverRecovered(w: World, move: Move)
    requires Sound(w) && NeverRecovered(w) && !move.step.ListStranded?
    ensures NeverRecovered(Apply(w, move))
  {
    var t := move.thread;
    ThreadsNeverRecover(w, move);
    if t in w.threads && w.threads[t].Selected? && move.step.CommitLease? {
      assert Refers(w.jobs, w.runs, w.threads[t]);
    } else {
      StepLeavesRunJobs(w, move);
    }
  }

  /** As long as no supervisor recovers anything, a job has at most one run at all. */
  lemma {:induction false} OneRunEachWithoutRecovery(moves: seq<Move>)
    requires WithoutRecovery(moves)
    ensures NeverRecovered(After(INIT, moves))
  {
    if moves != [] {
      OneRunEachWithoutRecovery(moves[..|moves| - 1]);
      KeysStayUnique(moves[..|moves| - 1]);
      ApplyKeepsNeverRecovered(After(INIT, moves[..|moves| - 1]), moves[|moves| - 1]);
    }
  }
}
