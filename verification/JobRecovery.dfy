/**
 What recovery does to the jobs it lists: when it takes a job from a worker that is alive, when it
 brings back the job of a worker that is gone, and which jobs nothing ever brings back.
 */
module JobRecovery {
  import opened Text
  import opened Jobs
  import opened JobRuns

  // ----- One recovery ------------------------------------------------------------------------------

  /** A supervisor that recovers one run without interruption. */
  function RecoveryMoves(u: nat, run: nat): seq<Move> {
    [Move(u, ListStranded(run)), Move(u, ReadRun), Move(u, FailRun), Move(u, ReplanJob)]
  }

  function Recovered(w: World, run: nat): World
    requires run < |w.runs| && w.runs[run].job < |w.jobs|
  {
    w.(jobs := SetJob(w.jobs, w.runs[run].job, Planned), runs := SetRun(w.runs, run, RunStatus.Failed))
  }

  lemma {:induction false} AfterFour(w: World, a: Move, b: Move, c: Move, d: Move)
    ensures After(w, [a, b, c, d]) == Apply(Apply(Apply(Apply(w, a), b), c), d)
  {
    var moves := [a, b, c, d];
    assert moves[..0] == [] && moves[..4] == moves;
    AfterNext(w, moves, 0);
    AfterNext(w, moves, 1);
    AfterNext(w, moves, 2);
    AfterNext(w, moves, 3);
  }

  lemma {:induction false} StrayStepsDoNothing(w: World, u: nat, step: Step)
    requires u !in w.threads && (step.ReadRun? || step.FailRun? || step.ReplanJob?)
    ensures Apply(w, Move(u, step)) == w
  {
  }

  lemma {:induction false} ListedIsRead(w: World, u: nat, run: nat)
    requires u !in w.threads && IsListable(w, run)
    ensures Apply(Apply(w, Move(u, ListStranded(run))), Move(u, ReadRun))
         == At(w, u, Recovering(w.runs[run].job, run, w.runs[run].status.Running?))
  {
    var p, q := Listed(w.runs[run].job, run), Recovering(w.runs[run].job, run, w.runs[run].status.Running?);
    assert Apply(w, Move(u, ListStranded(run))) == At(w, u, p);
    assert w.threads[u := p][u := q] == w.threads[u := q];
  }

  lemma {:induction false} UnstartedIsRefused(w: World, u: nat, job: nat, run: nat)
    requires u !in w.threads
    ensures Apply(At(w, u, Recovering(job, run, false)), Move(u, FailRun)) == w
  {
    assert w.threads[u := Recovering(job, run, false)] - {u} == w.threads;
  }

  lemma {:induction false} StartedIsFailed(w: World, u: nat, job: nat, run: nat)
    requires u !in w.threads && run < |w.runs|
    ensures Apply(At(w, u, Recovering(job, run, true)), Move(u, FailRun))
         == At(w.(runs := SetRun(w.runs, run, RunStatus.Failed)), u, Replanning(job, run))
  {
    assert w.threads[u := Recovering(job, run, true)][u := Replanning(job, run)] == w.threads[u := Replanning(job, run)];
  }

  lemma {:induction false} FailedIsReplanned(w: World, u: nat, job: nat, run: nat)
    requires u !in w.threads && job < |w.jobs| && IsUnderway(w.jobs[job].status) && UniqueActive(w.jobs)
    requires forall v | v in w.threads :: w.threads[v] != Selected(job)
    ensures Apply(At(w, u, Replanning(job, run)), Move(u, ReplanJob)) == w.(jobs := SetJob(w.jobs, job, Planned))
  {
    ActiveJobsMayTake(w.jobs, job, Planned);
    assert w.threads[u := Replanning(job, run)] - {u} == w.threads;
    assert !IsLocked(w.threads[u := Replanning(job, run)], job);
  }

  lemma {:induction false} UnderwayIsUnlocked(w: World, job: nat)
    requires Sound(w) && job < |w.jobs| && IsUnderway(w.jobs[job].status)
    ensures forall v | v in w.threads :: w.threads[v] != Selected(job)
  {
    forall v | v in w.threads ensures w.threads[v] != Selected(job) {
      assert Refers(w.jobs, w.runs, w.threads[v]);
    }
  }

  /** It fails the run and plans its job again exactly when the run is listed and has been started. */
  lemma {:induction false} RecoveryUnfolds(w: World, u: nat, run: nat)
    requires Sound(w) && u !in w.threads
    ensures After(w, RecoveryMoves(u, run))
         == if IsListable(w, run) && w.runs[run].status.Running? then Recovered(w, run) else w
  {
    AfterFour(w, Move(u, ListStranded(run)), Move(u, ReadRun), Move(u, FailRun), Move(u, ReplanJob));
    if !IsListable(w, run) {
      assert Apply(w, Move(u, ListStranded(run))) == w;
      StrayStepsDoNothing(w, u, ReadRun);
      StrayStepsDoNothing(w, u, FailRun);
      StrayStepsDoNothing(w, u, ReplanJob);
    } else {
      var job := w.runs[run].job;
      ListedIsRead(w, u, run);
      if w.runs[run].status.Running? {
        StartedIsFailed(w, u, job, run);
        UnderwayIsUnlocked(w, job);
        FailedIsReplanned(w.(runs := SetRun(w.runs, run, RunStatus.Failed)), u, job, run);
      } else {
        UnstartedIsRefused(w, u, job, run);
        StrayStepsDoNothing(w, u, ReplanJob);
      }
    }
  }

  // ----- A pass over several runs ---------------------------------------------------------------------------

  /** The runs are listed for recovery, once each, and no two are of one job. */
  predicate IsListing(w: World, listed: seq<nat>) {
    && (forall i | 0 <= i < |listed| :: IsListable(w, listed[i]))
    && (forall i, j | 0 <= i < j < |listed| :: listed[i] != listed[j] && w.runs[listed[i]].job != w.runs[listed[j]].job)
  }

  /** The first `n` of them have been recovered. */
  function Pass(w: World, listed: seq<nat>, n: nat): (w': World)
    requires n <= |listed| && forall i | 0 <= i < |listed| :: IsListable(w, listed[i])
    ensures |w'.runs| == |w.runs| && |w'.jobs| == |w.jobs|
    ensures forall r | 0 <= r < |w.runs| :: w'.runs[r].job == w.runs[r].job
  {
    if n == 0 then w else Recovered(Pass(w, listed, n - 1), listed[n - 1])
  }

  lemma {:induction false} PassTouchesOnlyItsRuns(w: World, listed: seq<nat>, n: nat, i: nat)
    requires IsListing(w, listed) && n <= i < |listed|
    ensures Pass(w, listed, n).runs[listed[i]] == w.runs[listed[i]]
    ensures Pass(w, listed, n).jobs[w.runs[listed[i]].job] == w.jobs[w.runs[listed[i]].job]
    ensures Pass(w, listed, n).threads == w.threads && Pass(w, listed, n).leases == w.leases
  {
    if n > 0 { PassTouchesOnlyItsRuns(w, listed, n - 1, i); }
  }

  lemma {:induction false} PassKeepsUnique(w: World, listed: seq<nat>, n: nat)
    requires IsListing(w, listed) && n <= |listed| && UniqueActive(w.jobs)
    ensures UniqueActive(Pass(w, listed, n).jobs)
  {
    if n > 0 {
      var before, job := Pass(w, listed, n - 1), w.runs[listed[n - 1]].job;
      PassKeepsUnique(w, listed, n - 1);
      PassTouchesOnlyItsRuns(w, listed, n - 1, n - 1);
      assert Pass(w, listed, n).jobs == SetJob(before.jobs, job, Planned);
      ActiveJobsMayTake(before.jobs, job, Planned);
      WriteKeepsUnique(before.jobs, job, Planned);
    }
  }

  /** Where recovery meets nobody, what it lists is a listing: a job has one run that has not ended. */
  lemma {:induction false} ListedRunsHaveDifferentJobs(w: World, listed: seq<nat>)
    requires Inv(w) && forall i | 0 <= i < |listed| :: IsListable(w, listed[i])
    requires forall i, j | 0 <= i < j < |listed| :: listed[i] != listed[j]
    ensures IsListing(w, listed)
  {
    forall i, j | 0 <= i < j < |listed| ensures w.runs[listed[i]].job != w.runs[listed[j]].job {
      assert RunOk(w.jobs, w.runs, listed[i]) && RunOk(w.jobs, w.runs, listed[j]);
    }
  }

  function PassParts(u: nat, listed: seq<nat>, n: nat): (parts: seq<seq<Move>>)
    requires n <= |listed|
    ensures |parts| == n && forall i | 0 <= i < n :: parts[i] == RecoveryMoves(u, listed[i])
  {
    seq(n, i requires 0 <= i < n => RecoveryMoves(u, listed[i]))
  }

  lemma {:induction false} PassKeepsSound(w: World, u: nat, listed: seq<nat>, n: nat)
    requires Sound(w) && IsListing(w, listed) && u !in w.threads && n <= |listed|
    ensures Sound(Pass(w, listed, n)) && u !in Pass(w, listed, n).threads
  {
    if n > 0 {
      PassKeepsSound(w, u, listed, n - 1);
      PassKeepsUnique(w, listed, n);
      MoverKeepsSound(Pass(w, listed, n - 1), Pass(w, listed, n), u);
    }
  }

  lemma {:induction false} PassAdvances(w: World, u: nat, listed: seq<nat>, n: nat)
    requires Sound(w) && IsListing(w, listed) && u !in w.threads && n < |listed| && w.runs[listed[n]].status.Running?
    ensures After(Pass(w, listed, n), RecoveryMoves(u, listed[n])) == Pass(w, listed, n + 1)
  {
    PassKeepsSound(w, u, listed, n);
    PassTouchesOnlyItsRuns(w, listed, n, n);
    RecoveryUnfolds(Pass(w, listed, n), u, listed[n]);
  }

  function PassWorlds(w: World, listed: seq<nat>, n: nat): (worlds: seq<World>)
    requires n <= |listed| && forall i | 0 <= i < |listed| :: IsListable(w, listed[i])
    ensures |worlds| == n + 1 && forall i | 0 <= i <= n :: worlds[i] == Pass(w, listed, i)
  {
    seq(n + 1, i requires 0 <= i <= n => Pass(w, listed, i))
  }

  lemma {:induction false} PassWorldsAdvance(w: World, u: nat, listed: seq<nat>, n: nat, i: nat)
    requires Sound(w) && IsListing(w, listed) && u !in w.threads && i < n <= |listed| && w.runs[listed[i]].status.Running?
    ensures After(PassWorlds(w, listed, n)[i], PassParts(u, listed, n)[i]) == PassWorlds(w, listed, n)[i + 1]
  {
    PassAdvances(w, u, listed, i);
  }

  /** The pass of one supervisor is the recoveries of the runs one by one, as long as these have been started. */
  lemma {:induction false} PassIsRecoveries(w: World, u: nat, listed: seq<nat>, n: nat)
    requires Sound(w) && IsListing(w, listed) && u !in w.threads && n <= |listed|
    requires forall i | 0 <= i < n :: w.runs[listed[i]].status.Running?
    ensures After(w, Flat(PassParts(u, listed, n))) == Pass(w, listed, n)
  {
    var worlds, parts := PassWorlds(w, listed, n), PassParts(u, listed, n);
    forall i | 0 <= i < n ensures After(worlds[i], parts[i]) == worlds[i + 1] {
      PassWorldsAdvance(w, u, listed, n, i);
    }
    AfterParts(worlds, parts);
  }

  // ----- Workers that are alive --------------------------------------------------------------------------

  /** A worker's run is listed for recovery exactly while the worker has no lease, or no longer has one. */
  lemma {:induction false} LiveWorkersAreListedIff(moves: seq<Move>, t: nat)
    requires AloneThroughout(moves) && t in After(INIT, moves).threads && After(INIT, moves).threads[t].Executing?
    ensures var w := After(INIT, moves);
            var p := w.threads[t];
            IsListable(w, p.run) <==>
            p.stage.Claimed? || p.stage.JobStarted? || p.stage.RunStarted? || p.stage.Released?
            || (p.stage.Working? && p.run !in w.leases)
  {
    AloneRunsKeepInv(moves);
    var w := After(INIT, moves);
    assert PhaseOk(w.jobs, w.runs, w.leases, w.threads[t]);
  }

  /** Recovery takes a job from its live worker exactly when the run is running and has no active lease. */
  lemma {:induction false} RecoveryTakesLiveJobIff(moves: seq<Move>, t: nat, u: nat)
    requires AloneThroughout(moves) && t in After(INIT, moves).threads && After(INIT, moves).threads[t].Executing?
    requires u !in After(INIT, moves).threads
    ensures var w := After(INIT, moves);
            var p := w.threads[t];
            var w' := After(w, RecoveryMoves(u, p.run));
            && w'.threads == w.threads
            && p.job < |w'.jobs|
            && (w'.jobs[p.job].status.Planned? <==>
                p.stage.RunStarted? || p.stage.Released? || (p.stage.Working? && p.run !in w.leases))
  {
    AloneRunsKeepInv(moves);
    var w := After(INIT, moves);
    assert PhaseOk(w.jobs, w.runs, w.leases, w.threads[t]);
    RecoveryUnfolds(w, u, w.threads[t].run);
  }

  /** A worker that has answered gives its lease back; one whose lease has expired ends in an error and leaves its run running. */
  lemma {:induction false} AnswersCountIffLeaseIsActive(moves: seq<Move>, t: nat)
    requires t in After(INIT, moves).threads && After(INIT, moves).threads[t].Executing? && After(INIT, moves).threads[t].stage.Working?
    ensures var w := After(INIT, moves);
            var w', p := Apply(w, Move(t, ReleaseWorkerLease)), w.threads[t];
            && w'.jobs == w.jobs && w'.runs == w.runs && w'.leases == w.leases - {p.run}
            && (t in w'.threads <==> p.run in w.leases)
            && (t in w'.threads ==> w'.threads[t] == Executing(p.job, p.run, Released))
  {
  }

  // ----- Workers that are gone -----------------------------------------------------------------------------

  /** The thread may still write to the job, or bring recovery about. */
  predicate MayMove(runs: seq<Run>, p: Phase, job: nat) {
    match p
    case Executing(j, _, _) => j == job
    case Listed(j, run) => j == job && (run < |runs| ==> !runs[run].status.Leased?)
    case Recovering(j, _, started) => j == job && started
    case Replanning(j, _) => j == job
    case _ => false
  }

  /** The job has not ended, none of its runs is running, and no thread is about to change that. */
  predicate IsStuck(w: World, job: nat) {
    && job < |w.jobs| && IsUnderway(w.jobs[job].status)
    && (forall r | 0 <= r < |w.runs| && w.runs[r].job == job :: !w.runs[r].status.Running?)
    && (forall t | t in w.threads :: !MayMove(w.runs, w.threads[t], job))
  }

  lemma {:induction false} ExecutionLeavesStuck(w: World, t: nat, step: Step, job: nat)
    requires Sound(w) && IsStuck(w, job) && t in w.threads && w.threads[t].Executing?
    ensures var p := w.threads[t];
            var w' := ApplyExecution(w, t, p.job, p.run, p.stage, step);
            IsStuck(w', job) && w'.jobs[job] == w.jobs[job]
  {
    var p := w.threads[t];
    assert Refers(w.jobs, w.runs, p) && !MayMove(w.runs, p, job);
    var w' := ApplyExecution(w, t, p.job, p.run, p.stage, step);
    forall u | u in w'.threads ensures !MayMove(w'.runs, w'.threads[u], job) {
      if u != t { assert Refers(w.jobs, w.runs, w.threads[u]) && !MayMove(w.runs, w.threads[u], job); }
    }
  }

  lemma {:induction false} RecoveryLeavesStuck(w: World, t: nat, step: Step, job: nat)
    requires Sound(w) && IsStuck(w, job) && t in w.threads && IsRecovery(w.threads[t])
    ensures var w' := ApplyRecovery(w, t, w.threads[t], step);
            IsStuck(w', job) && w'.jobs[job] == w.jobs[job]
  {
    var p := w.threads[t];
    assert Refers(w.jobs, w.runs, p) && !MayMove(w.runs, p, job);
    var w' := ApplyRecovery(w, t, p, step);
    forall u | u in w'.threads ensures !MayMove(w'.runs, w'.threads[u], job) {
      if u != t { assert Refers(w.jobs, w.runs, w.threads[u]) && !MayMove(w.runs, w.threads[u], job); }
    }
  }

  lemma {:induction false} ClaimLeavesStuck(w: World, t: nat, step: Step, job: nat)
    requires Sound(w) && IsStuck(w, job) && t in w.threads && (w.threads[t].Checked? || w.threads[t].Selected?)
    ensures var w' := ApplyClaim(w, t, w.threads[t], step);
            IsStuck(w', job) && w'.jobs[job] == w.jobs[job]
  {
    assert Refers(w.jobs, w.runs, w.threads[t]);
    var w' := ApplyClaim(w, t, w.threads[t], step);
    forall u | u in w'.threads ensures !MayMove(w'.runs, w'.threads[u], job) {
      if u != t { assert Refers(w.jobs, w.runs, w.threads[u]) && !MayMove(w.runs, w.threads[u], job); }
    }
  }

  lemma {:induction false} ApplyLeavesStuck(w: World, move: Move, job: nat)
    requires Sound(w) && IsStuck(w, job)
    ensures IsStuck(Apply(w, move), job) && Apply(w, move).jobs[job] == w.jobs[job]
  {
    var t := move.thread;
    if t in w.threads && !move.step.Crash? {
      match w.threads[t]
      case Executing(_, _, _) => ExecutionLeavesStuck(w, t, move.step, job);
      case Checked(_) => ClaimLeavesStuck(w, t, move.step, job);
      case Selected(_) => ClaimLeavesStuck(w, t, move.step, job);
      case _ => RecoveryLeavesStuck(w, t, move.step, job);
    }
  }

  /** Jobs keep their keys, and a new one has a key that no active job had. */
  predicate KeysFollow(jobs: seq<Job>, jobs': seq<Job>) {
    && |jobs| <= |jobs'|
    && (forall i | 0 <= i < |jobs| :: jobs'[i].key == jobs[i].key)
    && (forall i | |jobs| <= i < |jobs'| :: !HasActiveJob(jobs, jobs'[i].key))
  }

  lemma {:induction false} PhaseKeepsKeys(w: World, t: nat, p: Phase, step: Step)
    requires !p.Checked?
    ensures KeysFollow(w.jobs, ApplyIn(w, t, p, step).jobs)
  {
  }

  lemma {:induction false} ApplyKeepsKeys(w: World, move: Move)
    ensures KeysFollow(w.jobs, Apply(w, move).jobs)
  {
    if move.thread in w.threads && !w.threads[move.thread].Checked? {
      PhaseKeepsKeys(w, move.thread, w.threads[move.thread], move.step);
    }
  }

  /** Such a job stays as it is in every continuation, and its key is never planned again. */
  lemma {:induction false} StuckJobsBlockTheirKey(w: World, job: nat, more: seq<Move>)
    requires Sound(w) && IsStuck(w, job)
    ensures IsStuck(After(w, more), job) && After(w, more).jobs[job] == w.jobs[job]
    ensures |w.jobs| <= |After(w, more).jobs|
    ensures forall i | |w.jobs| <= i < |After(w, more).jobs| :: After(w, more).jobs[i].key != w.jobs[job].key
  {
    if more != [] {
      var before, last := more[..|more| - 1], more[|more| - 1];
      StuckJobsBlockTheirKey(w, job, before);
      AfterKeepsSound(w, before);
      ApplyLeavesStuck(After(w, before), last, job);
      ApplyKeepsKeys(After(w, before), last);
    }
  }

  /** The run was never started, and its job is stuck. */
  predicate IsUnstarted(w: World, run: nat) {
    run < |w.runs| && w.runs[run].status.Leased? && run !in w.leases && IsStuck(w, w.runs[run].job)
  }

  lemma {:induction false} PhaseLeavesUnstarted(w: World, t: nat, step: Step, run: nat)
    requires Sound(w) && IsUnstarted(w, run) && t in w.threads
    ensures var w' := ApplyIn(w, t, w.threads[t], step);
            run < |w'.runs| && w'.runs[run] == w.runs[run] && run !in w'.leases
  {
    assert Refers(w.jobs, w.runs, w.threads[t]) && !MayMove(w.runs, w.threads[t], w.runs[run].job);
  }

  /** Recovery lists such a run again in every continuation, and ends in an error there. */
  lemma {:induction false} UnstartedRunsStayListed(w: World, run: nat, more: seq<Move>)
    requires Sound(w) && IsUnstarted(w, run)
    ensures IsUnstarted(After(w, more), run) && IsListable(After(w, more), run)
  {
    if more != [] {
      UnstartedRunsStayListed(w, run, more[..|more| - 1]);
      AfterKeepsSound(w, more[..|more| - 1]);
      NextLeavesUnstarted(After(w, more[..|more| - 1]), more[|more| - 1], run);
    }
  }

  lemma {:induction false} NextLeavesUnstarted(w: World, move: Move, run: nat)
    requires Sound(w) && IsUnstarted(w, run)
    ensures IsUnstarted(Apply(w, move), run) && IsListable(Apply(w, move), run)
  {
    ApplyLeavesStuck(w, move, w.runs[run].job);
    if move.thread in w.threads {
      PhaseLeavesUnstarted(w, move.thread, move.step, run);
    }
  }

  lemma {:induction false} CrashSticks(w: World, t: nat)
    requires Inv(w) && t in w.threads && w.threads[t].Executing? && !w.runs[w.threads[t].run].status.Running?
    ensures Sound(Apply(w, Move(t, Crash))) && IsStuck(Apply(w, Move(t, Crash)), w.threads[t].job)
  {
    var p := w.threads[t];
    ApplyKeepsSound(w, Move(t, Crash));
    assert PhaseOk(w.jobs, w.runs, w.leases, p);
    forall r | 0 <= r < |w.runs| && w.runs[r].job == p.job ensures !w.runs[r].status.Running? {
      assert RunOk(w.jobs, w.runs, r);
    }
    forall u | u in w.threads && u != t ensures !MayMove(w.runs, w.threads[u], p.job) {
      assert PhaseOk(w.jobs, w.runs, w.leases, w.threads[u]) && RunsApart(p, w.threads[u]);
    }
  }

  predicate IsPlanned(w: World, job: nat) {
    job < |w.jobs| && w.jobs[job].status.Planned?
  }

  /** Once its lease has run out, a running run whose worker is gone can be recovered. */
  function ExpireAndRecover(u: nat, run: nat): seq<Move> {
    [Move(u, ExpireWorkerLease(run))] + RecoveryMoves(u, run)
  }

  lemma {:induction false} CrashedRunIsRecovered(w: World, t: nat)
    requires Inv(w) && t in w.threads && w.threads[t].Executing? && w.runs[w.threads[t].run].status.Running?
    ensures IsPlanned(After(Apply(w, Move(t, Crash)), ExpireAndRecover(t, w.threads[t].run)), w.threads[t].job)
  {
    var p := w.threads[t];
    assert PhaseOk(w.jobs, w.runs, w.leases, p);
    var w1 := Apply(w, Move(t, Crash));
    ApplyKeepsSound(w, Move(t, Crash));
    var w2 := Apply(w1, Move(t, ExpireWorkerLease(p.run)));
    ApplyKeepsSound(w1, Move(t, ExpireWorkerLease(p.run)));
    AfterConcat(w1, [Move(t, ExpireWorkerLease(p.run))], RecoveryMoves(t, p.run));
    AfterOneMore(w1, [], Move(t, ExpireWorkerLease(p.run)));
    assert [] + [Move(t, ExpireWorkerLease(p.run))] == [Move(t, ExpireWorkerLease(p.run))];
    RecoveryUnfolds(w2, t, p.run);
  }

  /** Some continuation plans the job again. */
  ghost predicate CanComeBack(w: World, job: nat) {
    exists more :: IsPlanned(After(w, more), job)
  }

  lemma {:induction false} StuckJobsNeverComeBack(w: World, job: nat)
    requires Sound(w) && IsStuck(w, job)
    ensures !CanComeBack(w, job)
  {
    forall more ensures !IsPlanned(After(w, more), job) {
      StuckJobsBlockTheirKey(w, job, more);
    }
  }

  lemma {:induction false} JobOfCrashedComesBackIff(w: World, t: nat)
    requires Inv(w) && t in w.threads && w.threads[t].Executing? && w.threads[t].run < |w.runs|
    ensures var crashed, job := Apply(w, Move(t, Crash)), w.threads[t].job;
            && (CanComeBack(crashed, job) <==> w.runs[w.threads[t].run].status.Running?)
            && (!CanComeBack(crashed, job) ==> IsStuck(crashed, job))
  {
    var p := w.threads[t];
    if w.runs[p.run].status.Running? {
      CrashedRunIsRecovered(w, t);
      assert IsPlanned(After(Apply(w, Move(t, Crash)), ExpireAndRecover(t, p.run)), p.job);
    } else {
      CrashSticks(w, t);
      StuckJobsNeverComeBack(Apply(w, Move(t, Crash)), p.job);
    }
  }

  /**
   A job whose worker stops can come back, by whatever anybody does then, exactly if its run is running. One whose
   worker stops before that write, or after the run has ended but before the job has, neither comes back nor ends.
   */
  lemma {:induction false} CrashedJobComesBackIff(moves: seq<Move>, t: nat)
    requires AloneThroughout(moves) && t in After(INIT, moves).threads && After(INIT, moves).threads[t].Executing?
    ensures var p := After(INIT, moves).threads[t];
            var crashed := Apply(After(INIT, moves), Move(t, Crash));
            && (CanComeBack(crashed, p.job) <==> p.stage.RunStarted? || p.stage.Working? || p.stage.Released?)
            && (!CanComeBack(crashed, p.job) ==> IsStuck(crashed, p.job))
            && (p.stage.Claimed? || p.stage.JobStarted? ==> IsUnstarted(crashed, p.run))
  {
    AloneRunsKeepInv(moves);
    var w := After(INIT, moves);
    var p := w.threads[t];
    assert PhaseOk(w.jobs, w.runs, w.leases, p);
    JobOfCrashedComesBackIff(w, t);
  }

  // ----- A job with two workers ------------------------------------------------------------------------------

  function PlanAndLease(key: string, at: int): seq<Move> {
    [Move(0, CheckKey(key)), Move(0, InsertJob(at)), Move(0, SelectDue(at)), Move(0, CommitLease)]
  }

  function OneJob(key: string, at: int, job: JobStatus, runs: seq<Run>, threads: map<nat, Phase>): World {
    World([Job(key, at, job)], runs, {}, threads)
  }

  lemma {:induction false} FirstJobIsLeased(key: string, at: int)
    ensures After(INIT, PlanAndLease(key, at))
         == OneJob(key, at, JobStatus.Leased, [Run(0, RunStatus.Leased)], map[0 := Executing(0, 0, Claimed)])
  {
    AfterFour(INIT, Move(0, CheckKey(key)), Move(0, InsertJob(at)), Move(0, SelectDue(at)), Move(0, CommitLease));
    assert Apply(INIT, Move(0, CheckKey(key))) == INIT.(threads := map[0 := Checked(key)]);
    var planned := OneJob(key, at, Planned, [], map[]);
    assert Apply(INIT.(threads := map[0 := Checked(key)]), Move(0, InsertJob(at))) == planned;
    OnlyJobIsLeased(planned, 0, at);
  }

  lemma {:induction false} OnlyJobIsLeased(w: World, t: nat, at: int)
    requires |w.jobs| == 1 && w.jobs[0].status.Planned? && w.jobs[0].availableAt == at && t !in w.threads
    requires forall u | u in w.threads :: !w.threads[u].Selected?
    ensures Apply(Apply(w, Move(t, SelectDue(at))), Move(t, CommitLease))
         == At(w.(jobs := SetJob(w.jobs, 0, JobStatus.Leased), runs := w.runs + [Run(0, RunStatus.Leased)]),
               t, Executing(0, |w.runs|, Claimed))
  {
    assert IsDue(w, at, 0);
    var q := Executing(0, |w.runs|, Claimed);
    assert Apply(w, Move(t, SelectDue(at))) == At(w, t, Selected(0));
    assert w.threads[t := Selected(0)][t := q] == w.threads[t := q];
  }

  /** A worker has marked its run as running, and has not taken its worker lease yet. */
  function StartOne(key: string, at: int): seq<Move> {
    PlanAndLease(key, at) + [Move(0, StartJob), Move(0, StartRun)]
  }

  lemma {:induction false} FirstJobStarts(key: string, at: int)
    ensures Apply(OneJob(key, at, JobStatus.Leased, [Run(0, RunStatus.Leased)], map[0 := Executing(0, 0, Claimed)]), Move(0, StartJob))
         == OneJob(key, at, JobStatus.Running, [Run(0, RunStatus.Leased)], map[0 := Executing(0, 0, JobStarted)])
  {
  }

  lemma {:induction false} FirstRunStarts(key: string, at: int)
    ensures Apply(OneJob(key, at, JobStatus.Running, [Run(0, RunStatus.Leased)], map[0 := Executing(0, 0, JobStarted)]), Move(0, StartRun))
         == OneJob(key, at, JobStatus.Running, [Run(0, RunStatus.Running)], map[0 := Executing(0, 0, RunStarted)])
  {
  }

  lemma {:induction false} FirstJobIsStarted(key: string, at: int)
    ensures After(INIT, StartOne(key, at))
         == OneJob(key, at, JobStatus.Running, [Run(0, RunStatus.Running)], map[0 := Executing(0, 0, RunStarted)])
  {
    FirstJobIsLeased(key, at);
    AfterOneMore(INIT, PlanAndLease(key, at), Move(0, StartJob));
    FirstJobStarts(key, at);
    AfterOneMore(INIT, PlanAndLease(key, at) + [Move(0, StartJob)], Move(0, StartRun));
    FirstRunStarts(key, at);
    assert PlanAndLease(key, at) + [Move(0, StartJob)] + [Move(0, StartRun)] == StartOne(key, at);
  }

  lemma {:induction false} RecoveredOneJob(w: World, key: string, at: int, threads: map<nat, Phase>)
    requires w == OneJob(key, at, JobStatus.Running, [Run(0, RunStatus.Running)], threads)
    ensures IsListable(w, 0) && Recovered(w, 0) == OneJob(key, at, Planned, [Run(0, RunStatus.Failed)], threads)
  {
  }

  lemma {:induction false} LiveJobIsReplanned(key: string, at: int)
    ensures After(INIT, StartOne(key, at) + RecoveryMoves(1, 0))
         == OneJob(key, at, Planned, [Run(0, RunStatus.Failed)], map[0 := Executing(0, 0, RunStarted)])
  {
    var w := After(INIT, StartOne(key, at));
    FirstJobIsStarted(key, at);
    KeysStayUnique(StartOne(key, at));
    RecoveredOneJob(w, key, at, map[0 := Executing(0, 0, RunStarted)]);
    AfterConcat(INIT, StartOne(key, at), RecoveryMoves(1, 0));
    assert 1 !in w.threads;
    RecoveryUnfolds(w, 1, 0);
  }

  /** In that moment a supervisor recovers the run and a leaser takes the job: two live workers execute it. */
  lemma {:induction false} OneJobGetsTwoWorkers(key: string, at: int)
    ensures After(INIT, StartOne(key, at) + RecoveryMoves(1, 0) + [Move(1, SelectDue(at)), Move(1, CommitLease)])
         == OneJob(key, at, JobStatus.Leased, [Run(0, RunStatus.Failed), Run(0, RunStatus.Leased)],
                   map[0 := Executing(0, 0, RunStarted), 1 := Executing(0, 1, Claimed)])
  {
    var before := StartOne(key, at) + RecoveryMoves(1, 0);
    LiveJobIsReplanned(key, at);
    AfterOneMore(INIT, before, Move(1, SelectDue(at)));
    AfterOneMore(INIT, before + [Move(1, SelectDue(at))], Move(1, CommitLease));
    assert before + [Move(1, SelectDue(at))] + [Move(1, CommitLease)]
        == before + [Move(1, SelectDue(at)), Move(1, CommitLease)];
    OnlyJobIsLeased(After(INIT, before), 1, at);
  }
}
