/**
 Background jobs: planning under a deduplication key, leasing with row locks, the ordered status
 writes and the worker lease of an execution that may stop anywhere, and the recovery of runs that
 have no worker lease.

 Rows are numbered in insertion order, so a row's number is its identifier and the next number
 is always fresh. Each step is one committed transaction (or one statement outside of any), or
 the taking or release of a row lock. A statement that a constraint of the tables refuses ends its
 thread with an error.
 */
module Jobs {
  import opened Text

  datatype JobStatus = Planned | Leased | Running | Completed | Failed | Suppressed | Cancelled

  datatype RunStatus = Leased | Running | Completed | Failed | TimedOut

  datatype Job = Job(key: string, availableAt: int, status: JobStatus)

  /** A run has a start time exactly when it is not `Leased`, as its table demands. */
  datatype Run = Run(job: nat, status: RunStatus)

  datatype Outcome = Success | Failure | Timeout {
    function RunEndsAs(): RunStatus {
      match this
      case Success => RunStatus.Completed
      case Failure => RunStatus.Failed
      case Timeout => RunStatus.TimedOut
    }

    function JobEndsAs(): JobStatus {
      if Success? then JobStatus.Completed else JobStatus.Failed
    }
  }

  /** How far an execution has come. */
  datatype Stage =
    | Claimed
    | JobStarted
    | RunStarted
    | Working                       // has taken a worker lease
    | Released                      // the worker has answered and the lease is given back
    | RunEnded(outcome: Outcome)

  datatype Phase =
    | Checked(key: string)                                // planner: found no active job with this key
    | Selected(job: nat)                                  // leaser: holds the lock on this row
    | Executing(job: nat, run: nat, stage: Stage)
    | Listed(job: nat, run: nat)                          // supervisor: found this run without a worker lease
    | Recovering(job: nat, run: nat, started: bool)       // supervisor: has read whether the run was started
    | Replanning(job: nat, run: nat)                      // supervisor: has failed the run

  /** `leases` holds the runs with an active worker lease. */
  datatype World = World(jobs: seq<Job>, runs: seq<Run>, leases: set<nat>, threads: map<nat, Phase>)

  datatype Step =
    | CheckKey(key: string)
    | InsertJob(availableAt: int)
    | SelectDue(now: int)
    | AbortLease
    | CommitLease
    | StartJob
    | StartRun
    | TakeWorkerLease
    | ReleaseWorkerLease
    | EndRun(outcome: Outcome)
    | EndJob
    | ExpireWorkerLease(run: nat)
    | ListStranded(run: nat)
    | ReadRun
    | FailRun
    | ReplanJob
    | Crash

  datatype Move = Move(thread: nat, step: Step)

  // ----- The steps ---------------------------------------------------------------------------

  predicate IsActive(status: JobStatus) {
    status.Planned? || status.Leased? || status.Running?
  }

  predicate HasActiveJob(jobs: seq<Job>, key: string) {
    exists i :: 0 <= i < |jobs| && jobs[i].key == key && IsActive(jobs[i].status)
  }

  /** The unique index over the keys of active jobs. */
  predicate UniqueActive(jobs: seq<Job>) {
    forall i, j | 0 <= i < j < |jobs| && IsActive(jobs[i].status) && IsActive(jobs[j].status) :: jobs[i].key != jobs[j].key
  }

  /** The index lets a job take this status. */
  predicate MayTake(jobs: seq<Job>, job: nat, status: JobStatus)
    requires job < |jobs|
  {
    IsActive(status) ==> forall i | 0 <= i < |jobs| && i != job && IsActive(jobs[i].status) :: jobs[i].key != jobs[job].key
  }

  predicate IsLocked(threads: map<nat, Phase>, job: nat) {
    exists t | t in threads :: threads[t] == Selected(job)
  }

  predicate IsDue(w: World, now: int, job: nat) {
    job < |w.jobs| && w.jobs[job].status.Planned? && w.jobs[job].availableAt <= now && !IsLocked(w.threads, job)
  }

  predicate HoldsRun(p: Phase) {
    p.Executing? || p.Listed? || p.Recovering? || p.Replanning?
  }

  /** Somebody executes or recovers the run. */
  predicate IsHeld(threads: map<nat, Phase>, run: nat) {
    exists t | t in threads :: HoldsRun(threads[t]) && threads[t].run == run
  }

  predicate HasEnded(status: RunStatus) {
    status.Completed? || status.Failed? || status.TimedOut?
  }

  predicate IsUnderway(status: JobStatus) {
    status.Leased? || status.Running?
  }

  /** What recovery looks for: neither job nor run has ended, and the run has no active worker lease. */
  predicate IsListable(w: World, run: nat) {
    && run < |w.runs| && !HasEnded(w.runs[run].status) && run !in w.leases
    && w.runs[run].job < |w.jobs| && IsUnderway(w.jobs[w.runs[run].job].status)
  }

  /** Among the due, unlocked jobs from `from` on: the earliest available, the oldest of those. */
  function NextDue(w: World, now: int, from: nat): (r: Option<nat>)
    requires from <= |w.jobs|
    ensures r.Some? ==> from <= r.value && IsDue(w, now, r.value)
    ensures forall j | from <= j < |w.jobs| && IsDue(w, now, j) ::
              r.Some? && (w.jobs[r.value].availableAt < w.jobs[j].availableAt
                          || (w.jobs[r.value].availableAt == w.jobs[j].availableAt && r.value <= j))
    decreases |w.jobs| - from
  {
    if from == |w.jobs| then None
    else
      var later := NextDue(w, now, from + 1);
      if IsDue(w, now, from) && (later.None? || w.jobs[from].availableAt <= w.jobs[later.value].availableAt)
      then Some(from)
      else later
  }

  function SetJob(jobs: seq<Job>, job: nat, status: JobStatus): seq<Job>
    requires job < |jobs|
  {
    jobs[job := jobs[job].(status := status)]
  }

  function SetRun(runs: seq<Run>, run: nat, status: RunStatus): seq<Run>
    requires run < |runs|
  {
    runs[run := runs[run].(status := status)]
  }

  function Idle(w: World, t: nat): World {
    w.(threads := w.threads - {t})
  }

  function At(w: World, t: nat, phase: Phase): World {
    w.(threads := w.threads[t := phase])
  }

  /** A write to a job's status, after which the thread is in phase `next` or done; it waits for a row lock. */
  function WriteJob(w: World, t: nat, job: nat, status: JobStatus, next: Option<Phase>): World {
    if job >= |w.jobs| || IsLocked(w.threads, job) then w
    else if !MayTake(w.jobs, job, status) then Idle(w, t)
    else
      var written := w.(jobs := SetJob(w.jobs, job, status));
      if next.Some? then At(written, t, next.value) else Idle(written, t)
  }

  /** A write to a run's status. */
  function WriteRun(w: World, t: nat, run: nat, status: RunStatus, next: Phase): World {
    if run >= |w.runs| then w else At(w.(runs := SetRun(w.runs, run, status)), t, next)
  }

  /**
   A worker that has answered first refreshes its lease, which fails if the lease is no longer active.
   The lease of a run that has ended is never looked at, so its later end is not a step here.
   */
  function ApplyExecution(w: World, t: nat, job: nat, run: nat, stage: Stage, step: Step): World {
    match (stage, step)
    case (Claimed, StartJob) => WriteJob(w, t, job, JobStatus.Running, Some(Executing(job, run, JobStarted)))
    case (JobStarted, StartRun) => WriteRun(w, t, run, RunStatus.Running, Executing(job, run, RunStarted))
    case (RunStarted, TakeWorkerLease) => At(w.(leases := w.leases + {run}), t, Executing(job, run, Working))
    case (Working, ReleaseWorkerLease) =>
      if run in w.leases then At(w.(leases := w.leases - {run}), t, Executing(job, run, Released)) else Idle(w, t)
    case (Working, EndRun(outcome)) =>
      if outcome.Success? then w else WriteRun(w, t, run, outcome.RunEndsAs(), Executing(job, run, RunEnded(outcome)))
    case (Released, EndRun(outcome)) =>
      if outcome.Timeout? then w else WriteRun(w, t, run, outcome.RunEndsAs(), Executing(job, run, RunEnded(outcome)))
    case (RunEnded(outcome), EndJob) => WriteJob(w, t, job, outcome.JobEndsAs(), None)
    case _ => w
  }

  /** Recovery writes the start time it has read, and a run cannot have failed without one. */
  function ApplyRecovery(w: World, t: nat, p: Phase, step: Step): World {
    match (p, step)
    case (Listed(job, run), ReadRun) =>
      if run < |w.runs| then At(w, t, Recovering(job, run, !w.runs[run].status.Leased?)) else w
    case (Recovering(job, run, started), FailRun) =>
      if started then WriteRun(w, t, run, RunStatus.Failed, Replanning(job, run)) else Idle(w, t)
    case (Replanning(job, run), ReplanJob) => WriteJob(w, t, job, Planned, None)
    case _ => w
  }

  /** A step of a planner or a leaser. */
  function ApplyClaim(w: World, t: nat, p: Phase, step: Step): World {
    match (p, step)
    case (Checked(key), InsertJob(availableAt)) =>
      if HasActiveJob(w.jobs, key) then Idle(w, t) else Idle(w.(jobs := w.jobs + [Job(key, availableAt, Planned)]), t)
    case (Selected(_), AbortLease) => Idle(w, t)
    case (Selected(job), CommitLease) =>
      if job < |w.jobs| then
        At(w.(jobs := SetJob(w.jobs, job, JobStatus.Leased), runs := w.runs + [Run(job, RunStatus.Leased)]),
           t, Executing(job, |w.runs|, Claimed))
      else w
    case _ => w
  }

  function ApplyFirst(w: World, t: nat, step: Step): World {
    match step
    case CheckKey(key) => if HasActiveJob(w.jobs, key) then w else At(w, t, Checked(key))
    case SelectDue(now) =>
      var due := NextDue(w, now, 0);
      if due.Some? then At(w, t, Selected(due.value)) else w
    case ListStranded(run) => if IsListable(w, run) then At(w, t, Listed(w.runs[run].job, run)) else w
    case ExpireWorkerLease(run) => w.(leases := w.leases - {run})
    case _ => w
  }

  function ApplyIn(w: World, t: nat, p: Phase, step: Step): World {
    if step.Crash? then Idle(w, t)
    else
      match p
      case Executing(job, run, stage) => ApplyExecution(w, t, job, run, stage, step)
      case Checked(_) => ApplyClaim(w, t, p, step)
      case Selected(_) => ApplyClaim(w, t, p, step)
      case _ => ApplyRecovery(w, t, p, step)
  }

  /** The effect of a move; a move that its thread is not ready for changes nothing. */
  function Apply(w: World, move: Move): World {
    var t := move.thread;
    if t in w.threads then ApplyIn(w, t, w.threads[t], move.step) else ApplyFirst(w, t, move.step)
  }

  const INIT := World([], [], {}, map[])

  function After(w: World, moves: seq<Move>): World {
    if moves == [] then w else Apply(After(w, moves[..|moves| - 1]), moves[|moves| - 1])
  }

  lemma {:induction false} AfterNext(w: World, moves: seq<Move>, k: nat)
    requires k < |moves|
    ensures After(w, moves[..k + 1]) == Apply(After(w, moves[..k]), moves[k])
  {
    assert moves[..k + 1][..k] == moves[..k];
  }

  lemma {:induction false} AfterOneMore(w: World, moves: seq<Move>, move: Move)
    ensures After(w, moves + [move]) == Apply(After(w, moves), move)
  {
    assert (moves + [move])[..|moves|] == moves;
  }

  lemma {:induction false} AfterConcat(w: World, first: seq<Move>, second: seq<Move>)
    ensures After(w, first + second) == After(After(w, first), second)
  {
    if second == [] {
      assert first + second == first;
    } else {
      InitAndLast(second);
      var last := second[|second| - 1];
      ConcatIsAssociative(first, second[..|second| - 1], [last]);
      AfterConcat(w, first, second[..|second| - 1]);
      AfterOneMore(w, first + second[..|second| - 1], last);
      AfterOneMore(After(w, first), second[..|second| - 1], last);
    }
  }

  function Flat(parts: seq<seq<Move>>): seq<Move> {
    if parts == [] then [] else Flat(parts[..|parts| - 1]) + parts[|parts| - 1]
  }

  /** Parts of a run that lead from one world to the next lead from the first to the last. */
  lemma {:induction false} AfterParts(worlds: seq<World>, parts: seq<seq<Move>>)
    requires |worlds| == |parts| + 1 && forall i | 0 <= i < |parts| :: After(worlds[i], parts[i]) == worlds[i + 1]
    ensures After(worlds[0], Flat(parts)) == worlds[|parts|]
  {
    if parts != [] {
      var n := |parts| - 1;
      AfterParts(worlds[..n + 1], parts[..n]);
      AfterConcat(worlds[0], Flat(parts[..n]), parts[n]);
    }
  }

  /** A move touches the phase of its own thread only. */
  lemma {:induction false} OtherThreadsStay(w: World, move: Move, u: nat)
    requires u != move.thread
    ensures u in Apply(w, move).threads <==> u in w.threads
    ensures u in w.threads ==> Apply(w, move).threads[u] == w.threads[u]
  {
  }

  // ----- What every run keeps -----------------------------------------------------------------

  predicate RunsInRange(w: World) {
    && (forall r | 0 <= r < |w.runs| :: w.runs[r].job < |w.jobs|)
    && (forall r | r in w.leases :: r < |w.runs|)
  }

  /** The phase names rows that belong together; a job that is locked for a lease is planned. */
  predicate Refers(jobs: seq<Job>, runs: seq<Run>, p: Phase) {
    && (p.Selected? ==> p.job < |jobs| && jobs[p.job].status.Planned?)
    && (HoldsRun(p) ==> p.run < |runs| && runs[p.run].job == p.job)
  }

  predicate LocksApart(p: Phase, q: Phase) {
    p.Selected? && q.Selected? ==> p.job != q.job
  }

  /** Whatever overlaps: references are sound, row locks exclude each other, and active jobs have different keys. */
  predicate Sound(w: World) {
    && RunsInRange(w)
    && UniqueActive(w.jobs)
    && (forall t | t in w.threads :: Refers(w.jobs, w.runs, w.threads[t]))
    && (forall t, u | t in w.threads && u in w.threads && t != u :: LocksApart(w.threads[t], w.threads[u]))
  }

  /** One thread moves to a phase or leaves; what the others refer to is still there. */
  lemma {:induction false} MoverKeepsSound(w: World, w': World, t: nat)
    requires Sound(w) && RunsInRange(w') && UniqueActive(w'.jobs)
    requires forall u | u != t :: (u in w'.threads <==> u in w.threads) && (u in w.threads ==> w'.threads[u] == w.threads[u])
    requires |w.jobs| <= |w'.jobs| && |w.runs| <= |w'.runs|
    requires forall r | 0 <= r < |w.runs| :: w'.runs[r].job == w.runs[r].job
    requires forall u | u in w.threads && u != t && w.threads[u].Selected? :: w'.jobs[w.threads[u].job].status.Planned?
    requires t in w'.threads ==> Refers(w'.jobs, w'.runs, w'.threads[t])
    requires t in w'.threads && w'.threads[t].Selected? ==>
               forall u | u in w.threads && u != t :: LocksApart(w'.threads[t], w.threads[u])
    ensures Sound(w')
  {
    forall u | u in w'.threads ensures Refers(w'.jobs, w'.runs, w'.threads[u]) {
      if u != t { assert Refers(w.jobs, w.runs, w.threads[u]); }
    }
    forall u, v | u in w'.threads && v in w'.threads && u != v ensures LocksApart(w'.threads[u], w'.threads[v]) {
      if u == t { assert w'.threads[t].Selected? ==> LocksApart(w'.threads[t], w.threads[v]); }
      else if v == t { assert w'.threads[t].Selected? ==> LocksApart(w'.threads[t], w.threads[u]); }
      else { assert LocksApart(w.threads[u], w.threads[v]); }
    }
  }

  lemma {:induction false} WriteKeepsUnique(jobs: seq<Job>, job: nat, status: JobStatus)
    requires UniqueActive(jobs) && job < |jobs| && MayTake(jobs, job, status)
    ensures UniqueActive(SetJob(jobs, job, status))
  {
  }

  /** The index never stands in the way of a job that is active already. */
  lemma {:induction false} ActiveJobsMayTake(jobs: seq<Job>, job: nat, status: JobStatus)
    requires UniqueActive(jobs) && job < |jobs| && IsActive(jobs[job].status)
    ensures MayTake(jobs, job, status)
  {
  }

  lemma {:induction false} WriteJobKeepsSound(w: World, t: nat, job: nat, status: JobStatus, next: Option<Phase>)
    requires Sound(w) && t in w.threads
    requires next.Some? ==> !next.value.Selected? && Refers(w.jobs, w.runs, next.value)
    ensures Sound(WriteJob(w, t, job, status, next))
  {
    if job < |w.jobs| && !IsLocked(w.threads, job) {
      if MayTake(w.jobs, job, status) { WriteKeepsUnique(w.jobs, job, status); }
      forall u | u in w.threads && w.threads[u].Selected? ensures w.threads[u].job != job {
        assert w.threads[u] != Selected(job);
      }
      MoverKeepsSound(w, WriteJob(w, t, job, status, next), t);
    }
  }

  lemma {:induction false} WriteRunKeepsSound(w: World, t: nat, run: nat, status: RunStatus, next: Phase)
    requires Sound(w) && t in w.threads
    requires !next.Selected? && Refers(w.jobs, w.runs, next)
    ensures Sound(WriteRun(w, t, run, status, next))
  {
    if run < |w.runs| {
      MoverKeepsSound(w, WriteRun(w, t, run, status, next), t);
    }
  }

  lemma {:induction false} ExecutionKeepsSound(w: World, t: nat, step: Step)
    requires Sound(w) && t in w.threads && w.threads[t].Executing?
    ensures Sound(ApplyExecution(w, t, w.threads[t].job, w.threads[t].run, w.threads[t].stage, step))
  {
    var p := w.threads[t];
    assert Refers(w.jobs, w.runs, p);
    match (p.stage, step)
    case (Claimed, StartJob) => WriteJobKeepsSound(w, t, p.job, JobStatus.Running, Some(Executing(p.job, p.run, JobStarted)));
    case (JobStarted, StartRun) => WriteRunKeepsSound(w, t, p.run, RunStatus.Running, Executing(p.job, p.run, RunStarted));
    case (RunStarted, TakeWorkerLease) => MoverKeepsSound(w, ApplyExecution(w, t, p.job, p.run, p.stage, step), t);
    case (Working, ReleaseWorkerLease) => MoverKeepsSound(w, ApplyExecution(w, t, p.job, p.run, p.stage, step), t);
    case (Working, EndRun(outcome)) => WriteRunKeepsSound(w, t, p.run, outcome.RunEndsAs(), Executing(p.job, p.run, RunEnded(outcome)));
    case (Released, EndRun(outcome)) => WriteRunKeepsSound(w, t, p.run, outcome.RunEndsAs(), Executing(p.job, p.run, RunEnded(outcome)));
    case (RunEnded(outcome), EndJob) => WriteJobKeepsSound(w, t, p.job, outcome.JobEndsAs(), None);
    case _ =>
  }

  lemma {:induction false} RecoveryKeepsSound(w: World, t: nat, step: Step)
    requires Sound(w) && t in w.threads
    requires w.threads[t].Listed? || w.threads[t].Recovering? || w.threads[t].Replanning?
    ensures Sound(ApplyRecovery(w, t, w.threads[t], step))
  {
    var p := w.threads[t];
    assert Refers(w.jobs, w.runs, p);
    match (p, step)
    case (Listed(_, _), ReadRun) => MoverKeepsSound(w, ApplyRecovery(w, t, p, step), t);
    case (Recovering(job, run, started), FailRun) =>
      if started {
        WriteRunKeepsSound(w, t, run, RunStatus.Failed, Replanning(job, run));
      } else {
        MoverKeepsSound(w, Idle(w, t), t);
      }
    case (Replanning(job, _), ReplanJob) => WriteJobKeepsSound(w, t, job, Planned, None);
    case _ =>
  }

  lemma {:induction false} InsertKeepsUniqueIff(jobs: seq<Job>, job: Job)
    requires UniqueActive(jobs) && job.status.Planned?
    ensures UniqueActive(jobs + [job]) <==> !HasActiveJob(jobs, job.key)
  {
    var jobs' := jobs + [job];
    if i :| 0 <= i < |jobs| && jobs[i].key == job.key && IsActive(jobs[i].status) {
      assert jobs'[i] == jobs[i] && jobs'[|jobs|] == job;
    }
  }

  lemma {:induction false} ClaimKeepsSound(w: World, t: nat, step: Step)
    requires Sound(w) && t in w.threads && (w.threads[t].Checked? || w.threads[t].Selected?)
    ensures Sound(ApplyClaim(w, t, w.threads[t], step))
  {
    var p := w.threads[t];
    assert Refers(w.jobs, w.runs, p);
    var w' := ApplyClaim(w, t, p, step);
    match (p, step)
    case (Checked(key), InsertJob(availableAt)) =>
      InsertKeepsUniqueIff(w.jobs, Job(key, availableAt, Planned));
      MoverKeepsSound(w, w', t);
    case (Selected(job), CommitLease) =>
      ActiveJobsMayTake(w.jobs, job, JobStatus.Leased);
      WriteKeepsUnique(w.jobs, job, JobStatus.Leased);
      forall u | u in w.threads && u != t && w.threads[u].Selected? ensures w.threads[u].job != job {
        assert LocksApart(p, w.threads[u]);
      }
      MoverKeepsSound(w, w', t);
    case (Selected(_), AbortLease) => MoverKeepsSound(w, w', t);
    case _ =>
  }

  lemma {:induction false} FirstKeepsSound(w: World, t: nat, step: Step)
    requires Sound(w) && t !in w.threads
    ensures Sound(ApplyFirst(w, t, step))
  {
    var w' := ApplyFirst(w, t, step);
    if step.SelectDue? && NextDue(w, step.now, 0).Some? {
      var due := NextDue(w, step.now, 0).value;
      forall u | u in w.threads ensures LocksApart(Selected(due), w.threads[u]) {
        assert w.threads[u] != Selected(due);
      }
    }
    MoverKeepsSound(w, w', t);
  }

  lemma {:induction false} ApplyKeepsSound(w: World, move: Move)
    requires Sound(w)
    ensures Sound(Apply(w, move))
  {
    var t, step := move.thread, move.step;
    if t !in w.threads {
      FirstKeepsSound(w, t, step);
    } else if step.Crash? {
      MoverKeepsSound(w, Idle(w, t), t);
    } else {
      match w.threads[t]
      case Executing(_, _, _) => ExecutionKeepsSound(w, t, step);
      case Checked(_) => ClaimKeepsSound(w, t, step);
      case Selected(_) => ClaimKeepsSound(w, t, step);
      case _ => RecoveryKeepsSound(w, t, step);
    }
  }

  lemma {:induction false} AfterKeepsSound(w: World, moves: seq<Move>)
    requires Sound(w)
    ensures Sound(After(w, moves))
  {
    if moves != [] {
      AfterKeepsSound(w, moves[..|moves| - 1]);
      ApplyKeepsSound(After(w, moves[..|moves| - 1]), moves[|moves| - 1]);
    }
  }

  /** In every run, whatever overlaps and wherever it stops, a key has at most one planned, leased or running job. */
  lemma {:induction false} KeysStayUnique(moves: seq<Move>)
    ensures UniqueActive(After(INIT, moves).jobs)
    ensures Sound(After(INIT, moves))
  {
    AfterKeepsSound(INIT, moves);
  }
}
