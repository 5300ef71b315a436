/**
 Planners check a deduplication key and insert a job for it; two planners may overlap between the two.
 The unique index over the keys of active jobs then refuses the later insert.
 */
module JobPlanning {
  import opened Text
  import opened Jobs
  import opened JobRuns
  import D = DedupKeys

  /** Jobs keep their keys, and none that is not active becomes active. */
  predicate NoneRevived(jobs: seq<Job>, jobs': seq<Job>) {
    && |jobs| <= |jobs'|
    && forall j | 0 <= j < |jobs| :: jobs'[j].key == jobs[j].key && (IsActive(jobs'[j].status) ==> IsActive(jobs[j].status))
  }

  lemma {:induction false} MoverHasActiveJob(w: World, t: nat)
    requires Inv(w) && t in w.threads
    ensures w.threads[t].Executing? || w.threads[t].Replanning? || w.threads[t].Selected? ==>
              w.threads[t].job < |w.jobs| && IsActive(w.jobs[w.threads[t].job].status)
  {
    assert PhaseOk(w.jobs, w.runs, w.leases, w.threads[t]) && Refers(w.jobs, w.runs, w.threads[t]);
  }

  lemma {:induction false} MovesReviveNone(w: World, move: Move)
    requires Inv(w)
    ensures NoneRevived(w.jobs, Apply(w, move).jobs)
    ensures !TriesInsert(w, move) ==> |Apply(w, move).jobs| == |w.jobs|
  {
    if move.thread in w.threads {
      MoverHasActiveJob(w, move.thread);
    }
  }

  lemma {:induction false} NextMoveRevivesNone(moves: seq<Move>, k: nat)
    requires AloneThroughout(moves) && k < |moves|
    ensures NoneRevived(After(INIT, moves[..k]).jobs, After(INIT, moves[..k + 1]).jobs)
  {
    AfterNext(INIT, moves, k);
    AlonePrefix(moves, k);
    AloneRunsKeepInv(moves[..k]);
    MovesReviveNone(After(INIT, moves[..k]), moves[k]);
  }

  lemma {:induction false} RevivingIsTransitive(tables: seq<seq<Job>>, k: nat, n: nat)
    requires k <= n < |tables| && forall i | k <= i < n :: NoneRevived(tables[i], tables[i + 1])
    ensures NoneRevived(tables[k], tables[n])
  {
    if k < n { RevivingIsTransitive(tables, k, n - 1); }
  }

  /** The jobs after each number of moves. */
  function JobHistory(moves: seq<Move>): (tables: seq<seq<Job>>)
    ensures |tables| == |moves| + 1
    ensures forall k | 0 <= k <= |moves| :: tables[k] == After(INIT, moves[..k]).jobs
  {
    seq(|moves| + 1, k requires 0 <= k <= |moves| => After(INIT, moves[..k]).jobs)
  }

  lemma {:induction false} LaterMovesReviveNone(moves: seq<Move>, k: nat)
    requires AloneThroughout(moves) && k <= |moves|
    ensures NoneRevived(JobHistory(moves)[k], JobHistory(moves)[|moves|])
  {
    var tables := JobHistory(moves);
    forall i | k <= i < |moves| ensures NoneRevived(tables[i], tables[i + 1]) {
      NextMoveRevivesNone(moves, i);
    }
    RevivingIsTransitive(tables, k, |moves|);
  }

  predicate TriesInsert(w: World, move: Move) {
    move.thread in w.threads && w.threads[move.thread].Checked? && move.step.InsertJob?
  }

  /** An active job with this key that was inserted after the first `n`. */
  predicate HasNewActiveJob(jobs: seq<Job>, key: string, n: nat) {
    exists j :: n <= j < |jobs| && jobs[j].key == key && IsActive(jobs[j].status)
  }

  lemma {:induction false} ActiveJobsAreNew(jobs: seq<Job>, jobs': seq<Job>, key: string)
    requires NoneRevived(jobs, jobs') && !HasActiveJob(jobs, key)
    ensures HasActiveJob(jobs', key) <==> HasNewActiveJob(jobs', key, |jobs|)
  {
  }

  lemma {:induction false} InsertOutcome(w: World, t: nat, at: int)
    requires t in w.threads && w.threads[t].Checked?
    ensures Apply(w, Move(t, InsertJob(at))) ==
            if HasActiveJob(w.jobs, w.threads[t].key) then Idle(w, t)
            else Idle(w.(jobs := w.jobs + [Job(w.threads[t].key, at, Planned)]), t)
  {
  }

  predicate SameThread(w: World, w': World, t: nat) {
    (t in w'.threads <==> t in w.threads) && (t in w.threads ==> w'.threads[t] == w.threads[t])
  }

  lemma {:induction false} NextMoveLeavesThread(moves: seq<Move>, k: nat, t: nat)
    requires k < |moves| && moves[k].thread != t
    ensures SameThread(After(INIT, moves[..k]), After(INIT, moves[..k + 1]), t)
  {
    AfterNext(INIT, moves, k);
    OtherThreadsStay(After(INIT, moves[..k]), moves[k], t);
  }

  lemma {:induction false} CheckedStays(moves: seq<Move>, k: nat, n: nat, t: nat)
    requires k <= n <= |moves| && forall i | k <= i < n :: moves[i].thread != t
    ensures SameThread(After(INIT, moves[..k]), After(INIT, moves[..n]), t)
  {
    if k < n {
      CheckedStays(moves, k, n - 1, t);
      NextMoveLeavesThread(moves, n - 1, t);
    }
  }

  lemma {:induction false} CheckAtMove(moves: seq<Move>, k: nat, t: nat, key: string)
    requires k < |moves| && moves[k] == Move(t, CheckKey(key))
    requires t !in After(INIT, moves[..k]).threads && !HasActiveJob(After(INIT, moves[..k]).jobs, key)
    ensures t in After(INIT, moves[..k + 1]).threads && After(INIT, moves[..k + 1]).threads[t] == Checked(key)
  {
    AfterNext(INIT, moves, k);
  }

  /**
   A planner that has found its key free at move `k` ends in an error, and plans nothing, exactly when a job
   with its key was inserted since and has not ended.
   */
  lemma {:induction false} PlannerLosesIff(moves: seq<Move>, k: nat, t: nat, key: string, at: int)
    requires AloneThroughout(moves) && k < |moves| && moves[k] == Move(t, CheckKey(key))
    requires t !in After(INIT, moves[..k]).threads && !HasActiveJob(After(INIT, moves[..k]).jobs, key)
    requires forall i | k < i < |moves| :: moves[i].thread != t
    ensures var w, planned := After(INIT, moves), Apply(After(INIT, moves), Move(t, InsertJob(at)));
            && planned.jobs == (if HasNewActiveJob(w.jobs, key, |After(INIT, moves[..k]).jobs|) then w.jobs
                                else w.jobs + [Job(key, at, Planned)])
            && planned.threads == w.threads - {t}
  {
    CheckAtMove(moves, k, t, key);
    CheckedStays(moves, k + 1, |moves|, t);
    LaterMovesReviveNone(moves, k);
    assert moves[..|moves|] == moves;
    ActiveJobsAreNew(After(INIT, moves[..k]).jobs, After(INIT, moves).jobs, key);
    InsertOutcome(After(INIT, moves), t, at);
  }

  // ----- Planners that do not overlap -----------------------------------------------------------------------------

  /** No two planners are between their check and their insert. */
  predicate SerialPlanning(w: World) {
    forall t, u | t in w.threads && u in w.threads && w.threads[t].Checked? && w.threads[u].Checked? :: t == u
  }

  predicate ChecksHold(w: World) {
    forall t | t in w.threads && w.threads[t].Checked? :: !HasActiveJob(w.jobs, w.threads[t].key)
  }

  lemma {:induction false} CheckedThreadOrigin(w: World, move: Move, u: nat)
    requires u in Apply(w, move).threads && Apply(w, move).threads[u].Checked?
    ensures (u in w.threads && Apply(w, move).threads[u] == w.threads[u])
            || (u == move.thread && !HasActiveJob(w.jobs, Apply(w, move).threads[u].key) && Apply(w, move).jobs == w.jobs)
  {
    if u != move.thread { OtherThreadsStay(w, move, u); }
  }

  lemma {:induction false} SerialMoveKeepsChecks(w: World, move: Move)
    requires Inv(w) && SerialPlanning(w) && ChecksHold(w)
    ensures ChecksHold(Apply(w, move))
  {
    var w' := Apply(w, move);
    MovesReviveNone(w, move);
    forall u | u in w'.threads && w'.threads[u].Checked? ensures !HasActiveJob(w'.jobs, w'.threads[u].key) {
      CheckedThreadOrigin(w, move, u);
      if TriesInsert(w, move) {
        InsertOutcome(w, move.thread, move.step.availableAt);
      }
    }
  }

  predicate SerialThroughout(moves: seq<Move>) {
    forall k | 0 <= k <= |moves| :: SerialPlanning(After(INIT, moves[..k]))
  }

  lemma {:induction false} NextMoveKeepsChecks(moves: seq<Move>, k: nat)
    requires AloneThroughout(moves) && k < |moves|
    requires SerialPlanning(After(INIT, moves[..k])) && ChecksHold(After(INIT, moves[..k]))
    ensures ChecksHold(After(INIT, moves[..k + 1]))
  {
    AfterNext(INIT, moves, k);
    AlonePrefix(moves, k);
    AloneRunsKeepInv(moves[..k]);
    SerialMoveKeepsChecks(After(INIT, moves[..k]), moves[k]);
  }

  lemma {:induction false} SerialChecksHold(moves: seq<Move>, k: nat)
    requires AloneThroughout(moves) && SerialThroughout(moves) && k <= |moves|
    ensures ChecksHold(After(INIT, moves[..k]))
  {
    if k == 0 {
      assert moves[..0] == [];
    } else {
      SerialChecksHold(moves, k - 1);
      assert SerialPlanning(After(INIT, moves[..k - 1]));
      NextMoveKeepsChecks(moves, k - 1);
    }
  }

  /** Planners that never overlap never lose: every insert finds its key free. */
  lemma {:induction false} SerialPlannersNeverLose(moves: seq<Move>, k: nat)
    requires AloneThroughout(moves) && SerialThroughout(moves) && k < |moves|
    ensures var w := After(INIT, moves[..k]);
            TriesInsert(w, moves[k]) ==>
              After(INIT, moves[..k + 1]).jobs == w.jobs + [Job(w.threads[moves[k].thread].key, moves[k].step.availableAt, Planned)]
  {
    var w := After(INIT, moves[..k]);
    SerialChecksHold(moves, k);
    AfterNext(INIT, moves, k);
    if TriesInsert(w, moves[k]) {
      InsertOutcome(w, moves[k].thread, moves[k].step.availableAt);
    }
  }

  // ----- Planners that do ---------------------------------------------------------------------------------------------

  function Overlapping(key: string, at: int): seq<Move> {
    [Move(0, CheckKey(key)), Move(1, CheckKey(key)), Move(0, InsertJob(at)), Move(1, InsertJob(at))]
  }

  lemma {:induction false} OverlappingMoves(key: string, at: int)
    ensures After(INIT, Overlapping(key, at)) == World([Job(key, at, Planned)], [], {}, map[])
  {
    var moves := Overlapping(key, at);
    assert moves[..0] == [] && moves[..4] == moves;
    AfterNext(INIT, moves, 0);
    AfterNext(INIT, moves, 1);
    AfterNext(INIT, moves, 2);
    AfterNext(INIT, moves, 3);
    assert After(INIT, moves[..1]).threads == map[0 := Checked(key)];
    assert After(INIT, moves[..2]).threads == map[0 := Checked(key), 1 := Checked(key)];
    assert After(INIT, moves[..3]) == World([Job(key, at, Planned)], [], {}, map[1 := Checked(key)]);
    assert After(INIT, moves[..3]).jobs[0].key == key;
  }

  /** Of two planners for the same request that both check before either inserts, one plans the job and one errs. */
  lemma {:induction false} OverlappingPlannersLose(kind: D.JobKind, trigger: D.Trigger, conversation: Option<string>, at: int)
    ensures var key := D.BuildDeduplicationKey(kind, trigger, conversation);
            && After(INIT, Overlapping(key, at)).jobs == [Job(key, at, Planned)]
            && After(INIT, Overlapping(key, at)).threads == map[]
  {
    OverlappingMoves(D.BuildDeduplicationKey(kind, trigger, conversation), at);
  }
}
