/**
 Foreground ingress: staging, planning of what is recoverable, completion, and recovery of what a
 crashed execution left in processing. Rows are numbered in insertion order; times are in
 microseconds. A crash is an execution whose completion never comes, or comes late.
 */
module Ingress {
  import opened Text

  const MICROS := 1_000_000

  datatype ForegroundStatus = Pending | Processing | Processed | Rejected

  datatype Row = Row(
    conversation: string,
    occurredAt: int,
    receivedAt: int,
    accepted: bool,
    status: ForegroundStatus,
    lastProcessedAt: Option<int>,
    execution: Option<nat>)

  datatype RawConfig = RawConfig(countThreshold: nat, spanSeconds: nat, staleSeconds: nat, maxBatch: nat)

  /** What configuration validation lets through. */
  predicate IsValidConfig(c: RawConfig) {
    c.countThreshold >= 2 && c.spanSeconds > 0 && c.staleSeconds > 0 && c.maxBatch > 0 && c.maxBatch >= c.countThreshold
  }

  type Config = c: RawConfig | IsValidConfig(c) witness RawConfig(2, 1, 1, 2)

  datatype Mode = SingleIngress | BacklogRecovery

  datatype Reason = Single | ForcedRecovery | StaleProcessingResume | PendingSpanThreshold | StalePendingBatch

  // ----- What is recoverable, and in which order ------------------------------------------------------

  /** When an execution last took or finished the row, or else when it arrived. */
  function Touch(row: Row): int {
    row.lastProcessedAt.GetOr(row.receivedAt)
  }

  predicate IsRecoverable(row: Row, conversation: string, cutoff: int) {
    && row.conversation == conversation && row.accepted
    && (row.status.Pending? || (row.status.Processing? && Touch(row) <= cutoff))
  }

  predicate Recoverable(rows: seq<Row>, conversation: string, cutoff: int, id: nat) {
    id < |rows| && IsRecoverable(rows[id], conversation, cutoff)
  }

  predicate NotAfter(a: Row, b: Row) {
    a.occurredAt < b.occurredAt || (a.occurredAt == b.occurredAt && a.receivedAt <= b.receivedAt)
  }

  predicate AreIds(rows: seq<Row>, ids: seq<nat>) {
    forall i | 0 <= i < |ids| :: ids[i] < |rows|
  }

  predicate InOrder(rows: seq<Row>, ids: seq<nat>)
    requires AreIds(rows, ids)
  {
    forall i, j | 0 <= i < j < |ids| :: ids[i] != ids[j] && NotAfter(rows[ids[i]], rows[ids[j]])
  }

  /** Nothing recoverable outside `ids` comes before any of them. */
  predicate ComesFirst(rows: seq<Row>, conversation: string, cutoff: int, ids: seq<nat>)
    requires AreIds(rows, ids)
  {
    forall i, r | 0 <= i < |ids| && 0 <= r < |rows| && Recoverable(rows, conversation, cutoff, r) && r !in ids ::
      NotAfter(rows[ids[i]], rows[r])
  }

  /** The locked, ordered and limited selection; rows that arrived and happened at the same time may come in any order. */
  predicate IsBatch(rows: seq<Row>, conversation: string, cutoff: int, limit: nat, ids: seq<nat>) {
    && (forall i | 0 <= i < |ids| :: Recoverable(rows, conversation, cutoff, ids[i]))
    && InOrder(rows, ids)
    && ComesFirst(rows, conversation, cutoff, ids)
    && |ids| <= limit
    && (|ids| < limit ==> forall r | 0 <= r < |rows| && Recoverable(rows, conversation, cutoff, r) :: r in ids)
  }

  // ----- The planning decision -----------------------------------------------------------------------------

  /** A duration in whole seconds, never negative. */
  function WholeSeconds(micros: int): nat {
    if micros < 0 then 0 else micros / MICROS
  }

  function OldestTouch(rows: seq<Row>, ids: seq<nat>): int
    requires AreIds(rows, ids) && ids != []
  {
    if |ids| == 1 then Touch(rows[ids[0]])
    else
      var rest := OldestTouch(rows, ids[1..]);
      if Touch(rows[ids[0]]) <= rest then Touch(rows[ids[0]]) else rest
  }

  predicate ResumesProcessing(rows: seq<Row>, ids: seq<nat>)
    requires AreIds(rows, ids)
  {
    exists i :: 0 <= i < |ids| && rows[ids[i]].status.Processing?
  }

  function Decide(config: Config, rows: seq<Row>, ids: seq<nat>, now: int, force: bool): Reason
    requires AreIds(rows, ids)
  {
    if |ids| < 2 then Single
    else if force then ForcedRecovery
    else if ResumesProcessing(rows, ids) then StaleProcessingResume
    else if |ids| >= config.countThreshold
            && WholeSeconds(rows[ids[|ids| - 1]].occurredAt - rows[ids[0]].occurredAt) >= config.spanSeconds
    then PendingSpanThreshold
    else if |ids| >= config.countThreshold && WholeSeconds(now - OldestTouch(rows, ids)) >= config.staleSeconds
    then StalePendingBatch
    else Single
  }

  function ModeOf(reason: Reason): Mode {
    if reason.Single? then SingleIngress else BacklogRecovery
  }

  function Selected(config: Config, rows: seq<Row>, ids: seq<nat>, now: int, force: bool): (selected: seq<nat>)
    requires AreIds(rows, ids)
    ensures selected <= ids && (ids != [] ==> selected != [])
  {
    if ids == [] || ModeOf(Decide(config, rows, ids, now, force)).BacklogRecovery? then ids else ids[..1]
  }

  lemma {:induction false} OldestTouchIsLeast(rows: seq<Row>, ids: seq<nat>)
    requires AreIds(rows, ids) && ids != []
    ensures forall i | 0 <= i < |ids| :: OldestTouch(rows, ids) <= Touch(rows[ids[i]])
    ensures exists i :: 0 <= i < |ids| && OldestTouch(rows, ids) == Touch(rows[ids[i]])
  {
    if |ids| == 1 {
      assert OldestTouch(rows, ids) == Touch(rows[ids[0]]);
    } else {
      var rest := ids[1..];
      OldestTouchIsLeast(rows, rest);
      var k :| 0 <= k < |rest| && OldestTouch(rows, rest) == Touch(rows[rest[k]]);
      assert ids[k + 1] == rest[k];
      assert forall i | 0 < i < |ids| :: ids[i] == rest[i - 1];
      if Touch(rows[ids[0]]) <= OldestTouch(rows, rest) {
        assert OldestTouch(rows, ids) == Touch(rows[ids[0]]);
      } else {
        assert OldestTouch(rows, ids) == Touch(rows[ids[k + 1]]);
      }
    }
  }

  predicate SpansLong(config: Config, rows: seq<Row>, ids: seq<nat>)
    requires AreIds(rows, ids)
  {
    |ids| > 0 && rows[ids[|ids| - 1]].occurredAt - rows[ids[0]].occurredAt >= config.spanSeconds * MICROS
  }

  predicate WaitsLong(config: Config, rows: seq<Row>, ids: seq<nat>, now: int)
    requires AreIds(rows, ids)
  {
    exists i :: 0 <= i < |ids|
      && now - (if rows[ids[i]].lastProcessedAt.Some? then rows[ids[i]].lastProcessedAt.value else rows[ids[i]].receivedAt)
         >= config.staleSeconds * MICROS
  }

  /**
   Two or more rows that are recovered by force, or of which one is resumed, or that are many enough
   and span, or have one row waiting, long enough.
   */
  predicate IsBacklog(config: Config, rows: seq<Row>, ids: seq<nat>, now: int, force: bool)
    requires AreIds(rows, ids)
  {
    && |ids| >= 2
    && (|| force
        || ResumesProcessing(rows, ids)
        || (|ids| >= config.countThreshold && (SpansLong(config, rows, ids) || WaitsLong(config, rows, ids, now))))
  }

  /** The first of these conditions that holds is the reason given. */
  predicate IsReason(config: Config, rows: seq<Row>, ids: seq<nat>, now: int, force: bool, reason: Reason)
    requires AreIds(rows, ids)
  {
    && (reason.Single? <==> !IsBacklog(config, rows, ids, now, force))
    && (reason.ForcedRecovery? ==> force)
    && (reason.StaleProcessingResume? ==> !force && ResumesProcessing(rows, ids))
    && (reason.PendingSpanThreshold? ==> !force && !ResumesProcessing(rows, ids) && SpansLong(config, rows, ids))
    && (reason.StalePendingBatch? ==>
          !force && !ResumesProcessing(rows, ids) && !SpansLong(config, rows, ids) && WaitsLong(config, rows, ids, now))
  }

  /** A selection is recovered as one backlog exactly when it is one, and the reason says why. */
  lemma {:induction false} BacklogIff(config: Config, rows: seq<Row>, ids: seq<nat>, now: int, force: bool)
    requires AreIds(rows, ids)
    ensures ModeOf(Decide(config, rows, ids, now, force)).BacklogRecovery? <==> IsBacklog(config, rows, ids, now, force)
    ensures IsReason(config, rows, ids, now, force, Decide(config, rows, ids, now, force))
  {
    if |ids| >= 2 {
      WholeSecondsAtLeast(rows[ids[|ids| - 1]].occurredAt - rows[ids[0]].occurredAt, config.spanSeconds);
      WholeSecondsAtLeast(now - OldestTouch(rows, ids), config.staleSeconds);
      OldestTouchIsLeast(rows, ids);
    }
  }

  /** A backlog is taken whole; of anything else the first row alone. */
  lemma {:induction false} BacklogIsTakenWhole(config: Config, rows: seq<Row>, ids: seq<nat>, now: int, force: bool)
    requires AreIds(rows, ids) && ids != []
    ensures Selected(config, rows, ids, now, force) == if IsBacklog(config, rows, ids, now, force) then ids else [ids[0]]
  {
    BacklogIff(config, rows, ids, now, force);
  }

  lemma {:induction false} WholeSecondsAtLeast(micros: int, seconds: nat)
    requires seconds > 0
    ensures WholeSeconds(micros) >= seconds <==> micros >= seconds * MICROS
  {
  }

  // ----- The steps -------------------------------------------------------------------------------------------

  /** Which execution was given which rows, and when. */
  datatype Handover = Handover(at: int, execution: nat, ids: seq<nat>)

  datatype World = World(now: int, rows: seq<Row>, handovers: seq<Handover>)

  datatype Step =
    | Tick(micros: nat)
    | Stage(conversation: string, occurredAt: int)
    | Intake(conversation: string, occurredAt: int, execution: nat)
    | InsertRejected(conversation: string, occurredAt: int)
    | MarkRejected(id: nat)
    | Plan(conversation: string, execution: nat, force: bool, batch: seq<nat>)
    | MarkProcessed(id: nat, execution: nat)

  function Cutoff(config: Config, now: int): int {
    now - config.staleSeconds * MICROS
  }

  function Marked(row: Row, status: ForegroundStatus, at: int, execution: Option<nat>): Row {
    row.(status := status, lastProcessedAt := Some(at), execution := if execution.Some? then execution else row.execution)
  }

  function MarkAll(rows: seq<Row>, ids: seq<nat>, status: ForegroundStatus, at: int, execution: nat): seq<Row> {
    seq(|rows|, r requires 0 <= r < |rows| => if r in ids then Marked(rows[r], status, at, Some(execution)) else rows[r])
  }

  predicate WasGiven(handovers: seq<Handover>, execution: nat, id: nat) {
    exists k :: 0 <= k < |handovers| && handovers[k].execution == execution && id in handovers[k].ids
  }

  function Apply(config: Config, w: World, step: Step): World {
    match step
    case Tick(micros) => w.(now := w.now + micros)
    case Stage(conversation, occurredAt) =>
      w.(rows := w.rows + [Row(conversation, occurredAt, w.now, true, Pending, None, None)])
    case Intake(conversation, occurredAt, execution) =>
      w.(rows := w.rows + [Row(conversation, occurredAt, w.now, true, Processing, Some(w.now), Some(execution))],
         handovers := w.handovers + [Handover(w.now, execution, [|w.rows|])])
    case InsertRejected(conversation, occurredAt) =>
      w.(rows := w.rows + [Row(conversation, occurredAt, w.now, false, Pending, None, None)])
    case MarkRejected(id) =>
      if id < |w.rows| && !w.rows[id].accepted then w.(rows := w.rows[id := Marked(w.rows[id], Rejected, w.now, None)]) else w
    case Plan(conversation, execution, force, batch) =>
      if IsBatch(w.rows, conversation, Cutoff(config, w.now), config.maxBatch, batch) && batch != [] then
        var selected := Selected(config, w.rows, batch, w.now, force);
        w.(rows := MarkAll(w.rows, selected, Processing, w.now, execution),
           handovers := w.handovers + [Handover(w.now, execution, selected)])
      else w
    case MarkProcessed(id, execution) =>
      if id < |w.rows| && WasGiven(w.handovers, execution, id) then
        w.(rows := w.rows[id := Marked(w.rows[id], Processed, w.now, Some(execution))])
      else w
  }

  function After(config: Config, w: World, steps: seq<Step>): World {
    if steps == [] then w else Apply(config, After(config, w, steps[..|steps| - 1]), steps[|steps| - 1])
  }

  function Init(now: int): World {
    World(now, [], [])
  }

  // ----- The invariant ------------------------------------------------------------------------------------------

  /** A row that was handed over knows it, and was touched then or later. */
  predicate HandedOver(w: World, h: Handover, id: nat) {
    && id < |w.rows| && w.rows[id].accepted && !w.rows[id].status.Pending?
    && w.rows[id].lastProcessedAt.Some? && h.at <= w.rows[id].lastProcessedAt.value
  }

  predicate RowsOk(w: World) {
    && (forall r | 0 <= r < |w.rows| && w.rows[r].lastProcessedAt.Some? :: w.rows[r].lastProcessedAt.value <= w.now)
    && (forall r | 0 <= r < |w.rows| && w.rows[r].status.Rejected? :: !w.rows[r].accepted)
    && (forall k, id | 0 <= k < |w.handovers| && id in w.handovers[k].ids :: HandedOver(w, w.handovers[k], id))
  }

  predicate FarApart(config: Config, earlier: Handover, later: Handover) {
    forall id | id in earlier.ids && id in later.ids :: later.at - earlier.at >= config.staleSeconds * MICROS
  }

  predicate HandoversOk(config: Config, handovers: seq<Handover>) {
    forall k, l | 0 <= k < l < |handovers| :: FarApart(config, handovers[k], handovers[l])
  }

  predicate Inv(config: Config, w: World) {
    RowsOk(w) && HandoversOk(config, w.handovers)
  }

  lemma {:induction false} PlanKeepsRowsOk(config: Config, w: World, step: Step)
    requires RowsOk(w) && step.Plan?
    ensures RowsOk(Apply(config, w, step))
  {
  }

  lemma {:induction false} PlanKeepsHandoversOk(config: Config, w: World, step: Step)
    requires Inv(config, w) && step.Plan?
    ensures HandoversOk(config, Apply(config, w, step).handovers)
  {
    var w' := Apply(config, w, step);
    if w' != w {
      var n := |w.handovers|;
      forall k | 0 <= k < n ensures FarApart(config, w'.handovers[k], w'.handovers[n]) {
        forall id | id in w.handovers[k].ids && id in w'.handovers[n].ids
          ensures w.now - w.handovers[k].at >= config.staleSeconds * MICROS
        {
          assert HandedOver(w, w.handovers[k], id);
          var i :| 0 <= i < |step.batch| && step.batch[i] == id;
          assert Recoverable(w.rows, step.conversation, Cutoff(config, w.now), step.batch[i]);
        }
      }
    }
  }

  lemma {:induction false} OtherStepsKeepRowsOk(config: Config, w: World, step: Step)
    requires RowsOk(w) && !step.Plan?
    ensures RowsOk(Apply(config, w, step))
  {
    var w' := Apply(config, w, step);
    forall k, id | 0 <= k < |w'.handovers| && id in w'.handovers[k].ids ensures HandedOver(w', w'.handovers[k], id) {
      if k < |w.handovers| {
        assert HandedOver(w, w.handovers[k], id);
      }
    }
  }

  lemma {:induction false} OtherStepsKeepHandoversOk(config: Config, w: World, step: Step)
    requires Inv(config, w) && !step.Plan?
    ensures HandoversOk(config, Apply(config, w, step).handovers)
  {
    if step.Intake? {
      assert forall k, id | 0 <= k < |w.handovers| && id in w.handovers[k].ids :: HandedOver(w, w.handovers[k], id);
      assert forall k | 0 <= k < |w.handovers| :: |w.rows| !in w.handovers[k].ids;
    }
  }

  lemma {:induction false} ApplyKeepsInv(config: Config, w: World, step: Step)
    requires Inv(config, w)
    ensures Inv(config, Apply(config, w, step))
  {
    if step.Plan? {
      PlanKeepsRowsOk(config, w, step);
      PlanKeepsHandoversOk(config, w, step);
    } else {
      OtherStepsKeepRowsOk(config, w, step);
      OtherStepsKeepHandoversOk(config, w, step);
    }
  }

  lemma {:induction false} EveryRunKeepsInv(config: Config, start: int, steps: seq<Step>)
    ensures Inv(config, After(config, Init(start), steps))
  {
    if steps != [] {
      EveryRunKeepsInv(config, start, steps[..|steps| - 1]);
      ApplyKeepsInv(config, After(config, Init(start), steps[..|steps| - 1]), steps[|steps| - 1]);
    }
  }

  // ----- Exclusion --------------------------------------------------------------------------------------------------

  /** Two executions that are given the same row are given it at least the stale threshold apart. */
  lemma {:induction false} SameRowOnlyAfterItIsStale(config: Config, start: int, steps: seq<Step>, k: nat, l: nat, id: nat)
    requires k < l < |After(config, Init(start), steps).handovers|
    requires id in After(config, Init(start), steps).handovers[k].ids && id in After(config, Init(start), steps).handovers[l].ids
    ensures After(config, Init(start), steps).handovers[l].at - After(config, Init(start), steps).handovers[k].at
         >= config.staleSeconds * MICROS
  {
    EveryRunKeepsInv(config, start, steps);
    var handovers := After(config, Init(start), steps).handovers;
    assert FarApart(config, handovers[k], handovers[l]);
  }

  /** Processed, or never accepted. */
  predicate IsClosed(w: World, id: nat) {
    id < |w.rows| && (w.rows[id].status.Processed? || w.rows[id].status.Rejected? || !w.rows[id].accepted)
  }

  predicate NotGivenSince(handovers: seq<Handover>, from: nat, id: nat) {
    forall k | from <= k < |handovers| :: id !in handovers[k].ids
  }

  lemma {:induction false} StepLeavesClosed(config: Config, w: World, step: Step, id: nat)
    requires RowsOk(w) && IsClosed(w, id)
    ensures IsClosed(Apply(config, w, step), id)
    ensures |w.handovers| <= |Apply(config, w, step).handovers|
    ensures w.handovers == Apply(config, w, step).handovers[..|w.handovers|]
    ensures NotGivenSince(Apply(config, w, step).handovers, |w.handovers|, id)
  {
    if step.Plan? && Apply(config, w, step) != w {
      forall i | 0 <= i < |step.batch| ensures step.batch[i] != id {
        assert Recoverable(w.rows, step.conversation, Cutoff(config, w.now), step.batch[i]);
      }
    }
  }

  /** Once processed or rejected, a row is never given to an execution again. */
  lemma {:induction false} ClosedRowsAreNeverSelected(config: Config, w: World, more: seq<Step>, id: nat)
    requires Inv(config, w) && IsClosed(w, id)
    ensures IsClosed(After(config, w, more), id) && Inv(config, After(config, w, more))
    ensures NotGivenSince(After(config, w, more).handovers, |w.handovers|, id)
  {
    if more != [] {
      var before, last := more[..|more| - 1], more[|more| - 1];
      ClosedRowsAreNeverSelected(config, w, before, id);
      var w' := After(config, w, before);
      StepLeavesClosed(config, w', last, id);
      ApplyKeepsInv(config, w', last);
      forall k | |w.handovers| <= k < |Apply(config, w', last).handovers| ensures id !in Apply(config, w', last).handovers[k].ids {
        assert k < |w'.handovers| ==> Apply(config, w', last).handovers[k] == w'.handovers[k];
      }
    }
  }

  const GIVEN := Handover(0, 1, [0])

  /** A row is given to an execution, is reclaimed when it is stale, and the first execution finishes only then. */
  function Reclaim(config: Config): seq<Step> {
    [Stage("c", 0), Plan("c", 1, false, [0])] + [Tick(config.staleSeconds * MICROS), Plan("c", 2, false, [0])]
  }

  lemma {:induction false} FirstPlan(config: Config)
    ensures After(config, Init(0), [Stage("c", 0), Plan("c", 1, false, [0])])
         == World(0, [Row("c", 0, 0, true, Processing, Some(0), Some(1))], [GIVEN])
  {
    var w1 := World(0, [Row("c", 0, 0, true, Pending, None, None)], []);
    AfterTwo(config, Init(0), Stage("c", 0), Plan("c", 1, false, [0]));
    assert Apply(config, Init(0), Stage("c", 0)) == w1;
    SingleRowPlan(config, w1, "c", 1);
  }

  lemma {:induction false} SecondPlan(config: Config)
    ensures var late := config.staleSeconds * MICROS;
            After(config, Init(0), Reclaim(config))
            == World(late, [Row("c", 0, 0, true, Processing, Some(late), Some(2))], [GIVEN, Handover(late, 2, [0])])
  {
    var late := config.staleSeconds * MICROS;
    FirstPlan(config);
    AfterConcat(config, Init(0), [Stage("c", 0), Plan("c", 1, false, [0])], Tick(late), Plan("c", 2, false, [0]));
    var w3 := World(late, [Row("c", 0, 0, true, Processing, Some(0), Some(1))], [GIVEN]);
    SingleRowPlan(config, w3, "c", 2);
  }

  /** A worker that finishes late closes a row that another execution has reclaimed since. */
  lemma {:induction false} LateWorkerClosesReclaimedRow(config: Config)
    ensures var late := config.staleSeconds * MICROS;
            Apply(config, After(config, Init(0), Reclaim(config)), MarkProcessed(0, 1))
            == World(late, [Row("c", 0, 0, true, Processed, Some(late), Some(1))], [GIVEN, Handover(late, 2, [0])])
  {
    SecondPlan(config);
    var handovers := After(config, Init(0), Reclaim(config)).handovers;
    assert handovers[0].execution == 1 && 0 in handovers[0].ids;
  }

  lemma {:induction false} AfterTwo(config: Config, w: World, first: Step, second: Step)
    ensures After(config, w, [first, second]) == Apply(config, Apply(config, w, first), second)
  {
    AfterConcat(config, w, [], first, second);
    assert [] + [first, second] == [first, second];
  }

  lemma {:induction false} AfterConcat(config: Config, w: World, steps: seq<Step>, first: Step, second: Step)
    ensures After(config, w, steps + [first, second]) == Apply(config, Apply(config, After(config, w, steps), first), second)
  {
    var all := steps + [first, second];
    assert all[..|steps| + 1] == steps + [first];
    assert (steps + [first])[..|steps|] == steps;
  }

  lemma {:induction false} SingleRowPlan(config: Config, w: World, conversation: string, execution: nat)
    requires |w.rows| == 1 && Recoverable(w.rows, conversation, Cutoff(config, w.now), 0)
    ensures Apply(config, w, Plan(conversation, execution, false, [0]))
         == w.(rows := [Marked(w.rows[0], Processing, w.now, Some(execution))],
               handovers := w.handovers + [Handover(w.now, execution, [0])])
  {
    assert IsBatch(w.rows, conversation, Cutoff(config, w.now), config.maxBatch, [0]);
    assert Selected(config, w.rows, [0], w.now, false) == [0];
    assert MarkAll(w.rows, [0], Processing, w.now, execution) == [Marked(w.rows[0], Processing, w.now, Some(execution))];
  }

  predicate HeldLater(handovers: seq<Handover>, k: nat, id: nat) {
    exists l :: k < l < |handovers| && id in handovers[l].ids
  }

  /** A completion less than the stale threshold after the handover finds no later handover of the row. */
  lemma {:induction false} TimelyCompletionIsExclusive(config: Config, start: int, steps: seq<Step>, k: nat, id: nat)
    requires k < |After(config, Init(start), steps).handovers| && id in After(config, Init(start), steps).handovers[k].ids
    requires After(config, Init(start), steps).now - After(config, Init(start), steps).handovers[k].at
             < config.staleSeconds * MICROS
    ensures !HeldLater(After(config, Init(start), steps).handovers, k, id)
  {
    EveryRunKeepsInv(config, start, steps);
    var w := After(config, Init(start), steps);
    forall l | k < l < |w.handovers| ensures id !in w.handovers[l].ids {
      assert id in w.handovers[l].ids ==> HandedOver(w, w.handovers[l], id);
      assert FarApart(config, w.handovers[k], w.handovers[l]);
    }
  }

  /** At the threshold itself there can be one. */
  lemma {:induction false} ThresholdIsExact(config: Config)
    ensures var w := After(config, Init(0), Reclaim(config));
            && |w.handovers| == 2 && 0 in w.handovers[0].ids
            && w.now - w.handovers[0].at == config.staleSeconds * MICROS
            && HeldLater(w.handovers, 0, 0)
  {
    SecondPlan(config);
    var handovers := After(config, Init(0), Reclaim(config)).handovers;
    assert 0 in handovers[1].ids && 0 in handovers[0].ids;
  }

  predicate IsLastHolder(handovers: seq<Handover>, k: nat, id: nat) {
    k < |handovers| && id in handovers[k].ids && !HeldLater(handovers, k, id)
  }

  /** A row in processing carries the time and the execution of its last handover. */
  predicate StampOk(w: World, id: nat, k: nat)
    requires id < |w.rows|
  {
    && IsLastHolder(w.handovers, k, id)
    && w.rows[id].lastProcessedAt == Some(w.handovers[k].at)
    && w.rows[id].execution == Some(w.handovers[k].execution)
  }

  ghost predicate StampsOk(w: World) {
    forall r | 0 <= r < |w.rows| && w.rows[r].status.Processing? :: exists k: nat :: StampOk(w, r, k)
  }

  lemma {:induction false} StampStays(w: World, w': World, id: nat, k: nat)
    requires id < |w.rows| && StampOk(w, id, k)
    requires id < |w'.rows| && w'.rows[id] == w.rows[id] && w.handovers <= w'.handovers
    requires forall l | |w.handovers| <= l < |w'.handovers| :: id !in w'.handovers[l].ids
    ensures StampOk(w', id, k)
  {
  }

  lemma {:induction false} StampOfNewHandover(w: World, w': World, id: nat, h: Handover)
    requires id < |w'.rows| && w'.handovers == w.handovers + [h] && id in h.ids
    requires w'.rows[id].lastProcessedAt == Some(h.at) && w'.rows[id].execution == Some(h.execution)
    ensures StampOk(w', id, |w.handovers|)
  {
  }

  lemma {:induction false} PlanKeepsStampsOk(config: Config, w: World, step: Step)
    requires StampsOk(w) && step.Plan?
    ensures StampsOk(Apply(config, w, step))
  {
    var w' := Apply(config, w, step);
    if w' != w {
      var h := w'.handovers[|w.handovers|];
      forall r | 0 <= r < |w'.rows| && w'.rows[r].status.Processing? ensures exists k: nat :: StampOk(w', r, k) {
        if r in h.ids {
          StampOfNewHandover(w, w', r, h);
        } else {
          var k: nat :| StampOk(w, r, k);
          StampStays(w, w', r, k);
        }
      }
    }
  }

  lemma {:induction false} OtherStepsKeepStampsOk(config: Config, w: World, step: Step)
    requires StampsOk(w) && !step.Plan?
    ensures StampsOk(Apply(config, w, step))
  {
    var w' := Apply(config, w, step);
    forall r | 0 <= r < |w'.rows| && w'.rows[r].status.Processing? ensures exists k: nat :: StampOk(w', r, k) {
      if r < |w.rows| {
        var k: nat :| StampOk(w, r, k);
        StampStays(w, w', r, k);
      } else {
        StampOfNewHandover(w, w', r, Handover(w.now, step.execution, [r]));
      }
    }
  }

  lemma {:induction false} EveryRunKeepsStampsOk(config: Config, start: int, steps: seq<Step>)
    ensures StampsOk(After(config, Init(start), steps))
  {
    if steps != [] {
      EveryRunKeepsStampsOk(config, start, steps[..|steps| - 1]);
      if steps[|steps| - 1].Plan? {
        PlanKeepsStampsOk(config, After(config, Init(start), steps[..|steps| - 1]), steps[|steps| - 1]);
      } else {
        OtherStepsKeepStampsOk(config, After(config, Init(start), steps[..|steps| - 1]), steps[|steps| - 1]);
      }
    }
  }

  /**
   The row tells, before it is completed: a later execution holds a row in processing exactly when the
   row no longer carries the time of the handover to the one that completes it.
   */
  lemma {:induction false} HeldLaterIffStampMoved(config: Config, start: int, steps: seq<Step>, k: nat, id: nat)
    requires k < |After(config, Init(start), steps).handovers| && id in After(config, Init(start), steps).handovers[k].ids
    requires id < |After(config, Init(start), steps).rows| && After(config, Init(start), steps).rows[id].status.Processing?
    ensures HeldLater(After(config, Init(start), steps).handovers, k, id)
            <==> After(config, Init(start), steps).rows[id].lastProcessedAt
                 != Some(After(config, Init(start), steps).handovers[k].at)
  {
    EveryRunKeepsInv(config, start, steps);
    EveryRunKeepsStampsOk(config, start, steps);
    var w := After(config, Init(start), steps);
    var last: nat :| StampOk(w, id, last);
    assert last >= k;
    if last > k {
      assert FarApart(config, w.handovers[k], w.handovers[last]);
      assert HeldLater(w.handovers, k, id);
    }
  }

  // ----- What rows say about their message -----------------------------------------------------------------------------

  predicate SameMessage(row: Row, row': Row) {
    && row'.conversation == row.conversation && row'.accepted == row.accepted
    && row'.occurredAt == row.occurredAt && row'.receivedAt == row.receivedAt
  }

  /** The row of a message that comes in with this step. */
  predicate IsArrival(step: Step, now: int, row: Row) {
    row.receivedAt == now
    && match step
       case Stage(conversation, occurredAt) => row.conversation == conversation && row.occurredAt == occurredAt && row.accepted
       case Intake(conversation, occurredAt, _) => row.conversation == conversation && row.occurredAt == occurredAt && row.accepted
       case InsertRejected(conversation, occurredAt) => row.conversation == conversation && row.occurredAt == occurredAt && !row.accepted
       case _ => false
  }

  lemma {:induction false} StepKeepsMessages(config: Config, w: World, step: Step)
    ensures |w.rows| <= |Apply(config, w, step).rows|
    ensures forall r | 0 <= r < |w.rows| :: SameMessage(w.rows[r], Apply(config, w, step).rows[r])
    ensures forall r | |w.rows| <= r < |Apply(config, w, step).rows| :: IsArrival(step, w.now, Apply(config, w, step).rows[r])
  {
  }

  lemma {:induction false} RunsKeepMessages(config: Config, w: World, more: seq<Step>)
    ensures |w.rows| <= |After(config, w, more).rows|
    ensures forall r | 0 <= r < |w.rows| :: SameMessage(w.rows[r], After(config, w, more).rows[r])
  {
    if more != [] {
      RunsKeepMessages(config, w, more[..|more| - 1]);
      StepKeepsMessages(config, After(config, w, more[..|more| - 1]), more[|more| - 1]);
    }
  }

  /** Whatever follows, a row says when its message arrived and occurred, in which conversation, and if it was accepted. */
  lemma {:induction false} RowsTellTheirArrival(config: Config, w: World, step: Step, more: seq<Step>, r: nat)
    requires |w.rows| <= r < |Apply(config, w, step).rows|
    ensures r < |After(config, Apply(config, w, step), more).rows|
    ensures IsArrival(step, w.now, After(config, Apply(config, w, step), more).rows[r])
  {
    StepKeepsMessages(config, w, step);
    RunsKeepMessages(config, Apply(config, w, step), more);
  }

  // ----- Draining a backlog -----------------------------------------------------------------------------------------------

  predicate IsWaiting(rows: seq<Row>, conversation: string, id: nat) {
    id < |rows| && rows[id].conversation == conversation && rows[id].accepted && rows[id].status.Pending?
  }

  predicate NothingProcessing(rows: seq<Row>, conversation: string) {
    forall r | 0 <= r < |rows| && rows[r].conversation == conversation && rows[r].accepted :: !rows[r].status.Processing?
  }

  /** One round: some time passes, one plan is made from what the selection returns, and its rows are completed. */
  datatype DrainRound = DrainRound(wait: nat, force: bool, batch: seq<nat>, execution: nat)

  function CompleteAll(config: Config, w: World, ids: seq<nat>, execution: nat): World {
    if ids == [] then w
    else Apply(config, CompleteAll(config, w, ids[..|ids| - 1], execution), MarkProcessed(ids[|ids| - 1], execution))
  }

  function Planned(config: Config, w: World, conversation: string, round: DrainRound): World {
    Apply(config, Apply(config, w, Tick(round.wait)), Plan(conversation, round.execution, round.force, round.batch))
  }

  predicate IsRound(config: Config, w: World, conversation: string, round: DrainRound) {
    IsBatch(w.rows, conversation, Cutoff(config, w.now + round.wait), config.maxBatch, round.batch)
  }

  function RoundSelection(config: Config, w: World, conversation: string, round: DrainRound): seq<nat>
    requires IsRound(config, w, conversation, round)
  {
    Selected(config, w.rows, round.batch, w.now + round.wait, round.force)
  }

  function OneRound(config: Config, w: World, conversation: string, round: DrainRound): World
    requires IsRound(config, w, conversation, round)
  {
    CompleteAll(config, Planned(config, w, conversation, round), RoundSelection(config, w, conversation, round), round.execution)
  }

  predicate AreRounds(config: Config, w: World, conversation: string, rounds: seq<DrainRound>)
    decreases |rounds|
  {
    rounds == [] || (IsRound(config, w, conversation, rounds[0])
                     && AreRounds(config, OneRound(config, w, conversation, rounds[0]), conversation, rounds[1..]))
  }

  function AfterRounds(config: Config, w: World, conversation: string, rounds: seq<DrainRound>): World
    requires AreRounds(config, w, conversation, rounds)
    decreases |rounds|
  {
    if rounds == [] then w
    else AfterRounds(config, OneRound(config, w, conversation, rounds[0]), conversation, rounds[1..])
  }

  /** What the executions of these rounds are given, in order. */
  function Delivered(config: Config, w: World, conversation: string, rounds: seq<DrainRound>): seq<nat>
    requires AreRounds(config, w, conversation, rounds)
    decreases |rounds|
  {
    if rounds == [] then []
    else
      var later := Delivered(config, OneRound(config, w, conversation, rounds[0]), conversation, rounds[1..]);
      RoundSelection(config, w, conversation, rounds[0]) + later
  }

  /** Rows keep everything but their progress. */
  predicate SameMessages(rows: seq<Row>, rows': seq<Row>) {
    && |rows'| == |rows|
    && forall r | 0 <= r < |rows| :: SameMessage(rows[r], rows'[r])
  }

  /** Exactly these rows have been processed. */
  predicate Closes(rows: seq<Row>, rows': seq<Row>, ids: seq<nat>) {
    && SameMessages(rows, rows')
    && forall r | 0 <= r < |rows| :: if r in ids then rows'[r].status.Processed? else rows'[r].status == rows[r].status
  }

  lemma {:induction false} CompletionCloses(config: Config, w: World, ids: seq<nat>, execution: nat)
    requires forall i | 0 <= i < |ids| :: ids[i] < |w.rows| && WasGiven(w.handovers, execution, ids[i])
    ensures Closes(w.rows, CompleteAll(config, w, ids, execution).rows, ids)
    ensures CompleteAll(config, w, ids, execution).handovers == w.handovers
  {
    if ids != [] {
      var n := |ids| - 1;
      CompletionCloses(config, w, ids[..n], execution);
      InitAndLast(ids);
      assert forall r :: r in ids <==> r in ids[..n] || r == ids[n];
    }
  }

  lemma {:induction false} PlanGivesSelection(config: Config, w: World, conversation: string, round: DrainRound)
    requires IsRound(config, w, conversation, round)
    ensures var ids := RoundSelection(config, w, conversation, round);
            var planned := Planned(config, w, conversation, round);
            && SameMessages(w.rows, planned.rows)
            && (forall r | 0 <= r < |w.rows| && r !in ids :: planned.rows[r] == w.rows[r])
            && (forall i | 0 <= i < |ids| :: ids[i] < |w.rows| && WasGiven(planned.handovers, round.execution, ids[i]))
  {
    var planned, ids := Planned(config, w, conversation, round), RoundSelection(config, w, conversation, round);
    if round.batch != [] {
      var n := |w.handovers|;
      assert planned.handovers[n] == Handover(w.now + round.wait, round.execution, ids);
      forall i | 0 <= i < |ids| ensures ids[i] < |w.rows| && WasGiven(planned.handovers, round.execution, ids[i]) {
        assert ids[i] == round.batch[i];
        assert planned.handovers[n].execution == round.execution && ids[i] in planned.handovers[n].ids;
      }
    }
  }

  lemma {:induction false} RoundCloses(config: Config, w: World, conversation: string, round: DrainRound)
    requires IsRound(config, w, conversation, round)
    ensures Closes(w.rows, OneRound(config, w, conversation, round).rows, RoundSelection(config, w, conversation, round))
  {
    PlanGivesSelection(config, w, conversation, round);
    var ids := RoundSelection(config, w, conversation, round);
    CompletionCloses(config, Planned(config, w, conversation, round), ids, round.execution);
  }

  /** A plan with nothing else in processing takes waiting rows only, and takes some while there are any. */
  lemma {:induction false} SelectionIsWaiting(config: Config, w: World, conversation: string, round: DrainRound)
    requires IsRound(config, w, conversation, round) && NothingProcessing(w.rows, conversation)
    ensures AreIds(w.rows, RoundSelection(config, w, conversation, round))
    ensures InOrder(w.rows, RoundSelection(config, w, conversation, round))
    ensures forall i | 0 <= i < |RoundSelection(config, w, conversation, round)| ::
              IsWaiting(w.rows, conversation, RoundSelection(config, w, conversation, round)[i])
    ensures forall r | 0 <= r < |w.rows| && IsWaiting(w.rows, conversation, r) :: RoundSelection(config, w, conversation, round) != []
  {
    var ids := RoundSelection(config, w, conversation, round);
    var cutoff := Cutoff(config, w.now + round.wait);
    forall i | 0 <= i < |ids| ensures IsWaiting(w.rows, conversation, ids[i]) {
      assert ids[i] == round.batch[i] && Recoverable(w.rows, conversation, cutoff, round.batch[i]);
    }
    forall r | 0 <= r < |w.rows| && IsWaiting(w.rows, conversation, r) ensures round.batch != [] {
      assert Recoverable(w.rows, conversation, cutoff, r);
    }
  }

  predicate Precedes(rows: seq<Row>, conversation: string, ids: seq<nat>)
    requires AreIds(rows, ids)
  {
    forall i, r | 0 <= i < |ids| && 0 <= r < |rows| && IsWaiting(rows, conversation, r) && r !in ids ::
      NotAfter(rows[ids[i]], rows[r])
  }

  lemma {:induction false} SelectionPrecedes(config: Config, w: World, conversation: string, round: DrainRound)
    requires IsRound(config, w, conversation, round) && NothingProcessing(w.rows, conversation)
    ensures AreIds(w.rows, RoundSelection(config, w, conversation, round))
    ensures Precedes(w.rows, conversation, RoundSelection(config, w, conversation, round))
  {
    var ids, batch := RoundSelection(config, w, conversation, round), round.batch;
    var cutoff := Cutoff(config, w.now + round.wait);
    SelectionIsWaiting(config, w, conversation, round);
    forall i, r | 0 <= i < |ids| && 0 <= r < |w.rows| && IsWaiting(w.rows, conversation, r) && r !in ids
      ensures NotAfter(w.rows[ids[i]], w.rows[r])
    {
      assert ids[i] == batch[i];
      assert Recoverable(w.rows, conversation, cutoff, r);
      if r in batch {
        var j :| 0 <= j < |batch| && batch[j] == r;
        assert j >= |ids|;
      }
    }
  }

  lemma {:induction false} RoundLeavesTheRest(config: Config, w: World, conversation: string, round: DrainRound)
    requires IsRound(config, w, conversation, round) && NothingProcessing(w.rows, conversation)
    ensures var w' := OneRound(config, w, conversation, round);
            && SameMessages(w.rows, w'.rows) && NothingProcessing(w'.rows, conversation)
            && forall r | 0 <= r < |w.rows| ::
                 IsWaiting(w'.rows, conversation, r)
                 <==> IsWaiting(w.rows, conversation, r) && r !in RoundSelection(config, w, conversation, round)
  {
    RoundCloses(config, w, conversation, round);
  }

  predicate DrainOk(rows: seq<Row>, rows': seq<Row>, conversation: string, delivered: seq<nat>) {
    && SameMessages(rows, rows') && NothingProcessing(rows', conversation)
    && AreIds(rows, delivered) && InOrder(rows, delivered)
    && (forall i | 0 <= i < |delivered| :: IsWaiting(rows, conversation, delivered[i]))
    && (forall r | 0 <= r < |rows| :: IsWaiting(rows', conversation, r) <==> IsWaiting(rows, conversation, r) && r !in delivered)
    && Precedes(rows, conversation, delivered)
  }

  /** First these, then what a drain of the rest delivers. */
  lemma {:induction false} DrainsCompose(
    rows: seq<Row>, mid: seq<Row>, rows': seq<Row>, conversation: string, first: seq<nat>, rest: seq<nat>)
    requires DrainOk(rows, mid, conversation, first) && DrainOk(mid, rows', conversation, rest)
    ensures DrainOk(rows, rows', conversation, first + rest)
  {
    var all := first + rest;
    forall i | 0 <= i < |all| ensures IsWaiting(rows, conversation, all[i]) {
      if i >= |first| {
        assert all[i] == rest[i - |first|];
        assert IsWaiting(mid, conversation, rest[i - |first|]);
      }
    }
    DrainsComposeInOrder(rows, mid, conversation, first, rest);
    forall r | 0 <= r < |rows| ensures IsWaiting(rows', conversation, r) <==> IsWaiting(rows, conversation, r) && r !in all {
      assert r in all <==> r in first || r in rest;
    }
    forall i, r | 0 <= i < |all| && 0 <= r < |rows| && IsWaiting(rows, conversation, r) && r !in all
      ensures NotAfter(rows[all[i]], rows[r])
    {
      assert r !in first && r !in rest;
      assert IsWaiting(mid, conversation, r);
      if i >= |first| {
        assert all[i] == rest[i - |first|];
        assert NotAfter(mid[rest[i - |first|]], mid[r]);
      }
    }
  }

  lemma {:induction false} DrainsComposeInOrder(rows: seq<Row>, mid: seq<Row>, conversation: string, first: seq<nat>, rest: seq<nat>)
    requires DrainOk(rows, mid, conversation, first)
    requires AreIds(mid, rest) && InOrder(mid, rest) && forall i | 0 <= i < |rest| :: IsWaiting(mid, conversation, rest[i])
    ensures AreIds(rows, first + rest) && InOrder(rows, first + rest)
  {
    var all := first + rest;
    forall i, j | 0 <= i < j < |all| ensures all[i] != all[j] && NotAfter(rows[all[i]], rows[all[j]]) {
      if j >= |first| {
        var r := rest[j - |first|];
        assert IsWaiting(mid, conversation, r);
        if i < |first| {
          assert IsWaiting(rows, conversation, r) && r !in first;
          assert first[i] in first;
        } else {
          assert NotAfter(mid[rest[i - |first|]], mid[r]);
        }
      }
    }
  }

  /**
   Without arrivals and with nothing else in processing, planning and completing again and again
   delivers waiting rows in order, none twice, and always those that come first.
   */
  lemma {:induction false} DrainDeliversInOrder(config: Config, w: World, conversation: string, rounds: seq<DrainRound>)
    requires AreRounds(config, w, conversation, rounds) && NothingProcessing(w.rows, conversation)
    ensures DrainOk(w.rows, AfterRounds(config, w, conversation, rounds).rows, conversation,
                    Delivered(config, w, conversation, rounds))
    decreases |rounds|
  {
    if rounds != [] {
      var mid := OneRound(config, w, conversation, rounds[0]);
      SelectionIsWaiting(config, w, conversation, rounds[0]);
      SelectionPrecedes(config, w, conversation, rounds[0]);
      RoundLeavesTheRest(config, w, conversation, rounds[0]);
      DrainDeliversInOrder(config, mid, conversation, rounds[1..]);
      DrainsCompose(w.rows, mid.rows, AfterRounds(config, w, conversation, rounds).rows, conversation,
                    RoundSelection(config, w, conversation, rounds[0]), Delivered(config, mid, conversation, rounds[1..]));
    }
  }

  function WaitingIds(rows: seq<Row>, conversation: string): set<nat> {
    set r: nat | 0 <= r < |rows| && IsWaiting(rows, conversation, r)
  }

  predicate IsListed(rows: seq<Row>, conversation: string, cutoff: int) {
    exists r :: 0 <= r < |rows| && Recoverable(rows, conversation, cutoff, r)
  }

  /** As many rounds as rows are waiting deliver all of them; the conversation is not listed as recoverable any more. */
  lemma {:induction false} DrainFinishes(config: Config, w: World, conversation: string, rounds: seq<DrainRound>, cutoff: int)
    requires AreRounds(config, w, conversation, rounds) && NothingProcessing(w.rows, conversation)
    requires |rounds| >= |WaitingIds(w.rows, conversation)|
    ensures forall r | r in WaitingIds(w.rows, conversation) :: r in Delivered(config, w, conversation, rounds)
    ensures !IsListed(AfterRounds(config, w, conversation, rounds).rows, conversation, cutoff)
    decreases |rounds|
  {
    if WaitingIds(w.rows, conversation) == {} {
      DrainDeliversInOrder(config, w, conversation, rounds);
      forall r | 0 <= r < |w.rows|
        ensures !Recoverable(AfterRounds(config, w, conversation, rounds).rows, conversation, cutoff, r)
      {
        assert r !in WaitingIds(w.rows, conversation);
        assert !IsWaiting(w.rows, conversation, r);
      }
    } else {
      var mid := OneRound(config, w, conversation, rounds[0]);
      RoundShrinksWaiting(config, w, conversation, rounds[0]);
      RoundLeavesTheRest(config, w, conversation, rounds[0]);
      DrainFinishes(config, mid, conversation, rounds[1..], cutoff);
      forall r | r in WaitingIds(w.rows, conversation) ensures r in Delivered(config, w, conversation, rounds) {
        assert r in RoundSelection(config, w, conversation, rounds[0]) || r in WaitingIds(mid.rows, conversation);
      }
    }
  }

  lemma {:induction false} RoundShrinksWaiting(config: Config, w: World, conversation: string, round: DrainRound)
    requires IsRound(config, w, conversation, round) && NothingProcessing(w.rows, conversation)
    requires WaitingIds(w.rows, conversation) != {}
    ensures |WaitingIds(OneRound(config, w, conversation, round).rows, conversation)| < |WaitingIds(w.rows, conversation)|
  {
    var before, after := WaitingIds(w.rows, conversation), WaitingIds(OneRound(config, w, conversation, round).rows, conversation);
    var ids := RoundSelection(config, w, conversation, round);
    SelectionIsWaiting(config, w, conversation, round);
    RoundLeavesTheRest(config, w, conversation, round);
    var r :| r in before;
    assert IsWaiting(w.rows, conversation, ids[0]) && ids[0] in ids;
    assert after <= before - {ids[0]};
    SubsetIsNoLarger(after, before - {ids[0]});
  }

  lemma {:induction false} SubsetIsNoLarger(a: set<nat>, b: set<nat>)
    requires a <= b
    ensures |a| <= |b|
  {
    assert b == a + (b - a);
  }

  // ----- The table as the program updates it ----------------------------------------------------------------------------------

  /** The first recoverable row from `from` on that is not taken, by occurrence, arrival and number. */
  function FirstRecoverable(rows: seq<Row>, conversation: string, cutoff: int, taken: seq<nat>, from: nat): (r: Option<nat>)
    requires from <= |rows|
    ensures r.Some? ==> from <= r.value && Recoverable(rows, conversation, cutoff, r.value) && r.value !in taken
    ensures forall j | from <= j < |rows| && Recoverable(rows, conversation, cutoff, j) && j !in taken ::
              r.Some? && NotAfter(rows[r.value], rows[j])
    decreases |rows| - from
  {
    if from == |rows| then None
    else
      var later := FirstRecoverable(rows, conversation, cutoff, taken, from + 1);
      if Recoverable(rows, conversation, cutoff, from) && from !in taken
         && (later.None? || NotAfter(rows[from], rows[later.value]))
      then Some(from)
      else later
  }

  /** A batch under construction. */
  predicate IsPartialBatch(rows: seq<Row>, conversation: string, cutoff: int, ids: seq<nat>) {
    && (forall i | 0 <= i < |ids| :: Recoverable(rows, conversation, cutoff, ids[i]))
    && InOrder(rows, ids)
    && ComesFirst(rows, conversation, cutoff, ids)
  }

  lemma {:induction false} ExtendedBatch(rows: seq<Row>, conversation: string, cutoff: int, ids: seq<nat>, next: nat)
    requires IsPartialBatch(rows, conversation, cutoff, ids)
    requires FirstRecoverable(rows, conversation, cutoff, ids, 0) == Some(next)
    ensures IsPartialBatch(rows, conversation, cutoff, ids + [next])
  {
    var all := ids + [next];
    forall i, r | 0 <= i < |all| && 0 <= r < |rows| && Recoverable(rows, conversation, cutoff, r) && r !in all
      ensures NotAfter(rows[all[i]], rows[r])
    {
      assert r !in ids;
    }
    forall i | 0 <= i < |ids| ensures NotAfter(rows[ids[i]], rows[next]) && ids[i] != next {
      assert ids[i] in ids;
    }
  }

  datatype ExecutionPlan = ExecutionPlan(mode: Mode, primary: nat, interrupted: Option<nat>, ordered: seq<nat>, reason: Reason)

  /** The execution of the first selected row that is in processing. */
  function Interrupted(rows: seq<Row>, ids: seq<nat>): Option<nat>
    requires AreIds(rows, ids)
  {
    if ids == [] then None
    else if rows[ids[0]].status.Processing? then rows[ids[0]].execution
    else Interrupted(rows, ids[1..])
  }

  predicate IsResumed(rows: seq<Row>, ids: seq<nat>, k: nat)
    requires AreIds(rows, ids) && k < |ids|
  {
    rows[ids[k]].status.Processing? && forall i | 0 <= i < k :: !rows[ids[i]].status.Processing?
  }

  /** The interrupted execution is that of the first row in processing, where there is one. */
  predicate IsInterrupted(rows: seq<Row>, ids: seq<nat>, interrupted: Option<nat>)
    requires AreIds(rows, ids)
  {
    && (!ResumesProcessing(rows, ids) ==> interrupted.None?)
    && (forall k | 0 <= k < |ids| && IsResumed(rows, ids, k) :: interrupted == rows[ids[k]].execution)
  }

  lemma {:induction false} InterruptedIsFirst(rows: seq<Row>, ids: seq<nat>)
    requires AreIds(rows, ids)
    ensures IsInterrupted(rows, ids, Interrupted(rows, ids))
  {
    if ids != [] {
      var rest := ids[1..];
      InterruptedIsFirst(rows, rest);
      if ResumesProcessing(rows, rest) {
        var i :| 0 <= i < |rest| && rows[rest[i]].status.Processing?;
        assert rows[ids[i + 1]].status.Processing?;
      }
      if !rows[ids[0]].status.Processing? {
        forall k | 0 <= k < |ids| && IsResumed(rows, ids, k) ensures IsResumed(rows, rest, k - 1) && rest[k - 1] == ids[k] {
          assert forall i | 0 <= i < k - 1 :: rest[i] == ids[i + 1];
        }
        assert ResumesProcessing(rows, ids) ==> ResumesProcessing(rows, rest) by {
          if i :| 0 <= i < |ids| && rows[ids[i]].status.Processing? { assert rest[i - 1] == ids[i]; }
        }
      }
    }
  }

  lemma {:induction false} BatchIsEmptyIffUnlisted(rows: seq<Row>, conversation: string, cutoff: int, limit: nat, batch: seq<nat>)
    requires IsBatch(rows, conversation, cutoff, limit, batch) && limit > 0
    ensures AreIds(rows, batch)
    ensures batch == [] <==> !IsListed(rows, conversation, cutoff)
  {
    if batch != [] {
      assert Recoverable(rows, conversation, cutoff, batch[0]);
    }
  }

  lemma {:induction false} PlanMarksSelected(
    config: Config, rows: seq<Row>, conversation: string, execution: nat, force: bool, batch: seq<nat>, now: int)
    requires IsBatch(rows, conversation, Cutoff(config, now), config.maxBatch, batch) && batch != []
    ensures Apply(config, World(now, rows, []), Plan(conversation, execution, force, batch)).rows
         == MarkAll(rows, Selected(config, rows, batch, now, force), Processing, now, execution)
  {
  }

  /**
   What a planning transaction reports about a non-empty batch: a backlog whole, with its last row as the primary
   one, or else the first row alone; why; and which execution it takes over from.
   */
  predicate IsPlanFor(config: Config, rows: seq<Row>, batch: seq<nat>, now: int, force: bool, plan: ExecutionPlan) {
    && AreIds(rows, batch) && batch != []
    && var backlog := IsBacklog(config, rows, batch, now, force);
       && (plan.mode.BacklogRecovery? <==> backlog)
       && plan.ordered == (if backlog then batch else [batch[0]])
       && plan.primary == (if backlog then batch[|batch| - 1] else batch[0])
       && IsReason(config, rows, batch, now, force, plan.reason)
       && IsInterrupted(rows, plan.ordered, plan.interrupted)
  }

  /** These rows were given to the execution now; all others are as they were. */
  predicate TakesExactly(rows: seq<Row>, rows': seq<Row>, ids: seq<nat>, execution: nat, now: int) {
    && |rows'| == |rows|
    && forall r | 0 <= r < |rows| ::
         rows'[r] == if r in ids then rows[r].(status := Processing, lastProcessedAt := Some(now), execution := Some(execution))
                     else rows[r]
  }

  class IngressEvents {
    var rows: seq<Row>

    constructor ()
      ensures rows == []
    {
      rows := [];
    }

    method ListRecoverable(conversation: string, cutoff: int, limit: nat) returns (ids: seq<nat>)
      ensures IsBatch(rows, conversation, cutoff, limit, ids)
    {
      ids := [];
      while |ids| < limit
        invariant |ids| <= limit && IsPartialBatch(rows, conversation, cutoff, ids)
      {
        var next := FirstRecoverable(rows, conversation, cutoff, ids, 0);
        if next.None? {
          return;
        }
        ExtendedBatch(rows, conversation, cutoff, ids, next.value);
        ids := ids + [next.value];
      }
    }

    method SetForegroundState(id: nat, execution: Option<nat>, status: ForegroundStatus, now: int)
      requires id < |rows|
      modifies this
      ensures rows == old(rows)[id := Marked(old(rows)[id], status, now, execution)]
    {
      rows := rows[id := rows[id].(
        execution := if execution.Some? then execution else rows[id].execution,
        status := status,
        lastProcessedAt := Some(now))];
    }

    method DecidePlan(config: Config, batch: seq<nat>, force: bool, now: int) returns (plan: ExecutionPlan)
      requires AreIds(rows, batch) && batch != []
      ensures IsPlanFor(config, rows, batch, now, force, plan)
    {
      var reason := Decide(config, rows, batch, now, force);
      BacklogIff(config, rows, batch, now, force);
      InterruptedIsFirst(rows, [batch[0]]);
      InterruptedIsFirst(rows, batch);
      match ModeOf(reason)
      case SingleIngress =>
        plan := ExecutionPlan(SingleIngress, batch[0], Interrupted(rows, [batch[0]]), [batch[0]], reason);
      case BacklogRecovery =>
        plan := ExecutionPlan(BacklogRecovery, batch[|batch| - 1], Interrupted(rows, batch), batch, reason);
    }

    method MarkAllProcessing(ids: seq<nat>, execution: nat, now: int)
      requires AreIds(rows, ids)
      modifies this
      ensures rows == MarkAll(old(rows), ids, Processing, now, execution)
    {
      for i := 0 to |ids|
        invariant rows == MarkAll(old(rows), ids[..i], Processing, now, execution)
      {
        SetForegroundState(ids[i], Some(execution), Processing, now);
        MarkedOnceMore(old(rows), ids, i, Processing, now, execution);
      }
      assert ids[..|ids|] == ids;
    }

    /** One planning transaction: a step of the model with the batch that was listed. */
    method PlanPendingForegroundExecution(config: Config, conversation: string, execution: nat, force: bool, now: int)
      returns (plan: Option<ExecutionPlan>, ghost batch: seq<nat>)
      modifies this
      ensures IsBatch(old(rows), conversation, Cutoff(config, now), config.maxBatch, batch)
      ensures rows == Apply(config, World(now, old(rows), []), Plan(conversation, execution, force, batch)).rows
      ensures plan.None? <==> !IsListed(old(rows), conversation, Cutoff(config, now))
      ensures plan.Some? ==>
                && IsPlanFor(config, old(rows), batch, now, force, plan.value)
                && TakesExactly(old(rows), rows, plan.value.ordered, execution, now)
    {
      var pending := ListRecoverable(conversation, Cutoff(config, now), config.maxBatch);
      batch := pending;
      BatchIsEmptyIffUnlisted(rows, conversation, Cutoff(config, now), config.maxBatch, batch);
      if pending == [] {
        return None, batch;
      }
      PlanMarksSelected(config, rows, conversation, execution, force, batch, now);
      BacklogIsTakenWhole(config, rows, batch, now, force);
      var decided := DecidePlan(config, pending, force, now);
      plan := Some(decided);
      MarkAllProcessing(decided.ordered, execution, now);
    }

    /** The statements that complete an execution, one row after the other. */
    method MarkIngressEventsProcessed(ids: seq<nat>, execution: nat, now: int)
      requires AreIds(rows, ids)
      modifies this
      ensures rows == MarkAll(old(rows), ids, Processed, now, execution)
    {
      for i := 0 to |ids|
        invariant rows == MarkAll(old(rows), ids[..i], Processed, now, execution)
      {
        SetForegroundState(ids[i], Some(execution), Processed, now);
        MarkedOnceMore(old(rows), ids, i, Processed, now, execution);
      }
      assert ids[..|ids|] == ids;
    }
  }

  lemma {:induction false} MarkedOnceMore(rows: seq<Row>, ids: seq<nat>, i: nat, status: ForegroundStatus, at: int, execution: nat)
    requires i < |ids| && AreIds(rows, ids)
    ensures var before := MarkAll(rows, ids[..i], status, at, execution);
            MarkAll(rows, ids[..i + 1], status, at, execution)
            == before[ids[i] := Marked(before[ids[i]], status, at, Some(execution))]
  {
    assert ids[..i + 1] == ids[..i] + [ids[i]];
  }
}
