/**
 The bounded loop of a conscious turn: a worker pass proposes actions, the proposals are planned,
 run, blocked or routed to approval under a cap, and the pass repeats with what was observed.

 What workers, planning, routing and execution answer is arbitrary: a proposal carries the answers
 it is going to meet, and the worker is any function of the pass number and its context.
 */
module TurnLoop {
  import opened Text
  import opened ActionCap

  const U32_MAX := 0xFFFF_FFFF

  type u32 = x: int | 0 <= x <= U32_MAX

  function SaturatingAdd(a: u32, b: u32): u32 {
    if a + b <= U32_MAX then a + b else U32_MAX
  }

  function SaturatingSub(a: u32, b: u32): u32 {
    if a >= b then a - b else 0
  }

  datatype Config = Config(maxActions: u32, behavior: CapBehavior)

  datatype Planning = PlanError | PlanBlocked | Planned(needsApproval: bool)

  /**
   How an execution ends: with an error, before or after its start was recorded; stopped by the
   policy check, before that; blocked by its backend, after it; or done.
   */
  datatype ExecutionAnswer = ExecutionError(started: bool) | StoppedByPolicy | StartedThenBlocked | RanExecuted | RanFailed

  datatype Proposal = Proposal(
    id: nat,
    planning: Planning,
    capWritesFail: bool,       // the writes made because the cap is reached
    routingFails: bool,
    execution: ExecutionAnswer)

  datatype ObservedStatus = Blocked | Executed | Failed

  datatype Observation = Observation(proposal: nat, status: ObservedStatus)

  datatype Summary = Summary(
    observations: seq<Observation>,
    proposed: nat,
    executed: nat,
    blocked: nat,
    pendingApproval: nat,
    limitReached: bool)
  {
    function Merge(other: Summary): Summary {
      Summary(observations + other.observations, proposed + other.proposed, executed + other.executed,
              blocked + other.blocked, pendingApproval + other.pendingApproval, limitReached || other.limitReached)
    }

    /** Every proposal is accounted for once, and every one that is not pending was observed. */
    predicate Balanced() {
      proposed == executed + blocked + pendingApproval && |observations| == executed + blocked
    }
  }

  const NO_SUMMARY := Summary([], 0, 0, 0, 0, false)

  // ----- One round of proposals ------------------------------------------------------------------------

  /** The tracker, the summary so far, and the proposals whose execution was asked for or that were routed. */
  datatype Round = Round(count: u32, summary: Summary, ran: seq<Proposal>, routed: seq<Proposal>, failed: bool)

  function RemainingBeforeCap(config: Config, count: u32): u32 {
    SaturatingSub(config.maxActions, count)
  }

  predicate IsAtCap(config: Config, count: u32) {
    RemainingBeforeCap(config, count) == 0
  }

  predicate WritesAtCap(config: Config, p: Proposal) {
    p.planning.Planned? && !(config.behavior.Escalate? && p.planning.needsApproval)
  }

  function Observed(s: Summary, p: Proposal, status: ObservedStatus): Summary {
    s.(observations := s.observations + [Observation(p.id, status)],
       blocked := if status.Blocked? then s.blocked + 1 else s.blocked,
       executed := if status.Blocked? then s.executed else s.executed + 1)
  }

  function Execute(r: Round, p: Proposal): Round {
    var asked := r.(ran := r.ran + [p]);
    match p.execution
    case ExecutionError(_) => asked.(failed := true)
    case StoppedByPolicy => asked.(summary := Observed(r.summary, p, Blocked))
    case StartedThenBlocked => asked.(summary := Observed(r.summary, p, Blocked))
    case RanExecuted => asked.(summary := Observed(r.summary, p, Executed), count := SaturatingAdd(r.count, 1))
    case RanFailed => asked.(summary := Observed(r.summary, p, Failed), count := SaturatingAdd(r.count, 1))
  }

  function Route(r: Round, p: Proposal): Round {
    if p.routingFails then r.(failed := true)
    else r.(summary := r.summary.(pendingApproval := r.summary.pendingApproval + 1), routed := r.routed + [p])
  }

  function ProcessOne(config: Config, r: Round, p: Proposal): Round {
    match p.planning
    case PlanError => r.(failed := true)
    case PlanBlocked => r.(summary := Observed(r.summary, p, Blocked))
    case Planned(needsApproval) =>
      var atCap := IsAtCap(config, r.count);
      if atCap && WritesAtCap(config, p) && p.capWritesFail then r.(failed := true)
      else if atCap && config.behavior.AlwaysDeny? then
        r.(summary := Observed(r.summary, p, Blocked).(limitReached := true))
      else if needsApproval || (atCap && config.behavior.Escalate?) then Route(r, p)
      else Execute(r, p)
  }

  /** The round after these proposals; the first error ends it. */
  function Processed(config: Config, r: Round, proposals: seq<Proposal>): Round {
    if proposals == [] then r
    else
      var before := Processed(config, r, proposals[..|proposals| - 1]);
      if before.failed then before else ProcessOne(config, before, proposals[|proposals| - 1])
  }

  function StartOfRound(count: u32, proposed: nat): Round {
    Round(count, NO_SUMMARY.(proposed := proposed), [], [], false)
  }

  // ----- What a round keeps -----------------------------------------------------------------------------

  /** How the summary stands after `n` proposals. */
  predicate CountsOk(start: u32, r: Round, n: nat) {
    && (!r.failed ==> n == r.summary.executed + r.summary.blocked + r.summary.pendingApproval)
    && |r.summary.observations| == r.summary.executed + r.summary.blocked
    && |r.routed| == r.summary.pendingApproval
    && (r.summary.limitReached ==> r.summary.observations != [])
    && r.count == SaturatingCount(start, r.summary.executed)
  }

  /** What ran, and how it compares with the cap; this also holds for a round that an error ends. */
  predicate RanOk(config: Config, start: u32, r: Round) {
    && NoneGated(r.ran)
    && Count(r.ran, Completed) == r.summary.executed
    && Count(r.ran, ErroredAfterStart) <= (if r.failed then 1 else 0)
    && (!config.behavior.AlwaysApprove? ==>
          r.summary.executed + Count(r.ran, ErroredAfterStart) <= SaturatingSub(config.maxActions, start))
  }

  datatype Fate = Started | Completed | BlockedAfterStart | ErroredAfterStart

  predicate Met(fate: Fate, p: Proposal) {
    match fate
    case Started => !p.execution.StoppedByPolicy? && (p.execution.ExecutionError? ==> p.execution.started)
    case Completed => p.execution.RanExecuted? || p.execution.RanFailed?
    case BlockedAfterStart => p.execution.StartedThenBlocked?
    case ErroredAfterStart => p.execution.ExecutionError? && p.execution.started
  }

  /** How many of the proposals whose execution was asked for met this fate. */
  function Count(ran: seq<Proposal>, fate: Fate): nat {
    CountAmong(ran, fate, |ran|)
  }

  function CountAmong(ran: seq<Proposal>, fate: Fate, n: nat): nat
    requires n <= |ran|
  {
    if n == 0 then 0
    else CountAmong(ran, fate, n - 1) + if Met(fate, ran[n - 1]) then 1 else 0
  }

  lemma {:induction false} CountConcat(first: seq<Proposal>, second: seq<Proposal>, fate: Fate, n: nat)
    requires n <= |second|
    ensures CountAmong(first + second, fate, |first| + n) == Count(first, fate) + CountAmong(second, fate, n)
  {
    if n == 0 {
      CountInPrefix(first, second, fate, |first|);
    } else {
      CountConcat(first, second, fate, n - 1);
    }
  }

  lemma {:induction false} CountInPrefix(first: seq<Proposal>, second: seq<Proposal>, fate: Fate, n: nat)
    requires n <= |first|
    ensures CountAmong(first + second, fate, n) == CountAmong(first, fate, n)
  {
    if n > 0 {
      CountInPrefix(first, second, fate, n - 1);
    }
  }

  lemma {:induction false} CountOneMore(ran: seq<Proposal>, p: Proposal, fate: Fate)
    ensures Count(ran + [p], fate) == Count(ran, fate) + if Met(fate, p) then 1 else 0
  {
    CountInPrefix(ran, [p], fate, |ran|);
  }

  /** Every start was completed, was blocked, or was ended by an error. */
  lemma {:induction false} StartsAddUp(ran: seq<Proposal>, n: nat)
    requires n <= |ran|
    ensures CountAmong(ran, Started, n)
         == CountAmong(ran, Completed, n) + CountAmong(ran, BlockedAfterStart, n) + CountAmong(ran, ErroredAfterStart, n)
  {
    if n > 0 {
      StartsAddUp(ran, n - 1);
    }
  }

  function SaturatingCount(start: u32, n: nat): u32 {
    if start + n <= U32_MAX then start + n else U32_MAX
  }

  lemma {:induction false} ProcessOneKeepsCounts(config: Config, start: u32, r: Round, n: nat, p: Proposal)
    requires CountsOk(start, r, n) && !r.failed
    ensures CountsOk(start, ProcessOne(config, r, p), n + 1)
  {
  }

  lemma {:induction false} ProcessOneKeepsRan(config: Config, start: u32, r: Round, n: nat, p: Proposal)
    requires CountsOk(start, r, n) && RanOk(config, start, r) && !r.failed
    ensures RanOk(config, start, ProcessOne(config, r, p))
  {
    CountOneMore(r.ran, p, Completed);
    CountOneMore(r.ran, p, ErroredAfterStart);
  }

  lemma {:induction false} ProcessedIsOk(config: Config, start: u32, proposed: nat, proposals: seq<Proposal>)
    ensures CountsOk(start, Processed(config, StartOfRound(start, proposed), proposals), |proposals|)
    ensures RanOk(config, start, Processed(config, StartOfRound(start, proposed), proposals))
    ensures Processed(config, StartOfRound(start, proposed), proposals).summary.proposed == proposed
  {
    if proposals != [] {
      var before := proposals[..|proposals| - 1];
      ProcessedIsOk(config, start, proposed, before);
      var r := Processed(config, StartOfRound(start, proposed), before);
      if !r.failed {
        ProcessOneKeepsCounts(config, start, r, |before|, proposals[|proposals| - 1]);
        ProcessOneKeepsRan(config, start, r, |before|, proposals[|proposals| - 1]);
      }
    }
  }

  function PlannedOf(proposals: seq<Proposal>): seq<Proposal> {
    if proposals == [] then []
    else
      var last := proposals[|proposals| - 1];
      PlannedOf(proposals[..|proposals| - 1]) + if last.planning.Planned? then [last] else []
  }

  /**
   A round that begins at the cap starts nothing unless the cap is always approved: everything
   planned is routed to approval, or everything planned is denied and the limit reported.
   */
  lemma {:induction false} RoundAtCap(config: Config, start: u32, proposed: nat, proposals: seq<Proposal>)
    requires IsAtCap(config, start) && !config.behavior.AlwaysApprove?
    ensures var r := Processed(config, StartOfRound(start, proposed), proposals);
            && r.ran == [] && r.count == start
            && (!r.failed && config.behavior.Escalate? ==> r.routed == PlannedOf(proposals) && !r.summary.limitReached)
            && (!r.failed && config.behavior.AlwaysDeny? ==>
                  r.routed == [] && (r.summary.limitReached <==> PlannedOf(proposals) != []))
  {
    if proposals != [] {
      RoundAtCap(config, start, proposed, proposals[..|proposals| - 1]);
    }
  }

  /** What needs approval is routed to it, except when the cap denies it; the limit is reported only at a cap that denies. */
  lemma {:induction false} GatedProposalsAreRouted(config: Config, start: u32, proposed: nat, proposals: seq<Proposal>, i: nat)
    requires i < |proposals| && proposals[i].planning == Planned(true)
    requires !Processed(config, StartOfRound(start, proposed), proposals).failed
    ensures var r := Processed(config, StartOfRound(start, proposed), proposals);
            && (proposals[i] in r.routed || r.summary.limitReached)
            && (r.summary.limitReached ==> config.behavior.AlwaysDeny? && IsAtCap(config, r.count))
  {
    var before := proposals[..|proposals| - 1];
    LimitIsAtCap(config, start, proposed, proposals);
    if i < |before| {
      assert before[i] == proposals[i];
      GatedProposalsAreRouted(config, start, proposed, before, i);
    }
  }

  lemma {:induction false} LimitIsAtCap(config: Config, start: u32, proposed: nat, proposals: seq<Proposal>)
    ensures Processed(config, StartOfRound(start, proposed), proposals).summary.limitReached ==>
              config.behavior.AlwaysDeny? && IsAtCap(config, Processed(config, StartOfRound(start, proposed), proposals).count)
  {
    if proposals != [] {
      LimitIsAtCap(config, start, proposed, proposals[..|proposals| - 1]);
    }
  }

  /** The tracker has not reached the configured number of actions. */
  predicate IsBelowCap(config: Config, count: u32) {
    count < config.maxActions
  }

  /** A write made because of the cap fails: at the cap every planned action has one, unless it is escalated and gated already. */
  predicate CapWriteFails(config: Config, count: u32, p: Proposal) {
    p.planning.Planned? && !IsBelowCap(config, count) && p.capWritesFail && !(config.behavior.Escalate? && p.planning.needsApproval)
  }

  /**
   What becomes of each proposal of a round. It is run exactly if it was planned, needs no approval, and there is room below
   the cap or the cap is approved; it is routed if it needs approval and the cap does not deny it, or the cap escalates.
   */
  lemma {:induction false} FateOfEachProposal(config: Config, start: u32, proposed: nat, proposals: seq<Proposal>, i: nat)
    requires i < |proposals| && !Processed(config, StartOfRound(start, proposed), proposals[..i]).failed
    ensures var r := Processed(config, StartOfRound(start, proposed), proposals[..i]);
            var r' := Processed(config, StartOfRound(start, proposed), proposals[..i + 1]);
            var p := proposals[i];
            var below := IsBelowCap(config, r.count);
            var runs := p.planning == Planned(false) && (below || config.behavior.AlwaysApprove?) && !CapWriteFails(config, r.count, p);
            var routed := && p.planning.Planned? && (below || !config.behavior.AlwaysDeny?) && !CapWriteFails(config, r.count, p)
                          && (p.planning.needsApproval || (!below && config.behavior.Escalate?));
            && r'.ran == (if runs then r.ran + [p] else r.ran)
            && r'.routed == (if routed && !p.routingFails then r.routed + [p] else r.routed)
            && (r'.failed <==> p.planning.PlanError? || CapWriteFails(config, r.count, p)
                               || (routed && p.routingFails) || (runs && p.execution.ExecutionError?))
  {
    assert proposals[..i + 1][..i] == proposals[..i];
  }

  /** The proposals observed with this status, in order. */
  function ObservedAs(observations: seq<Observation>, status: ObservedStatus): seq<nat> {
    if observations == [] then []
    else
      var last := observations[|observations| - 1];
      ObservedAs(observations[..|observations| - 1], status) + if last.status == status then [last.proposal] else []
  }

  /** The proposals among these whose execution ended so, in order. */
  function EndedAs(ran: seq<Proposal>, answer: ExecutionAnswer): seq<nat> {
    if ran == [] then []
    else EndedAs(ran[..|ran| - 1], answer) + if ran[|ran| - 1].execution == answer then [ran[|ran| - 1].id] else []
  }

  lemma {:induction false} ObservedOnceMore(observations: seq<Observation>, o: Observation, status: ObservedStatus)
    ensures ObservedAs(observations + [o], status) == ObservedAs(observations, status) + if o.status == status then [o.proposal] else []
  {
    assert (observations + [o])[..|observations|] == observations;
  }

  lemma {:induction false} EndedOnceMore(ran: seq<Proposal>, p: Proposal, answer: ExecutionAnswer)
    ensures EndedAs(ran + [p], answer) == EndedAs(ran, answer) + if p.execution == answer then [p.id] else []
  {
    assert (ran + [p])[..|ran|] == ran;
  }

  predicate OutcomesAreObserved(r: Round) {
    && ObservedAs(r.summary.observations, Executed) == EndedAs(r.ran, RanExecuted)
    && ObservedAs(r.summary.observations, Failed) == EndedAs(r.ran, RanFailed)
  }

  lemma {:induction false} BlockedIsNoOutcome(s: Summary, p: Proposal, status: ObservedStatus)
    requires !status.Blocked?
    ensures ObservedAs(Observed(s, p, Blocked).observations, status) == ObservedAs(s.observations, status)
  {
    ObservedOnceMore(s.observations, Observation(p.id, Blocked), status);
  }

  lemma {:induction false} ExecutionIsObserved(r: Round, p: Proposal, status: ObservedStatus, answer: ExecutionAnswer)
    requires ObservedAs(r.summary.observations, status) == EndedAs(r.ran, answer)
    requires (status.Executed? && answer.RanExecuted?) || (status.Failed? && answer.RanFailed?)
    ensures ObservedAs(Execute(r, p).summary.observations, status) == EndedAs(Execute(r, p).ran, answer)
  {
    EndedOnceMore(r.ran, p, answer);
    match p.execution
    case ExecutionError(_) =>
    case StoppedByPolicy => BlockedIsNoOutcome(r.summary, p, status);
    case StartedThenBlocked => BlockedIsNoOutcome(r.summary, p, status);
    case RanExecuted => ObservedOnceMore(r.summary.observations, Observation(p.id, Executed), status);
    case RanFailed => ObservedOnceMore(r.summary.observations, Observation(p.id, Failed), status);
  }

  /** Whether it is executed, routed or blocked, a proposal adds one outcome at most. */
  lemma {:induction false} StepOfRound(config: Config, r: Round, p: Proposal)
    ensures var next := ProcessOne(config, r, p);
            || next == Execute(r, p)
            || (next.ran == r.ran
                && (next.summary.observations == r.summary.observations
                    || next.summary.observations == Observed(r.summary, p, Blocked).observations))
  {
  }

  lemma {:induction false} ProcessOneObservesOutcomes(config: Config, r: Round, p: Proposal)
    requires OutcomesAreObserved(r)
    ensures OutcomesAreObserved(ProcessOne(config, r, p))
  {
    StepOfRound(config, r, p);
    ExecutionIsObserved(r, p, Executed, RanExecuted);
    ExecutionIsObserved(r, p, Failed, RanFailed);
    BlockedIsNoOutcome(r.summary, p, Executed);
    BlockedIsNoOutcome(r.summary, p, Failed);
  }

  /** What is observed as executed or failed is, in order, what was run and ended so; all else that is observed is blocked. */
  lemma {:induction false} RoundsObserveOutcomes(config: Config, start: u32, proposed: nat, proposals: seq<Proposal>)
    ensures OutcomesAreObserved(Processed(config, StartOfRound(start, proposed), proposals))
  {
    if proposals != [] {
      var before := proposals[..|proposals| - 1];
      RoundsObserveOutcomes(config, start, proposed, before);
      ProcessOneObservesOutcomes(config, Processed(config, StartOfRound(start, proposed), before), proposals[|proposals| - 1]);
    }
  }

  /** This proposal could end a round in an error. */
  predicate CanErr(p: Proposal) {
    p.planning.PlanError? || p.capWritesFail || p.routingFails || p.execution.ExecutionError?
  }

  predicate FailsOnlyOnErrors(proposals: seq<Proposal>, r: Round) {
    && (r.failed ==> exists i :: 0 <= i < |proposals| && CanErr(proposals[i]))
    && (!r.failed ==>
          && (forall i | 0 <= i < |proposals| :: !proposals[i].planning.PlanError?)
          && (forall i | 0 <= i < |r.routed| :: r.routed[i] in proposals && !r.routed[i].routingFails)
          && (forall i | 0 <= i < |r.ran| :: r.ran[i] in proposals && !r.ran[i].execution.ExecutionError?))
  }

  lemma {:induction false} ProcessOneFailsOnlyOnErrors(config: Config, r: Round, before: seq<Proposal>, p: Proposal)
    requires FailsOnlyOnErrors(before, r) && !r.failed
    ensures FailsOnlyOnErrors(before + [p], ProcessOne(config, r, p))
  {
    var proposals, next := before + [p], ProcessOne(config, r, p);
    assert proposals[|before|] == p;
    assert forall q | q in before :: q in proposals;
    if next.failed {
      assert CanErr(proposals[|before|]);
    }
  }

  /** A round comes to its end unless something errs; where it does, every plan, route and execution in it succeeded. */
  lemma {:induction false} RoundsFailOnlyOnErrors(config: Config, start: u32, proposed: nat, proposals: seq<Proposal>)
    ensures FailsOnlyOnErrors(proposals, Processed(config, StartOfRound(start, proposed), proposals))
  {
    if proposals != [] {
      var before, last := proposals[..|proposals| - 1], proposals[|proposals| - 1];
      var r := Processed(config, StartOfRound(start, proposed), before);
      RoundsFailOnlyOnErrors(config, start, proposed, before);
      InitAndLast(proposals);
      if r.failed {
        var i :| 0 <= i < |before| && CanErr(before[i]);
        assert CanErr(proposals[i]);
      } else {
        ProcessOneFailsOnlyOnErrors(config, r, before, last);
      }
    }
  }

  // ----- The passes of a turn -----------------------------------------------------------------------------

  datatype WorkerAnswer = WorkerError | NotConscious | Proposals(proposals: seq<Proposal>)

  /** A worker sees which pass it is, the observations in its context, and how many actions were counted. */
  type Worker = (nat, seq<Observation>, u32) -> WorkerAnswer

  datatype Pass = Pass(context: seq<Observation>, count: u32, summary: Summary)

  datatype Status = Running | Done | Aborted

  datatype Turn = Turn(
    passes: u32,
    count: u32,
    limitFollowUpConsumed: bool,
    context: seq<Observation>,
    merged: Summary,
    rounds: seq<Pass>,
    ran: seq<Proposal>,
    routed: seq<Proposal>,
    status: Status)

  function MaxPasses(config: Config): u32 {
    SaturatingAdd(config.maxActions, 2)
  }

  predicate ShouldContinue(config: Config, round: Summary, passes: u32, limitFollowUpConsumed: bool) {
    && round.observations != []
    && round.pendingApproval == 0
    && passes < MaxPasses(config)
    && (!round.limitReached || !limitFollowUpConsumed)
  }

  function NextPass(config: Config, worker: Worker, t: Turn): Turn {
    var passes := SaturatingAdd(t.passes, 1);
    match worker(passes, t.context, t.count)
    case WorkerError => t.(passes := passes, status := Aborted)
    case NotConscious => t.(passes := passes, status := Aborted)
    case Proposals(proposals) =>
      var r := Processed(config, StartOfRound(t.count, |proposals|), proposals);
      var after := t.(passes := passes, count := r.count, ran := t.ran + r.ran, routed := t.routed + r.routed);
      if r.failed then after.(status := Aborted)
      else
        var merged := t.merged.Merge(r.summary);
        var continues := ShouldContinue(config, r.summary, passes, t.limitFollowUpConsumed);
        after.(
          limitFollowUpConsumed := t.limitFollowUpConsumed || r.summary.limitReached,
          merged := merged,
          context := if continues then merged.observations else t.context,
          rounds := t.rounds + [Pass(t.context, t.count, r.summary)],
          status := if continues then Running else Done)
  }

  function StartOfTurn(initialCount: u32, context: seq<Observation>): Turn {
    Turn(0, initialCount, false, context, NO_SUMMARY, [], [], [], Running)
  }

  predicate PassesLeft(config: Config, t: Turn) {
    t.status.Running? ==> t.passes < MaxPasses(config)
  }

  function RunTurn(config: Config, worker: Worker, t: Turn): Turn
    requires PassesLeft(config, t)
    decreases MaxPasses(config) - t.passes
  {
    if !t.status.Running? then t
    else
      var next := NextPass(config, worker, t);
      if next.status.Running? then RunTurn(config, worker, next) else next
  }

  // ----- What a turn keeps -----------------------------------------------------------------------------------

  /** The first `n` rounds together. */
  function Total(rounds: seq<Pass>, n: nat): Summary
    requires n <= |rounds|
  {
    if n == 0 then NO_SUMMARY else Total(rounds, n - 1).Merge(rounds[n - 1].summary)
  }

  lemma {:induction false} TotalOfPrefix(rounds: seq<Pass>, round: Pass, n: nat)
    requires n <= |rounds|
    ensures Total(rounds + [round], n) == Total(rounds, n)
  {
    if n > 0 {
      TotalOfPrefix(rounds, round, n - 1);
    }
  }

  /** Only the last round may leave approvals pending, observe nothing, or reach the limit a second time. */
  predicate RoundsOk(t: Turn) {
    && (forall i | 0 <= i < |t.rounds| && (t.status.Running? || i < |t.rounds| - 1) ::
          t.rounds[i].summary.pendingApproval == 0 && t.rounds[i].summary.observations != [])
    && (forall i | 0 <= i < |t.rounds| && t.rounds[i].summary.limitReached :: t.limitFollowUpConsumed)
    && (forall i, j | 0 <= i < j < |t.rounds| && t.rounds[i].summary.limitReached && t.rounds[j].summary.limitReached ::
          j == |t.rounds| - 1 && !t.status.Running?)
    && (t.limitFollowUpConsumed ==> exists i :: 0 <= i < |t.rounds| && t.rounds[i].summary.limitReached)
  }

  predicate ShownOk(rounds: seq<Pass>, i: nat, initial: seq<Observation>)
    requires i < |rounds|
  {
    && rounds[i].summary.Balanced()
    && rounds[i].context == if i == 0 then initial else Total(rounds, i).observations
  }

  predicate SummariesOk(t: Turn, initial: seq<Observation>) {
    && t.merged == Total(t.rounds, |t.rounds|) && t.merged.Balanced()
    && (forall i | 0 <= i < |t.rounds| :: ShownOk(t.rounds, i, initial))
    && (t.status.Running? ==> t.context == if t.rounds == [] then initial else t.merged.observations)
  }

  predicate PassesOk(config: Config, t: Turn) {
    && t.passes <= MaxPasses(config)
    && PassesLeft(config, t)
    && (if t.status.Aborted? then t.passes == |t.rounds| + 1 else t.passes == |t.rounds|)
  }

  predicate NoneGated(ran: seq<Proposal>) {
    forall i | 0 <= i < |ran| :: ran[i].planning == Planned(false)
  }

  predicate CapKept(config: Config, initialCount: u32, t: Turn) {
    && (!t.status.Aborted? ==>
          && t.count == SaturatingCount(initialCount, t.merged.executed)
          && Count(t.ran, Completed) == t.merged.executed && Count(t.ran, ErroredAfterStart) == 0)
    && t.merged.executed <= Count(t.ran, Completed)
    && Count(t.ran, ErroredAfterStart) <= 1
    && (!config.behavior.AlwaysApprove? ==>
          Count(t.ran, Completed) + Count(t.ran, ErroredAfterStart) <= SaturatingSub(config.maxActions, initialCount))
  }

  predicate ActionsOk(config: Config, initialCount: u32, t: Turn) {
    NoneGated(t.ran) && CapKept(config, initialCount, t)
  }

  lemma {:induction false} NextPassKeepsPassesOk(config: Config, worker: Worker, t: Turn)
    requires PassesOk(config, t) && t.status.Running?
    ensures PassesOk(config, NextPass(config, worker, t))
    ensures NextPass(config, worker, t).status.Running? ==> NextPass(config, worker, t).passes == t.passes + 1
  {
  }

  /** A pass that comes to its end adds one round. */
  predicate AddsRound(config: Config, t: Turn, next: Turn, summary: Summary) {
    && next.rounds == t.rounds + [Pass(t.context, t.count, summary)]
    && next.merged == t.merged.Merge(summary)
    && summary.Balanced()
    && next.limitFollowUpConsumed == (t.limitFollowUpConsumed || summary.limitReached)
    && (next.status.Running? <==> ShouldContinue(config, summary, next.passes, t.limitFollowUpConsumed))
    && (next.status.Running? ==> next.context == next.merged.observations)
  }

  lemma {:induction false} NextPassAddsRound(config: Config, worker: Worker, t: Turn) returns (summary: Summary)
    requires t.status.Running?
    ensures var next := NextPass(config, worker, t);
            if next.status.Aborted?
            then next.rounds == t.rounds && next.merged == t.merged && next.limitFollowUpConsumed == t.limitFollowUpConsumed
            else AddsRound(config, t, next, summary)
  {
    summary := NO_SUMMARY;
    match worker(SaturatingAdd(t.passes, 1), t.context, t.count)
    case Proposals(proposals) =>
      summary := Processed(config, StartOfRound(t.count, |proposals|), proposals).summary;
      ProcessedIsOk(config, t.count, |proposals|, proposals);
    case _ =>
  }

  lemma {:induction false} AddedRoundIsOk(config: Config, t: Turn, next: Turn, summary: Summary)
    requires AddsRound(config, t, next, summary) && RoundsOk(t) && t.status.Running?
    ensures RoundsOk(next)
  {
    var n := |t.rounds|;
    assert next.rounds[n].summary == summary;
    if t.limitFollowUpConsumed {
      var i :| 0 <= i < n && t.rounds[i].summary.limitReached;
      assert next.rounds[i].summary.limitReached;
    }
  }

  lemma {:induction false} EarlierRoundsStayShown(rounds: seq<Pass>, round: Pass, i: nat, initial: seq<Observation>)
    requires i < |rounds| && ShownOk(rounds, i, initial)
    ensures ShownOk(rounds + [round], i, initial)
  {
    TotalOfPrefix(rounds, round, i);
  }

  lemma {:induction false} LastRoundIsShown(rounds: seq<Pass>, round: Pass, initial: seq<Observation>)
    requires round.summary.Balanced()
    requires round.context == if rounds == [] then initial else Total(rounds, |rounds|).observations
    ensures ShownOk(rounds + [round], |rounds|, initial)
  {
    TotalOfPrefix(rounds, round, |rounds|);
  }

  lemma {:induction false} TotalWithLast(rounds: seq<Pass>, round: Pass)
    ensures Total(rounds + [round], |rounds| + 1) == Total(rounds, |rounds|).Merge(round.summary)
  {
    TotalOfPrefix(rounds, round, |rounds|);
  }

  lemma {:induction false} AllRoundsStayShown(rounds: seq<Pass>, round: Pass, initial: seq<Observation>)
    requires forall i | 0 <= i < |rounds| :: ShownOk(rounds, i, initial)
    requires ShownOk(rounds + [round], |rounds|, initial)
    ensures forall i | 0 <= i < |rounds + [round]| :: ShownOk(rounds + [round], i, initial)
  {
    forall i | 0 <= i < |rounds| ensures ShownOk(rounds + [round], i, initial) {
      EarlierRoundsStayShown(rounds, round, i, initial);
    }
  }

  lemma {:induction false} MergeIsBalanced(a: Summary, b: Summary)
    requires a.Balanced() && b.Balanced()
    ensures a.Merge(b).Balanced()
  {
  }

  lemma {:induction false} AddedRoundKeepsSummaries(t: Turn, next: Turn, round: Pass, initial: seq<Observation>)
    requires SummariesOk(t, initial)
    requires round.summary.Balanced()
    requires round.context == if t.rounds == [] then initial else t.merged.observations
    requires next.rounds == t.rounds + [round] && next.merged == t.merged.Merge(round.summary)
    requires next.status.Running? ==> next.context == next.merged.observations
    ensures SummariesOk(next, initial)
  {
    LastRoundIsShown(t.rounds, round, initial);
    AllRoundsStayShown(t.rounds, round, initial);
    TotalWithLast(t.rounds, round);
    MergeIsBalanced(t.merged, round.summary);
  }

  lemma {:induction false} AbortKeepsRounds(t: Turn, next: Turn, initial: seq<Observation>)
    requires RoundsOk(t) && SummariesOk(t, initial) && t.status.Running? && next.status.Aborted?
    requires next.rounds == t.rounds && next.merged == t.merged && next.limitFollowUpConsumed == t.limitFollowUpConsumed
    ensures RoundsOk(next) && SummariesOk(next, initial)
  {
  }

  lemma {:induction false} NextPassKeepsNoneGated(config: Config, worker: Worker, t: Turn)
    requires NoneGated(t.ran)
    ensures NoneGated(NextPass(config, worker, t).ran)
  {
    match worker(SaturatingAdd(t.passes, 1), t.context, t.count)
    case Proposals(proposals) => ProcessedIsOk(config, t.count, |proposals|, proposals);
    case _ =>
  }

  /** The counts of a round that goes to the end, or fails, added to those of the turn before it. */
  lemma {:induction false} RoundKeepsCap(config: Config, t: Turn, r: Round, next: Turn, initialCount: u32, n: nat)
    requires CapKept(config, initialCount, t) && t.status.Running?
    requires CountsOk(t.count, r, n) && RanOk(config, t.count, r)
    requires next.ran == t.ran + r.ran && next.count == r.count
    requires r.failed <==> next.status.Aborted?
    requires next.merged == if r.failed then t.merged else t.merged.Merge(r.summary)
    ensures CapKept(config, initialCount, next)
  {
    CountConcat(t.ran, r.ran, Completed, |r.ran|);
    CountConcat(t.ran, r.ran, ErroredAfterStart, |r.ran|);
  }

  lemma {:induction false} NextPassKeepsCap(config: Config, worker: Worker, t: Turn, initialCount: u32)
    requires CapKept(config, initialCount, t) && t.status.Running?
    ensures CapKept(config, initialCount, NextPass(config, worker, t))
  {
    match worker(SaturatingAdd(t.passes, 1), t.context, t.count)
    case Proposals(proposals) =>
      var r := Processed(config, StartOfRound(t.count, |proposals|), proposals);
      ProcessedIsOk(config, t.count, |proposals|, proposals);
      RoundKeepsCap(config, t, r, NextPass(config, worker, t), initialCount, |proposals|);
    case _ =>
  }

  lemma {:induction false} NextPassKeepsActionsOk(config: Config, worker: Worker, t: Turn, initialCount: u32)
    requires ActionsOk(config, initialCount, t) && t.status.Running?
    ensures ActionsOk(config, initialCount, NextPass(config, worker, t))
  {
    NextPassKeepsNoneGated(config, worker, t);
    NextPassKeepsCap(config, worker, t, initialCount);
  }

  predicate TurnOk(config: Config, initial: seq<Observation>, t: Turn) {
    PassesOk(config, t) && RoundsOk(t) && SummariesOk(t, initial)
  }

  lemma {:induction false} NextPassKeepsTurnOk(config: Config, worker: Worker, t: Turn, initial: seq<Observation>)
    requires TurnOk(config, initial, t) && t.status.Running?
    ensures TurnOk(config, initial, NextPass(config, worker, t))
  {
    var next := NextPass(config, worker, t);
    NextPassKeepsPassesOk(config, worker, t);
    var summary := NextPassAddsRound(config, worker, t);
    if next.status.Aborted? {
      AbortKeepsRounds(t, next, initial);
    } else {
      AddedRoundIsOk(config, t, next, summary);
      AddedRoundKeepsSummaries(t, next, Pass(t.context, t.count, summary), initial);
    }
  }

  lemma {:induction false} RunKeepsTurnOk(config: Config, worker: Worker, t: Turn, initial: seq<Observation>)
    requires TurnOk(config, initial, t)
    ensures TurnOk(config, initial, RunTurn(config, worker, t)) && !RunTurn(config, worker, t).status.Running?
    decreases MaxPasses(config) - t.passes
  {
    if t.status.Running? {
      NextPassKeepsPassesOk(config, worker, t);
      NextPassKeepsTurnOk(config, worker, t, initial);
      if NextPass(config, worker, t).status.Running? {
        RunKeepsTurnOk(config, worker, NextPass(config, worker, t), initial);
      }
    }
  }

  lemma {:induction false} RunKeepsActionsOk(config: Config, worker: Worker, t: Turn, initialCount: u32)
    requires PassesOk(config, t) && ActionsOk(config, initialCount, t)
    ensures ActionsOk(config, initialCount, RunTurn(config, worker, t))
    decreases MaxPasses(config) - t.passes
  {
    if t.status.Running? {
      NextPassKeepsPassesOk(config, worker, t);
      NextPassKeepsActionsOk(config, worker, t, initialCount);
      if NextPass(config, worker, t).status.Running? {
        RunKeepsActionsOk(config, worker, NextPass(config, worker, t), initialCount);
      }
    }
  }

  function WholeTurn(config: Config, worker: Worker, initialCount: u32, context: seq<Observation>): Turn {
    RunTurn(config, worker, StartOfTurn(initialCount, context))
  }

  lemma {:induction false} UnstartedActionsOk(config: Config, t: Turn)
    requires t.merged == NO_SUMMARY && t.ran == []
    ensures ActionsOk(config, t.count, t)
  {
  }

  lemma {:induction false} UnstartedIsOk(config: Config, t: Turn)
    requires t.passes == 0 && !t.limitFollowUpConsumed && t.merged == NO_SUMMARY && t.rounds == [] && t.status.Running?
    ensures TurnOk(config, t.context, t)
  {
  }

  lemma {:induction false} WholeTurnIsOk(config: Config, worker: Worker, initialCount: u32, context: seq<Observation>)
    ensures TurnOk(config, context, WholeTurn(config, worker, initialCount, context))
    ensures !WholeTurn(config, worker, initialCount, context).status.Running?
  {
    var start := StartOfTurn(initialCount, context);
    UnstartedIsOk(config, start);
    RunKeepsTurnOk(config, worker, start, context);
  }

  lemma {:induction false} WholeTurnKeepsActionsOk(config: Config, worker: Worker, initialCount: u32, context: seq<Observation>)
    ensures ActionsOk(config, initialCount, WholeTurn(config, worker, initialCount, context))
  {
    var start := StartOfTurn(initialCount, context);
    UnstartedActionsOk(config, start);
    RunKeepsActionsOk(config, worker, start, initialCount);
  }

  // ----- The guarantees of every turn ---------------------------------------------------------------------------

  /** Nothing that needs approval runs inside the loop, under any cap behaviour, even in a turn that aborts. */
  lemma {:induction false} NothingGatedRuns(config: Config, worker: Worker, initialCount: u32, context: seq<Observation>, i: nat)
    requires i < |WholeTurn(config, worker, initialCount, context).ran|
    ensures WholeTurn(config, worker, initialCount, context).ran[i].planning == Planned(false)
  {
    WholeTurnKeepsActionsOk(config, worker, initialCount, context);
  }

  /**
   Unless the cap is always approved, a turn completes at most as many actions as the cap leaves of
   the initial count, even when it aborts; with the initial ones a turn within the cap stays within it.
   */
  lemma {:induction false} TurnStaysWithinCap(config: Config, worker: Worker, initialCount: u32, context: seq<Observation>)
    requires !config.behavior.AlwaysApprove?
    ensures Count(WholeTurn(config, worker, initialCount, context).ran, Completed)
         <= SaturatingSub(config.maxActions, initialCount)
    ensures WholeTurn(config, worker, initialCount, context).merged.executed <= SaturatingSub(config.maxActions, initialCount)
    ensures initialCount <= config.maxActions ==>
              initialCount + WholeTurn(config, worker, initialCount, context).merged.executed <= config.maxActions
  {
    WholeTurnKeepsActionsOk(config, worker, initialCount, context);
  }

  /**
   The cap counts completed actions, not starts. The starts of a turn are its completed actions, those
   that the backend blocked after their start, and at most one that an error ended; they stay within
   what the cap leaves exactly when the blocked ones fit beside the others.
   */
  lemma {:induction false} StartsStayWithinCapIff(
    config: Config, worker: Worker, initialCount: u32, context: seq<Observation>, turn: Turn)
    requires turn == WholeTurn(config, worker, initialCount, context)
    ensures Count(turn.ran, Started)
         == Count(turn.ran, Completed) + Count(turn.ran, BlockedAfterStart) + Count(turn.ran, ErroredAfterStart)
    ensures Count(turn.ran, ErroredAfterStart) <= (if turn.status.Aborted? then 1 else 0)
    ensures var left := SaturatingSub(config.maxActions, initialCount) - Count(turn.ran, ErroredAfterStart);
            Count(turn.ran, Started) <= SaturatingSub(config.maxActions, initialCount)
            <==> Count(turn.ran, BlockedAfterStart) <= left - Count(turn.ran, Completed)
    ensures !config.behavior.AlwaysApprove? && Count(turn.ran, BlockedAfterStart) == 0 ==>
              Count(turn.ran, Started) <= SaturatingSub(config.maxActions, initialCount)
  {
    StartsAddUp(turn.ran, |turn.ran|);
    WholeTurnKeepsActionsOk(config, worker, initialCount, context);
    WholeTurnIsOk(config, worker, initialCount, context);
  }

  /** A turn takes at most two passes more than the cap, and each pass but an aborted last one is a round. */
  lemma {:induction false} TurnTakesBoundedPasses(config: Config, worker: Worker, initialCount: u32, context: seq<Observation>)
    ensures WholeTurn(config, worker, initialCount, context).passes <= MaxPasses(config)
    ensures !WholeTurn(config, worker, initialCount, context).status.Aborted? ==>
              |WholeTurn(config, worker, initialCount, context).rounds| == WholeTurn(config, worker, initialCount, context).passes
  {
    WholeTurnIsOk(config, worker, initialCount, context);
  }

  /** A round that leaves approvals pending or observes nothing is the last; a second round at the limit is the last. */
  lemma {:induction false} PendingAndSecondLimitRoundsAreLast(
    config: Config, worker: Worker, initialCount: u32, context: seq<Observation>, rounds: seq<Pass>)
    requires rounds == WholeTurn(config, worker, initialCount, context).rounds
    ensures forall i | 0 <= i < |rounds| - 1 :: rounds[i].summary.pendingApproval == 0 && rounds[i].summary.observations != []
    ensures forall i, j | 0 <= i < j < |rounds| && rounds[i].summary.limitReached && rounds[j].summary.limitReached ::
              j == |rounds| - 1
  {
    WholeTurnIsOk(config, worker, initialCount, context);
  }

  /** The round observed nothing, left approvals pending, is the last that the cap allows, or is the second at the limit. */
  predicate EndsTurn(config: Config, rounds: seq<Pass>, i: nat)
    requires i < |rounds|
  {
    || rounds[i].summary.observations == []
    || rounds[i].summary.pendingApproval > 0
    || i + 1 == (if config.maxActions + 2 <= U32_MAX then config.maxActions + 2 else U32_MAX)
    || (rounds[i].summary.limitReached && exists j :: 0 <= j < i && rounds[j].summary.limitReached)
  }

  predicate EndIsReasoned(config: Config, t: Turn) {
    && (t.status.Done? ==> t.rounds != [] && EndsTurn(config, t.rounds, |t.rounds| - 1))
    && (forall i | 0 <= i < |t.rounds| && (t.status.Done? ==> i < |t.rounds| - 1) :: !EndsTurn(config, t.rounds, i))
  }

  lemma {:induction false} EarlierRoundsEndAlike(config: Config, rounds: seq<Pass>, round: Pass, i: nat)
    requires i < |rounds|
    ensures EndsTurn(config, rounds + [round], i) <==> EndsTurn(config, rounds, i)
  {
    assert forall j | 0 <= j <= i :: (rounds + [round])[j] == rounds[j];
  }

  lemma {:induction false} AddedRoundEndsTurnIff(config: Config, t: Turn, next: Turn, summary: Summary)
    requires AddsRound(config, t, next, summary) && RoundsOk(t) && PassesOk(config, t) && t.status.Running?
    requires next.passes == t.passes + 1 && !next.status.Aborted?
    ensures EndsTurn(config, next.rounds, |t.rounds|) <==> next.status.Done?
  {
    var n := |t.rounds|;
    assert next.rounds[n].summary == summary;
    assert (exists j :: 0 <= j < n && next.rounds[j].summary.limitReached) <==> t.limitFollowUpConsumed by {
      assert forall j | 0 <= j < n :: next.rounds[j] == t.rounds[j];
    }
  }

  lemma {:induction false} NextPassKeepsReasons(config: Config, worker: Worker, t: Turn)
    requires EndIsReasoned(config, t) && RoundsOk(t) && PassesOk(config, t) && t.status.Running?
    ensures EndIsReasoned(config, NextPass(config, worker, t))
  {
    var next := NextPass(config, worker, t);
    var summary := NextPassAddsRound(config, worker, t);
    if !next.status.Aborted? {
      AddedRoundEndsTurnIff(config, t, next, summary);
      forall i | 0 <= i < |t.rounds| ensures !EndsTurn(config, next.rounds, i) {
        EarlierRoundsEndAlike(config, t.rounds, Pass(t.context, t.count, summary), i);
      }
    }
  }

  lemma {:induction false} RunKeepsReasons(config: Config, worker: Worker, t: Turn, initial: seq<Observation>)
    requires TurnOk(config, initial, t) && EndIsReasoned(config, t)
    ensures EndIsReasoned(config, RunTurn(config, worker, t))
    decreases MaxPasses(config) - t.passes
  {
    if t.status.Running? {
      var next := NextPass(config, worker, t);
      NextPassKeepsPassesOk(config, worker, t);
      NextPassKeepsTurnOk(config, worker, t, initial);
      NextPassKeepsReasons(config, worker, t);
      if next.status.Running? { RunKeepsReasons(config, worker, next, initial); }
    }
  }

  lemma {:induction false} UnstartedIsReasoned(config: Config, t: Turn)
    requires t.rounds == [] && t.status.Running?
    ensures EndIsReasoned(config, t)
  {
  }

  lemma {:induction false} WholeTurnIsReasoned(config: Config, worker: Worker, initialCount: u32, context: seq<Observation>)
    ensures EndIsReasoned(config, WholeTurn(config, worker, initialCount, context))
  {
    var start := StartOfTurn(initialCount, context);
    UnstartedIsOk(config, start);
    UnstartedIsReasoned(config, start);
    RunKeepsReasons(config, worker, start, context);
  }

  /**
   A turn goes on exactly as long as there is reason to: its last round observed nothing, left approvals pending, was the
   last pass allowed, or reached the limit when an earlier round had; and no round before it did any of these.
   */
  lemma {:induction false} TurnsEndExactlyWithReason(
    config: Config, worker: Worker, initialCount: u32, context: seq<Observation>, turn: Turn)
    requires turn == WholeTurn(config, worker, initialCount, context)
    ensures turn.status.Done? ==> turn.rounds != [] && EndsTurn(config, turn.rounds, |turn.rounds| - 1)
    ensures forall i | 0 <= i < |turn.rounds| && (turn.status.Done? ==> i < |turn.rounds| - 1) :: !EndsTurn(config, turn.rounds, i)
    ensures !turn.status.Running?
  {
    WholeTurnIsReasoned(config, worker, initialCount, context);
    WholeTurnIsOk(config, worker, initialCount, context);
  }

  /** Conservation: every proposal of a finished pass was executed, blocked or left pending, and all but the pending observed. */
  lemma {:induction false} SummariesAddUp(config: Config, worker: Worker, initialCount: u32, context: seq<Observation>)
    ensures var turn := WholeTurn(config, worker, initialCount, context);
            && turn.merged == Total(turn.rounds, |turn.rounds|)
            && turn.merged.proposed == turn.merged.executed + turn.merged.blocked + turn.merged.pendingApproval
            && |turn.merged.observations| == turn.merged.executed + turn.merged.blocked
  {
    WholeTurnIsOk(config, worker, initialCount, context);
  }

  /** The pass is shown what the pass before it was shown in this turn, and then what that one led to. */
  predicate IsShownMore(rounds: seq<Pass>, i: nat)
    requires 0 < i < |rounds|
  {
    rounds[i].context == (if i == 1 then [] else rounds[i - 1].context) + rounds[i - 1].summary.observations
  }

  lemma {:induction false} ShownGrows(rounds: seq<Pass>, i: nat, initial: seq<Observation>)
    requires 0 < i < |rounds| && ShownOk(rounds, i - 1, initial) && ShownOk(rounds, i, initial)
    ensures IsShownMore(rounds, i)
  {
    assert Total(rounds, i) == Total(rounds, i - 1).Merge(rounds[i - 1].summary);
  }

  /** The first pass is shown what the turn began with, and each later one what was observed in those before it, in order. */
  predicate AreShown(rounds: seq<Pass>, initial: seq<Observation>) {
    && (rounds != [] ==> rounds[0].context == initial)
    && (forall i | 0 < i < |rounds| :: IsShownMore(rounds, i))
  }

  lemma {:induction false} FirstIsShown(rounds: seq<Pass>, initial: seq<Observation>)
    requires rounds != [] && ShownOk(rounds, 0, initial)
    ensures rounds[0].context == initial
  {
  }

  lemma {:induction false} NextIsShownMore(rounds: seq<Pass>, initial: seq<Observation>, i: nat)
    requires 0 < i < |rounds| && forall k | 0 <= k < |rounds| :: ShownOk(rounds, k, initial)
    ensures IsShownMore(rounds, i)
  {
    assert ShownOk(rounds, i - 1, initial) && ShownOk(rounds, i, initial);
    ShownGrows(rounds, i, initial);
  }

  lemma {:induction false} AllAreShown(rounds: seq<Pass>, initial: seq<Observation>)
    requires forall k | 0 <= k < |rounds| :: ShownOk(rounds, k, initial)
    ensures AreShown(rounds, initial)
  {
    if rounds != [] { FirstIsShown(rounds, initial); }
    forall i | 0 < i < |rounds| ensures IsShownMore(rounds, i) {
      NextIsShownMore(rounds, initial, i);
    }
  }

  lemma {:induction false} PassesSeeEarlierObservations(config: Config, worker: Worker, initialCount: u32, context: seq<Observation>)
    ensures AreShown(WholeTurn(config, worker, initialCount, context).rounds, context)
  {
    var turn := WholeTurn(config, worker, initialCount, context);
    WholeTurnIsOk(config, worker, initialCount, context);
    AllAreShown(turn.rounds, context);
  }

  // ----- Which workers keep their starts within the cap ---------------------------------------------------------

  /** An action that runs without approval, and that its backend blocks after its start. */
  predicate BlocksLate(p: Proposal) {
    p.planning == Planned(false) && p.execution.StartedThenBlocked?
  }

  predicate AllIn(proposals: seq<Proposal>, allowed: Proposal -> bool) {
    forall i | 0 <= i < |proposals| :: allowed(proposals[i])
  }

  ghost predicate MakesOnly(worker: Worker, allowed: Proposal -> bool) {
    forall pass: nat, context: seq<Observation>, count: u32 ::
      worker(pass, context, count).Proposals? ==> AllIn(worker(pass, context, count).proposals, allowed)
  }

  lemma {:induction false} RoundRunsOnlyProposed(config: Config, start: Round, proposals: seq<Proposal>, allowed: Proposal -> bool)
    requires AllIn(proposals, allowed) && AllIn(start.ran, allowed)
    ensures AllIn(Processed(config, start, proposals).ran, allowed)
  {
    if proposals != [] {
      RoundRunsOnlyProposed(config, start, proposals[..|proposals| - 1], allowed);
    }
  }

  lemma {:induction false} PassRunsOnlyProposed(config: Config, worker: Worker, t: Turn, allowed: Proposal -> bool)
    requires MakesOnly(worker, allowed) && AllIn(t.ran, allowed)
    ensures AllIn(NextPass(config, worker, t).ran, allowed)
  {
    match worker(SaturatingAdd(t.passes, 1), t.context, t.count)
    case Proposals(proposals) => RoundRunsOnlyProposed(config, StartOfRound(t.count, |proposals|), proposals, allowed);
    case _ =>
  }

  lemma {:induction false} TurnRunsOnlyProposed(config: Config, worker: Worker, t: Turn, allowed: Proposal -> bool)
    requires PassesLeft(config, t) && MakesOnly(worker, allowed) && AllIn(t.ran, allowed)
    ensures AllIn(RunTurn(config, worker, t).ran, allowed)
    decreases MaxPasses(config) - t.passes
  {
    if t.status.Running? {
      PassRunsOnlyProposed(config, worker, t, allowed);
      if NextPass(config, worker, t).status.Running? {
        TurnRunsOnlyProposed(config, worker, NextPass(config, worker, t), allowed);
      }
    }
  }

  lemma {:induction false} NothingBlocksLate(ran: seq<Proposal>, n: nat)
    requires n <= |ran| && forall i | 0 <= i < |ran| :: !ran[i].execution.StartedThenBlocked?
    ensures CountAmong(ran, BlockedAfterStart, n) == 0
  {
    if n > 0 { NothingBlocksLate(ran, n - 1); }
  }

  lemma {:induction false} HarmlessWorkersKeepTheCap(
    config: Config, worker: Worker, initialCount: u32, context: seq<Observation>, allowed: Proposal -> bool)
    requires MakesOnly(worker, allowed) && !config.behavior.AlwaysApprove?
    requires forall p | allowed(p) :: !BlocksLate(p)
    ensures Count(WholeTurn(config, worker, initialCount, context).ran, Started) <= SaturatingSub(config.maxActions, initialCount)
  {
    var turn := WholeTurn(config, worker, initialCount, context);
    TurnRunsOnlyProposed(config, worker, StartOfTurn(initialCount, context), allowed);
    forall i | 0 <= i < |turn.ran| ensures !turn.ran[i].execution.StartedThenBlocked? {
      NothingGatedRuns(config, worker, initialCount, context, i);
      assert allowed(turn.ran[i]);
    }
    NothingBlocksLate(turn.ran, |turn.ran|);
    StartsStayWithinCapIff(config, worker, initialCount, context, turn);
  }

  lemma {:induction false} CountOfPrefix(first: seq<Proposal>, rest: seq<Proposal>, fate: Fate, n: nat)
    requires n <= |rest|
    ensures Count(first, fate) <= CountAmong(first + rest, fate, |first| + n)
  {
    CountConcat(first, rest, fate, n);
  }

  lemma {:induction false} LaterPassesOnlyAdd(config: Config, worker: Worker, t: Turn)
    requires PassesLeft(config, t)
    ensures t.ran <= RunTurn(config, worker, t).ran
    decreases MaxPasses(config) - t.passes
  {
    if t.status.Running? && NextPass(config, worker, t).status.Running? {
      LaterPassesOnlyAdd(config, worker, NextPass(config, worker, t));
    }
  }

  lemma {:induction false} TwoLateBlocks(config: Config, p: Proposal, proposals: seq<Proposal>)
    requires BlocksLate(p) && proposals == [p, p] && config.maxActions > 0
    ensures Processed(config, StartOfRound(0, 2), proposals).ran == [p, p]
  {
    var start := StartOfRound(0, 2);
    assert proposals[..1] == [p] && [p][..0] == [];
    assert Processed(config, start, []) == start;
    assert Processed(config, start, [p]).ran == [p];
  }

  lemma {:induction false} FirstPassRunsBoth(config: Config, worker: Worker, p: Proposal)
    requires BlocksLate(p) && config.maxActions > 0 && worker(1, [], 0) == Proposals([p, p])
    ensures NextPass(config, worker, StartOfTurn(0, [])).ran == [p, p]
  {
    TwoLateBlocks(config, p, [p, p]);
  }

  lemma {:induction false} TurnBeginsWithFirstPass(config: Config, worker: Worker, initialCount: u32, context: seq<Observation>)
    ensures NextPass(config, worker, StartOfTurn(initialCount, context)).ran <= WholeTurn(config, worker, initialCount, context).ran
  {
    var first := NextPass(config, worker, StartOfTurn(initialCount, context));
    if first.status.Running? { LaterPassesOnlyAdd(config, worker, first); }
  }

  lemma {:induction false} TwoStartsAreCounted(ran: seq<Proposal>, p: Proposal)
    requires BlocksLate(p) && [p, p] <= ran
    ensures Count(ran, Started) > 1
  {
    assert ran == [p, p] + ran[2..];
    CountOfPrefix([p, p], ran[2..], Started, |ran| - 2);
    CountOneMore([], p, Started);
    CountOneMore([p], p, Started);
    assert [] + [p] == [p] && [p] + [p] == [p, p];
  }

  lemma {:induction false} LateBlockPassesTheCap(worker: Worker, p: Proposal)
    requires BlocksLate(p) && worker(1, [], 0) == Proposals([p, p])
    ensures Count(WholeTurn(Config(1, Escalate), worker, 0, []).ran, Started) > 1
  {
    FirstPassRunsBoth(Config(1, Escalate), worker, p);
    TurnBeginsWithFirstPass(Config(1, Escalate), worker, 0, []);
    TwoStartsAreCounted(WholeTurn(Config(1, Escalate), worker, 0, []).ran, p);
  }

  /**
   Over all workers that keep to some set of proposals, all initial counts and all caps that are not always
   approved: no turn starts more than its cap leaves exactly when that set has no action that blocks late.
   */
  lemma {:induction false} CapBoundsStartsIffNothingBlocksLate(allowed: Proposal -> bool)
    ensures (forall config: Config, worker: Worker, initialCount: u32, context: seq<Observation>
               | MakesOnly(worker, allowed) && !config.behavior.AlwaysApprove? ::
               Count(WholeTurn(config, worker, initialCount, context).ran, Started) <= SaturatingSub(config.maxActions, initialCount))
            <==> (forall p: Proposal | allowed(p) :: !BlocksLate(p))
  {
    if forall p: Proposal | allowed(p) :: !BlocksLate(p) {
      forall config: Config, worker: Worker, initialCount: u32, context: seq<Observation>
        | MakesOnly(worker, allowed) && !config.behavior.AlwaysApprove?
        ensures Count(WholeTurn(config, worker, initialCount, context).ran, Started) <= SaturatingSub(config.maxActions, initialCount)
      {
        HarmlessWorkersKeepTheCap(config, worker, initialCount, context, allowed);
      }
    } else {
      var p: Proposal :| allowed(p) && BlocksLate(p);
      var worker: Worker := (_, _, _) => Proposals([p, p]);
      LateBlockPassesTheCap(worker, p);
      assert MakesOnly(worker, allowed);
    }
  }

  // ----- The bounds are reached -----------------------------------------------------------------------------------

  const BLOCKED_PROPOSAL := Proposal(0, PlanBlocked, false, false, RanExecuted)
  const LATE_BLOCKED_PROPOSAL := Proposal(0, Planned(false), false, false, StartedThenBlocked)
  const HARMLESS_PROPOSAL := Proposal(0, Planned(false), false, false, RanExecuted)

  lemma {:induction false} OneBlockedProposal(config: Config, start: u32)
    ensures Processed(config, StartOfRound(start, 1), [BLOCKED_PROPOSAL])
         == Round(start, Summary([Observation(0, Blocked)], 1, 0, 1, 0, false), [], [], false)
  {
    var proposals, r := [BLOCKED_PROPOSAL], StartOfRound(start, 1);
    assert proposals[..0] == [];
    assert Processed(config, r, proposals) == ProcessOne(config, r, proposals[0]);
  }

  /** A worker that never stops proposing what is blocked gets exactly the maximal number of passes. */
  lemma {:induction false} StubbornWorkerGetsAllPasses(config: Config, t: Turn)
    requires t.status.Running? && PassesLeft(config, t)
    ensures RunTurn(config, (_, _, _) => Proposals([BLOCKED_PROPOSAL]), t).status.Done?
    ensures RunTurn(config, (_, _, _) => Proposals([BLOCKED_PROPOSAL]), t).passes == MaxPasses(config)
    decreases MaxPasses(config) - t.passes
  {
    var worker: Worker := (_, _, _) => Proposals([BLOCKED_PROPOSAL]);
    var next := NextPass(config, worker, t);
    OneBlockedProposal(config, t.count);
    if next.status.Running? {
      StubbornWorkerGetsAllPasses(config, next);
    }
  }

  /** Actions that their backend blocks after the start never reach the cap: any number of them starts below a cap of one. */
  lemma {:induction false} BlockedStartsPassTheCap(n: nat, proposed: nat)
    ensures var r := Processed(Config(1, Escalate), StartOfRound(0, proposed), seq(n, _ => LATE_BLOCKED_PROPOSAL));
            !r.failed && Count(r.ran, Started) == n && r.count == 0
  {
    if n > 0 {
      BlockedStartsPassTheCap(n - 1, proposed);
      assert seq(n, _ => LATE_BLOCKED_PROPOSAL)[..n - 1] == seq(n - 1, _ => LATE_BLOCKED_PROPOSAL);
      var before := Processed(Config(1, Escalate), StartOfRound(0, proposed), seq(n - 1, _ => LATE_BLOCKED_PROPOSAL));
      CountOneMore(before.ran, LATE_BLOCKED_PROPOSAL, Started);
    }
  }

  /** With the cap always approved nothing bounds a round: all of `n` harmless proposals run, whatever the cap is. */
  lemma {:induction false} AlwaysApproveIgnoresTheCap(maxActions: u32, start: u32, n: nat, proposed: nat)
    ensures var r := Processed(Config(maxActions, AlwaysApprove), StartOfRound(start, proposed), seq(n, _ => HARMLESS_PROPOSAL));
            !r.failed && r.summary.executed == n
  {
    if n > 0 {
      AlwaysApproveIgnoresTheCap(maxActions, start, n - 1, proposed);
      assert seq(n, _ => HARMLESS_PROPOSAL)[..n - 1] == seq(n - 1, _ => HARMLESS_PROPOSAL);
    }
  }

  // ----- The loop as the program runs it ----------------------------------------------------------------------------

  class ActionLoopTracker {
    var executedActionCount: u32

    constructor (executedActionCount: u32)
      ensures this.executedActionCount == executedActionCount
    {
      this.executedActionCount := executedActionCount;
    }

    predicate AtCap(config: Config)
      reads this
    {
      IsAtCap(config, executedActionCount)
    }

    /** Counts up, and never past the largest counter value. */
    method RecordExecutedAction()
      modifies this
      ensures old(executedActionCount) < U32_MAX ==> executedActionCount == old(executedActionCount) + 1
      ensures old(executedActionCount) == U32_MAX ==> executedActionCount == U32_MAX
    {
      executedActionCount := SaturatingAdd(executedActionCount, 1);
    }
  }

  /** What the loop does to governed actions. */
  class ActionLog {
    var ran: seq<Proposal>
    var routed: seq<Proposal>

    constructor ()
      ensures ran == [] && routed == []
    {
      ran, routed := [], [];
    }
  }

  /** The execution of one proposal, and what the loop counts of it. */
  method ExecuteAndCount(tracker: ActionLoopTracker, log: ActionLog, summary: Summary, p: Proposal) returns (result: Option<Summary>)
    modifies tracker, log
    ensures var r := Execute(Round(old(tracker.executedActionCount), summary, [], [], false), p);
            && tracker.executedActionCount == r.count
            && log.ran == old(log.ran) + [p] && log.routed == old(log.routed)
            && result == if r.failed then None else Some(r.summary)
  {
    log.ran := log.ran + [p];
    match p.execution
    case ExecutionError(_) => return None;
    case StoppedByPolicy => return Some(Observed(summary, p, Blocked));
    case StartedThenBlocked => return Some(Observed(summary, p, Blocked));
    case RanExecuted =>
      tracker.RecordExecutedAction();
      return Some(Observed(summary, p, Executed));
    case RanFailed =>
      tracker.RecordExecutedAction();
      return Some(Observed(summary, p, Failed));
  }

  method ProcessGovernedActionProposals(config: Config, tracker: ActionLoopTracker, log: ActionLog, proposals: seq<Proposal>)
    returns (result: Option<Summary>)
    modifies tracker, log
    ensures var r := Processed(config, StartOfRound(old(tracker.executedActionCount), |proposals|), proposals);
            && tracker.executedActionCount == r.count
            && log.ran == old(log.ran) + r.ran && log.routed == old(log.routed) + r.routed
            && result == if r.failed then None else Some(r.summary)
  {
    var summary := NO_SUMMARY.(proposed := |proposals|);
    ghost var start := StartOfRound(tracker.executedActionCount, |proposals|);
    ghost var r := start;
    var i := 0;
    while i < |proposals|
      invariant 0 <= i <= |proposals|
      invariant r == Processed(config, start, proposals[..i]) && !r.failed
      invariant r.summary == summary && r.count == tracker.executedActionCount
      invariant log.ran == old(log.ran) + r.ran && log.routed == old(log.routed) + r.routed
    {
      var p := proposals[i];
      assert proposals[..i + 1][..i] == proposals[..i];
      ConcatIsAssociative(old(log.ran), r.ran, [p]);
      ConcatIsAssociative(old(log.routed), r.routed, [p]);
      r := ProcessOne(config, r, p);
      ProcessedStopsAtError(config, start, proposals, i + 1);
      i := i + 1;
      match p.planning
      case PlanError => return None;
      case PlanBlocked =>
        summary := Observed(summary, p, Blocked);
      case Planned(needsApproval) =>
        var requiresApproval := needsApproval;
        if tracker.AtCap(config) {
          if WritesAtCap(config, p) && p.capWritesFail {
            return None;
          }
          match config.behavior
          case AlwaysApprove =>
          case AlwaysDeny =>
            summary := Observed(summary, p, Blocked).(limitReached := true);
            continue;
          case Escalate =>
            requiresApproval := true;
        }
        if requiresApproval {
          if p.routingFails {
            return None;
          }
          log.routed := log.routed + [p];
          summary := summary.(pendingApproval := summary.pendingApproval + 1);
        } else {
          var executed := ExecuteAndCount(tracker, log, summary, p);
          if executed.None? {
            return None;
          }
          summary := executed.value;
        }
    }
    assert proposals[..|proposals|] == proposals;
    result := Some(summary);
  }

  lemma {:induction false} ProcessedStopsAtError(config: Config, r: Round, proposals: seq<Proposal>, n: nat)
    requires n <= |proposals|
    ensures Processed(config, r, proposals[..n]).failed ==> Processed(config, r, proposals) == Processed(config, r, proposals[..n])
    decreases |proposals| - n
  {
    if n == |proposals| {
      assert proposals[..n] == proposals;
    } else {
      assert proposals[..n + 1][..n] == proposals[..n];
      ProcessedStopsAtError(config, r, proposals, n + 1);
    }
  }

  method ExecuteConsciousTurn(config: Config, worker: Worker, initialCount: u32, context: seq<Observation>, log: ActionLog)
    returns (result: Option<Summary>)
    modifies log
    ensures var turn := WholeTurn(config, worker, initialCount, context);
            && log.ran == old(log.ran) + turn.ran && log.routed == old(log.routed) + turn.routed
            && result == if turn.status.Done? then Some(turn.merged) else None
  {
    var tracker := new ActionLoopTracker(initialCount);
    var merged := NO_SUMMARY;
    var limitFollowUpConsumed := false;
    var passes: u32 := 0;
    var shown := context;
    ghost var turn := StartOfTurn(initialCount, context);
    while true
      invariant turn.status.Running? && PassesLeft(config, turn)
      invariant RunTurn(config, worker, turn) == WholeTurn(config, worker, initialCount, context)
      invariant turn.passes == passes && turn.count == tracker.executedActionCount
      invariant turn.limitFollowUpConsumed == limitFollowUpConsumed && turn.context == shown && turn.merged == merged
      invariant log.ran == old(log.ran) + turn.ran && log.routed == old(log.routed) + turn.routed
      decreases MaxPasses(config) - passes
    {
      ghost var before := turn;
      turn := NextPass(config, worker, turn);
      passes := SaturatingAdd(passes, 1);
      var answer := worker(passes, shown, tracker.executedActionCount);
      if !answer.Proposals? {
        return None;
      }
      var round := ProcessGovernedActionProposals(config, tracker, log, answer.proposals);
      ConcatIsAssociative(old(log.ran), before.ran, turn.ran[|before.ran|..]);
      ConcatIsAssociative(old(log.routed), before.routed, turn.routed[|before.routed|..]);
      if round.None? {
        return None;
      }
      var shouldContinue := ShouldContinue(config, round.value, passes, limitFollowUpConsumed);
      if round.value.limitReached {
        limitFollowUpConsumed := true;
      }
      merged := merged.Merge(round.value);
      if !shouldContinue {
        return Some(merged);
      }
      shown := merged.observations;
    }
  }
}
