/**
 Governed actions as the program updates their tables: the statements of planning, routing, resolution
 and execution, each path equal to the steps of one thread that nobody interferes with.
 */
module GatedActionTables {
  import opened Text
  import opened Approvals
  import opened GatedActions
  import opened RoutingLimits

  /** The moves that route an action; one whose turn does not come has no effect. */
  function RouteSteps(pick: nat, form: NewRequest): seq<Step> {
    [LookUpPending(pick), CheckLimit(form), InsertRequest, Attach]
  }

  /** The moves of one resolution and what it starts. */
  function ResolutionSteps(attempt: Attempt, violatesPolicy: bool, outcome: Outcome): seq<Step> {
    [ResolveRequest(attempt), FindAction, SyncStatus, StartExecution(violatesPolicy), FinishExecution(outcome)]
  }

  function MovesOf(t: nat, steps: seq<Step>): (moves: seq<Move>)
    ensures |moves| == |steps| && forall i | 0 <= i < |steps| :: moves[i] == Move(t, steps[i])
  {
    seq(|steps|, i requires 0 <= i < |steps| => Move(t, steps[i]))
  }

  function InPhase(w: World, p: Phase): World {
    w.(threads := map[0 := p])
  }

  function AtRest(w: World): World {
    w.(threads := map[])
  }

  lemma {:induction false} MoveInPhase(w: World, p: Phase, step: Step)
    ensures Apply(InPhase(w, p), Move(0, step)) == ApplyIn(AtRest(w), 0, p, step)
  {
    assert InPhase(w, p).threads - {0} == map[];
  }

  lemma {:induction false} NoPhaseNoEffect(w: World, step: Step)
    requires !step.PlanAction? && !step.ResolveRequest? && !step.StartSweep? && !step.RecoverExecution?
    ensures Apply(AtRest(w), Move(0, step)) == AtRest(w)
  {
  }

  lemma {:induction false} WaitsForAttach(w: World, a: nat, r: nat, step: Step)
    requires !step.Attach? && !step.Crash?
    ensures Apply(InPhase(w, Attaching(a, r)), Move(0, step)) == InPhase(w, Attaching(a, r))
  {
    MoveInPhase(w, Attaching(a, r), step);
  }

  lemma {:induction false} AttachMove(w: World, a: nat, r: nat)
    ensures Apply(InPhase(w, Attaching(a, r)), Move(0, Attach)) == AtRest(w.(actions := AttachTo(w.actions, a, r)))
  {
    MoveInPhase(w, Attaching(a, r), Attach);
  }

  /** One thread takes two steps. */
  function Twice(w: World, first: Step, second: Step): World {
    Apply(Apply(w, Move(0, first)), Move(0, second))
  }

  function Routed(w: World, a: nat, pick: nat, form: NewRequest): World {
    After(InPhase(w, Routing(a)), MovesOf(0, RouteSteps(pick, form)))
  }

  lemma {:induction false} RoutedUnfolds(w: World, a: nat, pick: nat, form: NewRequest)
    ensures Routed(w, a, pick, form)
         == Twice(Twice(InPhase(w, Routing(a)), LookUpPending(pick), CheckLimit(form)), InsertRequest, Attach)
  {
    var w0 := InPhase(w, Routing(a));
    var first, second := [Move(0, LookUpPending(pick)), Move(0, CheckLimit(form))], [Move(0, InsertRequest), Move(0, Attach)];
    assert MovesOf(0, RouteSteps(pick, form)) == first + second;
    AfterConcat(w0, first, second);
    AfterTwo(w0, first[0], first[1]);
    AfterTwo(After(w0, first), second[0], second[1]);
  }

  lemma {:induction false} SharingSteps(w: World, a: nat, pick: nat, form: NewRequest)
    requires a < |w.actions| && IsPendingFor(w.tables.requests, w.actions[a].fingerprint, pick)
    ensures Twice(InPhase(w, Routing(a)), LookUpPending(pick), CheckLimit(form)) == InPhase(w, Attaching(a, pick))
  {
    MoveInPhase(w, Routing(a), LookUpPending(pick));
    WaitsForAttach(w, a, pick, CheckLimit(form));
  }

  /** Routing shares a pending request for the fingerprint. */
  lemma {:induction false} RoutingShares(w: World, a: nat, pick: nat, form: NewRequest)
    requires a < |w.actions| && IsPendingFor(w.tables.requests, w.actions[a].fingerprint, pick)
    ensures Routed(w, a, pick, form) == AtRest(w.(actions := AttachTo(w.actions, a, pick)))
  {
    RoutedUnfolds(w, a, pick, form);
    SharingSteps(w, a, pick, form);
    WaitsForAttach(w, a, pick, InsertRequest);
    AttachMove(w, a, pick);
  }

  predicate MayCreate(w: World, form: NewRequest) {
    ValidateNewRequest(form).None? && PendingCount(w.tables.requests) < w.maxPending
  }

  lemma {:induction false} CheckingSteps(w: World, a: nat, pick: nat, form: NewRequest)
    requires a < |w.actions| && !HasPending(w.tables.requests, w.actions[a].fingerprint)
    ensures Twice(InPhase(w, Routing(a)), LookUpPending(pick), CheckLimit(form))
         == if MayCreate(w, form) then InPhase(w, Inserting(a, form.(fingerprint := w.actions[a].fingerprint))) else AtRest(w)
  {
    assert !IsPendingFor(w.tables.requests, w.actions[a].fingerprint, pick);
    MoveInPhase(w, Routing(a), LookUpPending(pick));
    MoveInPhase(w, Creating(a), CheckLimit(form));
  }

  function WithNewRequest(w: World, form: NewRequest): World {
    w.(tables := w.tables.(requests := w.tables.requests + [Opened(form)]))
  }

  lemma {:induction false} InsertingSteps(w: World, a: nat, form: NewRequest)
    ensures Twice(InPhase(w, Inserting(a, form)), InsertRequest, Attach)
         == if IsRefused(w.tables.requests, form) then AtRest(w)
            else AtRest(WithNewRequest(w, form).(actions := AttachTo(w.actions, a, |w.tables.requests|)))
  {
    MoveInPhase(w, Inserting(a, form), InsertRequest);
    if IsRefused(w.tables.requests, form) {
      NoPhaseNoEffect(w, Attach);
    } else {
      AttachMove(WithNewRequest(w, form), a, |w.tables.requests|);
    }
  }

  /** Without one it creates one, unless the form is invalid, the limit is reached, or the token is taken. */
  lemma {:induction false} RoutingCreates(w: World, a: nat, pick: nat, form: NewRequest)
    requires a < |w.actions| && !HasPending(w.tables.requests, w.actions[a].fingerprint)
    ensures Routed(w, a, pick, form) ==
            if MayCreate(w, form) && FindByToken(w.tables.requests, form.token).None? then
              AtRest(WithNewRequest(w, form.(fingerprint := w.actions[a].fingerprint)).(
                       actions := AttachTo(w.actions, a, |w.tables.requests|)))
            else AtRest(w)
  {
    RoutedUnfolds(w, a, pick, form);
    CheckingSteps(w, a, pick, form);
    InsertingSteps(w, a, form.(fingerprint := w.actions[a].fingerprint));
    NoPhaseNoEffect(w, InsertRequest);
    NoPhaseNoEffect(w, Attach);
  }

  /** Execution of a ready action, approved or never gated: blocked by the policy check, or run to its outcome. */
  lemma {:induction false} RunSteps(w: World, a: nat, via: Option<nat>, violatesPolicy: bool, outcome: Outcome)
    ensures Apply(InPhase(w, Ready(a, via)), Move(0, StartExecution(violatesPolicy))) ==
            if violatesPolicy then AtRest(w.(actions := SetStatus(w.actions, a, ActionStatus.Blocked)))
            else InPhase(Started(w, a, via), Running(a))
    ensures Twice(InPhase(w, Ready(a, via)), StartExecution(violatesPolicy), FinishExecution(outcome)) ==
            if violatesPolicy then AtRest(w.(actions := SetStatus(w.actions, a, ActionStatus.Blocked)))
            else AtRest(w.(actions := SetStatus(w.actions, a, outcome.EndsAs()),
                           executions := w.executions + [Execution(a, via)]))
  {
    MoveInPhase(w, Ready(a, via), StartExecution(violatesPolicy));
    if violatesPolicy {
      NoPhaseNoEffect(w.(actions := SetStatus(w.actions, a, ActionStatus.Blocked)), FinishExecution(outcome));
    } else {
      MoveInPhase(Started(w, a, via), Running(a), FinishExecution(outcome));
    }
  }

  const RESOLUTION_STEPS := 5

  /** The world after the first `n` steps of a resolution that nobody interferes with. */
  function ResolutionProgress(w: World, attempt: Attempt, violatesPolicy: bool, outcome: Outcome, n: nat): World
    requires n <= RESOLUTION_STEPS
  {
    match PlanResolution(w.tables, attempt)
    case Err(_) => AtRest(w)
    case Ok(event) =>
      var resolved := w.(tables := Resolve(w.tables, attempt));
      if n == 0 then AtRest(w)
      else if n == 1 then InPhase(resolved, Resolved(event.request, event.decision))
      else
        match NewestAttached(w.actions, event.request)
        case None => AtRest(resolved)
        case Some(a) => SyncProgress(resolved, a, event.request, event.decision, violatesPolicy, outcome, n)
  }

  function SyncProgress(
    w: World, a: nat, r: nat, decision: Decision, violatesPolicy: bool, outcome: Outcome, n: nat): World
  {
    var synced := w.(actions := SetStatus(w.actions, a, StatusAfter(decision)));
    if n <= 2 then InPhase(w, Syncing(a, r, decision))
    else if !decision.Approved? then AtRest(synced)
    else if n == 3 then InPhase(synced, Ready(a, Some(r)))
    else if violatesPolicy then AtRest(synced.(actions := SetStatus(synced.actions, a, ActionStatus.Blocked)))
    else if n == 4 then InPhase(Started(synced, a, Some(r)), Running(a))
    else AtRest(Started(synced, a, Some(r)).(actions := SetStatus(synced.actions, a, outcome.EndsAs())))
  }

  lemma {:induction false} SyncMoveInPhase(w: World, a: nat, r: nat, decision: Decision)
    ensures Apply(InPhase(w, Syncing(a, r, decision)), Move(0, SyncStatus)) ==
            if decision.Approved? then InPhase(w.(actions := SetStatus(w.actions, a, StatusAfter(decision))), Ready(a, Some(r)))
            else AtRest(w.(actions := SetStatus(w.actions, a, StatusAfter(decision))))
  {
    MoveInPhase(w, Syncing(a, r, decision), SyncStatus);
  }

  lemma {:induction false} FinishMoveInPhase(w: World, a: nat, outcome: Outcome)
    ensures Apply(InPhase(w, Running(a)), Move(0, FinishExecution(outcome)))
         == AtRest(w.(actions := SetStatus(w.actions, a, outcome.EndsAs())))
  {
    MoveInPhase(w, Running(a), FinishExecution(outcome));
  }

  lemma {:induction false} SyncProgressStep(
    w: World, a: nat, r: nat, decision: Decision, violatesPolicy: bool, outcome: Outcome, n: nat, step: Step)
    requires n == 2 ==> step == SyncStatus
    requires n == 3 ==> step == StartExecution(violatesPolicy)
    requires n == 4 ==> step == FinishExecution(outcome)
    requires 2 <= n < RESOLUTION_STEPS
    ensures Apply(SyncProgress(w, a, r, decision, violatesPolicy, outcome, n), Move(0, step))
         == SyncProgress(w, a, r, decision, violatesPolicy, outcome, n + 1)
  {
    var synced := w.(actions := SetStatus(w.actions, a, StatusAfter(decision)));
    if n == 2 {
      SyncMoveInPhase(w, a, r, decision);
    } else if !decision.Approved? {
      NoPhaseNoEffect(synced, step);
    } else if n == 3 {
      RunSteps(synced, a, Some(r), violatesPolicy, outcome);
    } else if violatesPolicy {
      NoPhaseNoEffect(synced.(actions := SetStatus(synced.actions, a, ActionStatus.Blocked)), step);
    } else {
      FinishMoveInPhase(Started(synced, a, Some(r)), a, outcome);
    }
  }

  lemma {:induction false} ResolveStep(w: World, attempt: Attempt)
    ensures Apply(AtRest(w), Move(0, ResolveRequest(attempt))) ==
            match PlanResolution(w.tables, attempt)
            case Err(_) => AtRest(w)
            case Ok(event) => InPhase(w.(tables := Resolve(w.tables, attempt)), Resolved(event.request, event.decision))
  {
  }

  lemma {:induction false} FindMoveInPhase(w: World, r: nat, decision: Decision)
    ensures Apply(InPhase(w, Resolved(r, decision)), Move(0, FindAction)) ==
            match NewestAttached(w.actions, r)
            case None => AtRest(w)
            case Some(a) => InPhase(w, Syncing(a, r, decision))
  {
    MoveInPhase(w, Resolved(r, decision), FindAction);
  }

  lemma {:induction false} CommittedProgressStep(
    w: World, attempt: Attempt, violatesPolicy: bool, outcome: Outcome, n: nat, step: Step, event: Event)
    requires PlanResolution(w.tables, attempt) == Ok(event)
    requires 1 <= n < RESOLUTION_STEPS && step == ResolutionSteps(attempt, violatesPolicy, outcome)[n]
    ensures Apply(ResolutionProgress(w, attempt, violatesPolicy, outcome, n), Move(0, step))
         == ResolutionProgress(w, attempt, violatesPolicy, outcome, n + 1)
  {
    var resolved := w.(tables := Resolve(w.tables, attempt));
    if n == 1 {
      FindMoveInPhase(resolved, event.request, event.decision);
    } else {
      match NewestAttached(w.actions, event.request)
      case None => NoPhaseNoEffect(resolved, step);
      case Some(a) => SyncProgressStep(resolved, a, event.request, event.decision, violatesPolicy, outcome, n, step);
    }
  }

  lemma {:induction false} ResolutionProgressStep(
    w: World, attempt: Attempt, violatesPolicy: bool, outcome: Outcome, n: nat, step: Step)
    requires n < RESOLUTION_STEPS && step == ResolutionSteps(attempt, violatesPolicy, outcome)[n]
    ensures Apply(ResolutionProgress(w, attempt, violatesPolicy, outcome, n), Move(0, step))
         == ResolutionProgress(w, attempt, violatesPolicy, outcome, n + 1)
  {
    if n == 0 {
      ResolveStep(w, attempt);
    } else {
      match PlanResolution(w.tables, attempt)
      case Err(_) => NoPhaseNoEffect(w, step);
      case Ok(event) => CommittedProgressStep(w, attempt, violatesPolicy, outcome, n, step, event);
    }
  }

  /** The state after the first `n` steps of a resolution. */
  function AfterResolution(w: World, attempt: Attempt, violatesPolicy: bool, outcome: Outcome, n: nat): World
    requires n <= RESOLUTION_STEPS
  {
    After(AtRest(w), MovesOf(0, ResolutionSteps(attempt, violatesPolicy, outcome)[..n]))
  }

  lemma {:induction false} ResolutionUnfolds(w: World, attempt: Attempt, violatesPolicy: bool, outcome: Outcome, n: nat)
    requires n <= RESOLUTION_STEPS
    ensures AfterResolution(w, attempt, violatesPolicy, outcome, n)
         == ResolutionProgress(w, attempt, violatesPolicy, outcome, n)
  {
    var steps := ResolutionSteps(attempt, violatesPolicy, outcome);
    if n == 0 {
      assert MovesOf(0, steps[..0]) == [];
    } else {
      ResolutionUnfolds(w, attempt, violatesPolicy, outcome, n - 1);
      ResolutionProgressStep(w, attempt, violatesPolicy, outcome, n - 1, steps[n - 1]);
      AfterOneMore(AtRest(w), MovesOf(0, steps[..n - 1]), Move(0, steps[n - 1]));
      assert MovesOf(0, steps[..n]) == MovesOf(0, steps[..n - 1]) + [Move(0, steps[n - 1])];
    }
  }

  /** An attempt that is refused, or that resolves a request no action waits for, starts nothing. */
  lemma {:induction false} NothingToStart(w: World, attempt: Attempt, violatesPolicy: bool, outcome: Outcome)
    requires PlanResolution(w.tables, attempt).Ok? ==>
               NewestAttached(w.actions, PlanResolution(w.tables, attempt).value.request).None?
    ensures AfterResolution(w, attempt, violatesPolicy, outcome, RESOLUTION_STEPS)
         == AtRest(w.(tables := Resolve(w.tables, attempt)))
  {
    ResolutionUnfolds(w, attempt, violatesPolicy, outcome, RESOLUTION_STEPS);
  }

  function StatusAfterRun(decision: Decision, violatesPolicy: bool, outcome: Outcome): ActionStatus {
    if !decision.Approved? then StatusAfter(decision)
    else if violatesPolicy then ActionStatus.Blocked
    else outcome.EndsAs()
  }

  /** A resolved request's newest action takes the decision's status; only an approval goes on to run it. */
  lemma {:induction false} DecisionReachesTheNewest(
    w: World, attempt: Attempt, violatesPolicy: bool, outcome: Outcome, event: Event, a: nat)
    requires PlanResolution(w.tables, attempt) == Ok(event) && NewestAttached(w.actions, event.request) == Some(a)
    ensures AfterResolution(w, attempt, violatesPolicy, outcome, RESOLUTION_STEPS) ==
            AtRest(w.(tables := Resolve(w.tables, attempt),
                      actions := SetStatus(w.actions, a, StatusAfterRun(event.decision, violatesPolicy, outcome)),
                      executions := if event.decision.Approved? && !violatesPolicy
                                    then w.executions + [Execution(a, Some(event.request))]
                                    else w.executions))
  {
    ResolutionUnfolds(w, attempt, violatesPolicy, outcome, RESOLUTION_STEPS);
  }

  /** A sweep takes its requests one by one. */
  function SweepMoves(t: nat, n: nat): (moves: seq<Move>)
    ensures |moves| == n
  {
    seq(n, _ => Move(t, SweepNext))
  }

  lemma {:induction false} SweepMove(w: World, t: nat, now: int, due: seq<nat>)
    requires t in w.threads && w.threads[t] == Sweeping(now, due) && due != []
    ensures Apply(w, Move(t, SweepNext)) == At(w.(tables := ExpireOne(w.tables, due[0], now)), t, Sweeping(now, due[1..]))
  {
    assert (w.threads - {t})[t := Sweeping(now, due[1..])] == w.threads[t := Sweeping(now, due[1..])];
  }

  /** The first `n` requests of the list are expired. */
  function Swept(w: World, t: nat, now: int, due: seq<nat>, n: nat): World
    requires n <= |due|
  {
    At(w.(tables := ExpireAll(w.tables, due[..n], now)), t, Sweeping(now, due[n..]))
  }

  lemma {:induction false} SweptOnceMore(w: World, t: nat, now: int, due: seq<nat>, n: nat)
    requires n < |due|
    ensures Apply(Swept(w, t, now, due, n), Move(t, SweepNext)) == Swept(w, t, now, due, n + 1)
  {
    var before := Swept(w, t, now, due, n);
    SweepMove(before, t, now, due[n..]);
    ExpiredOnceMore(w.tables, due, n, now);
    assert due[n..][1..] == due[n + 1..];
    assert before.threads[t := Sweeping(now, due[n + 1..])] == w.threads[t := Sweeping(now, due[n + 1..])];
  }

  /** A sweep that nobody disturbs expires all the requests of its list, in order, and those only. */
  lemma {:induction false} SweepsExpireTheirList(w: World, t: nat, now: int, due: seq<nat>, n: nat)
    requires t in w.threads && w.threads[t] == Sweeping(now, due) && n <= |due|
    ensures After(w, SweepMoves(t, n)) == Swept(w, t, now, due, n)
  {
    if n == 0 {
      assert w.threads[t := Sweeping(now, due[0..])] == w.threads;
    } else {
      SweepsExpireTheirList(w, t, now, due, n - 1);
      assert SweepMoves(t, n) == SweepMoves(t, n - 1) + [Move(t, SweepNext)];
      AfterOneMore(w, SweepMoves(t, n - 1), Move(t, SweepNext));
      SweptOnceMore(w, t, now, due, n - 1);
    }
  }

  /** Planning and routing of an action that needs approval, in one thread. */
  function PlanAndRoute(form: NewRequest): seq<Move> {
    PlanAndDecide(0, form) + MovesOf(0, RouteSteps(0, form))
  }

  function WithAction(w: World, form: NewRequest): World {
    w.(actions := w.actions + [Action(form.fingerprint, AwaitingApproval, None)], gated := w.gated + {|w.actions|})
  }

  lemma {:induction false} PlanAndRouteMoves(w: World, form: NewRequest)
    ensures After(AtRest(w), PlanAndRoute(form)) == Routed(WithAction(w, form), |w.actions|, 0, form)
  {
    PlanAndDecideMoves(AtRest(w), 0, form);
    assert After(AtRest(w), PlanAndDecide(0, form)) == InPhase(WithAction(w, form), Routing(|w.actions|));
    AfterConcat(AtRest(w), PlanAndDecide(0, form), MovesOf(0, RouteSteps(0, form)));
  }

  /** Two actions with one fingerprint are planned and routed, and their request is approved. */
  function SharedApproval(form: NewRequest, attempt: Attempt): seq<Move> {
    PlanAndRoute(form) + PlanAndRoute(form) + [Move(0, ResolveRequest(attempt))]
  }

  /** The attempt approves a request with this form. */
  predicate Approves(form: NewRequest, attempt: Attempt) {
    && ValidateNewRequest(form).None? && ValidateAttempt(attempt).None?
    && attempt.token == form.token && attempt.expectedFingerprint == form.fingerprint
    && attempt.resolvedAt < form.expiresAt && attempt.decision.Approved?
    && ParseActorRef(form.requestedBy).Ok? && ParseActorRef(attempt.actorRef).Ok?
    && ParseActorRef(form.requestedBy).value.principal == ParseActorRef(attempt.actorRef).value.principal
  }

  /** Such forms and attempts exist. */
  lemma {:induction false} ApprovalIsPossible(form: NewRequest, attempt: Attempt)
    requires form.fingerprint == attempt.expectedFingerprint && form.token == attempt.token && attempt.decision.Approved?
    requires IsTrimmed(form.title) && form.title != "" && IsTrimmed(form.consequenceSummary) && form.consequenceSummary != ""
    requires IsTrimmed(form.token) && form.token != ""
    requires form.requestedBy == "telegram:1" && attempt.actorRef == "telegram:1"
    requires form.requestedAt <= attempt.resolvedAt < form.expiresAt
    ensures Approves(form, attempt)
  {
    TrimIsIdempotent(form.title);
    TrimIsIdempotent(form.consequenceSummary);
    TrimIsIdempotent(form.token);
    TrimIsIdempotent(form.requestedBy);
    ParsedActorIffWritten(form.requestedBy, Actor("telegram", "1"));
  }

  lemma {:induction false} FirstActionRoutes(maxPending: nat, form: NewRequest)
    requires maxPending > 0 && ValidateNewRequest(form).None?
    ensures After(Init(maxPending), PlanAndRoute(form))
         == World(maxPending, Tables([Opened(form)], []), [Action(form.fingerprint, AwaitingApproval, Some(0))], [], {0}, map[])
  {
    var w := Init(maxPending);
    PlanAndRouteMoves(w, form);
    RoutingCreates(WithAction(w, form), 0, 0, form);
    assert form.(fingerprint := form.fingerprint) == form;
    assert AtRest(w) == w;
  }

  lemma {:induction false} SecondActionShares(w: World, form: NewRequest)
    requires w.threads == map[] && IsPendingFor(w.tables.requests, form.fingerprint, 0)
    ensures After(w, PlanAndRoute(form))
         == AtRest(w.(actions := w.actions + [Action(form.fingerprint, AwaitingApproval, Some(0))], gated := w.gated + {|w.actions|}))
  {
    assert AtRest(w) == w;
    PlanAndRouteMoves(w, form);
    RoutingShares(WithAction(w, form), |w.actions|, 0, form);
    assert AttachTo(WithAction(w, form).actions, |w.actions|, 0)
        == w.actions + [Action(form.fingerprint, AwaitingApproval, Some(0))];
  }

  lemma {:induction false} ApprovalResolves(form: NewRequest, attempt: Attempt)
    requires Approves(form, attempt)
    ensures PlanResolution(Tables([Opened(form)], []), attempt)
         == Ok(Event(0, Decision.Approved, attempt.actorRef, attempt.resolvedAt, attempt.reason))
  {
    var requests := [Opened(form)];
    assert requests[0].details.token == attempt.token;
  }

  lemma {:induction false} BothActionsRoute(maxPending: nat, form: NewRequest)
    requires maxPending > 0 && ValidateNewRequest(form).None?
    ensures var action := Action(form.fingerprint, AwaitingApproval, Some(0));
            After(Init(maxPending), PlanAndRoute(form) + PlanAndRoute(form))
            == World(maxPending, Tables([Opened(form)], []), [action, action], [], {0, 1}, map[])
  {
    var action := Action(form.fingerprint, AwaitingApproval, Some(0));
    var w1 := World(maxPending, Tables([Opened(form)], []), [action], [], {0}, map[]);
    FirstActionRoutes(maxPending, form);
    SecondActionShares(w1, form);
    AfterParts(Init(maxPending), PlanAndRoute(form), w1, PlanAndRoute(form),
               World(maxPending, Tables([Opened(form)], []), [action, action], [], {0, 1}, map[]));
  }

  lemma {:induction false} SharedRequestIsApproved(maxPending: nat, form: NewRequest, attempt: Attempt)
    requires maxPending > 0 && Approves(form, attempt)
    ensures var w := After(Init(maxPending), SharedApproval(form, attempt));
            var action := Action(form.fingerprint, AwaitingApproval, Some(0));
            && w.threads == map[0 := Resolved(0, Decision.Approved)]
            && w.actions == [action, action] && w.executions == []
  {
    var action := Action(form.fingerprint, AwaitingApproval, Some(0));
    var w2 := World(maxPending, Tables([Opened(form)], []), [action, action], [], {0, 1}, map[]);
    BothActionsRoute(maxPending, form);
    AfterOneMore(Init(maxPending), PlanAndRoute(form) + PlanAndRoute(form), Move(0, ResolveRequest(attempt)));
    ApprovalResolves(form, attempt);
    assert AtRest(w2) == w2;
    ResolveStep(w2, attempt);
  }

  /** The approval reaches the second action; the first one waits for ever. */
  lemma {:induction false} SharedApprovalStrandsTheFirst(maxPending: nat, form: NewRequest, attempt: Attempt, more: seq<Move>)
    requires maxPending > 0 && Approves(form, attempt)
    ensures var w := After(After(Init(maxPending), SharedApproval(form, attempt)), StartApproved(0));
            && w.executions == [Execution(1, Some(0))]
            && IsStranded(After(w, more), 0)
            && After(w, more).actions[0] == Action(form.fingerprint, AwaitingApproval, Some(0))
  {
    var w := After(Init(maxPending), SharedApproval(form, attempt));
    SharedRequestIsApproved(maxPending, form, attempt);
    EveryRunKeepsInv(maxPending, SharedApproval(form, attempt));
    StrandTheFirst(w, Action(form.fingerprint, AwaitingApproval, Some(0)), more);
  }

  lemma {:induction false} StrandTheFirst(w: World, action: Action, more: seq<Move>)
    requires Inv(w) && w.threads == map[0 := Resolved(0, Decision.Approved)] && w.executions == []
    requires w.actions == [action, action] && action.request == Some(0)
    ensures After(w, StartApproved(0)).executions == [Execution(1, Some(0))]
    ensures IsStranded(After(After(w, StartApproved(0)), more), 0)
    ensures After(After(w, StartApproved(0)), more).actions[0] == action
  {
    SecondIsNewest(w.actions, action);
    ApprovalStartsTheNewest(w, 0, 0, 1);
    ApprovalStrandsOlderActions(w, 0, 0);
    AfterKeepsInvAndFollows(w, StartApproved(0));
    StrandedActionsWaitForever(After(w, StartApproved(0)), more, 0);
  }

  lemma {:induction false} SecondIsNewest(actions: seq<Action>, action: Action)
    requires actions == [action, action] && action.request == Some(0)
    ensures NewestAttached(actions, 0) == Some(1)
  {
    assert actions[1].request == Some(0);
  }

  function PendingFor(requests: seq<Request>, fingerprint: Fingerprint): (r: Option<nat>)
    ensures r.Some? <==> HasPending(requests, fingerprint)
    ensures r.Some? ==> IsPendingFor(requests, fingerprint, r.value)
  {
    if requests == [] then None
    else
      var last := |requests| - 1;
      PendingInPrefix(requests, fingerprint);
      if IsPendingFor(requests, fingerprint, last) then Some(last)
      else PendingFor(requests[..last], fingerprint)
  }

  lemma {:induction false} PendingInPrefix(requests: seq<Request>, fingerprint: Fingerprint)
    requires requests != []
    ensures var last := |requests| - 1;
            HasPending(requests, fingerprint)
            <==> IsPendingFor(requests, fingerprint, last) || HasPending(requests[..last], fingerprint)
  {
    var last := |requests| - 1;
    if r :| 0 <= r < last && IsPendingFor(requests, fingerprint, r) {
      assert IsPendingFor(requests[..last], fingerprint, r);
    }
    if r :| 0 <= r < last && IsPendingFor(requests[..last], fingerprint, r) {
      assert IsPendingFor(requests, fingerprint, r);
    }
  }

  class GovernedActions {
    const approvals: ApprovalRequests
    var actions: seq<Action>
    var executions: seq<Execution>
    ghost var gated: set<nat>

    constructor (maxPending: nat)
      ensures fresh(approvals) && WorldAmid(map[]) == Init(maxPending)
    {
      approvals := new ApprovalRequests(maxPending);
      actions, executions, gated := [], [], {};
    }

    /** The tables, and what threads are doing. */
    ghost function WorldAmid(phases: map<nat, Phase>): World
      reads this, approvals
    {
      World(approvals.maxPendingRequests, approvals.Contents(), actions, executions, gated, phases)
    }

    method PlanGovernedAction(fingerprint: Fingerprint, violatesPolicy: bool, needsApproval: bool) returns (planned: Option<nat>)
      modifies this
      ensures WorldAmid(if planned.Some? then map[0 := Planned(planned.value, needsApproval)] else map[])
           == Apply(old(WorldAmid(map[])), Move(0, PlanAction(fingerprint, violatesPolicy, needsApproval)))
      ensures planned == if violatesPolicy then None else Some(|old(actions)|)
    {
      var status := if violatesPolicy then ActionStatus.Blocked else if needsApproval then AwaitingApproval else Proposed;
      planned := if violatesPolicy then None else Some(|actions|);
      gated := if needsApproval then gated + {|actions|} else gated;
      actions := actions + [Action(fingerprint, status, None)];
    }

    /** An action's row as the table has it, with another status; every other row and column is as it was. */
    method UpdateStatus(action: nat, status: ActionStatus)
      requires action < |actions|
      modifies this`actions
      ensures |actions| == |old(actions)| && actions[action] == old(actions)[action].(status := status)
      ensures forall a | 0 <= a < |actions| && a != action :: actions[a] == old(actions)[a]
    {
      actions := actions[action := actions[action].(status := status)];
    }

    method AttachApprovalRequest(action: nat, request: nat)
      requires action < |actions|
      modifies this`actions
      ensures |actions| == |old(actions)| && actions[action] == old(actions)[action].(request := Some(request))
      ensures forall a | 0 <= a < |actions| && a != action :: actions[a] == old(actions)[a]
    {
      actions := actions[action := actions[action].(request := Some(request))];
    }

    /** Routing: a pending request for the same fingerprint is shared, otherwise one is created under the limit. */
    method RouteForApproval(action: nat, form: NewRequest) returns (r: Result<nat, Error>, ghost pick: nat)
      requires action < |actions|
      modifies this`actions, approvals
      ensures WorldAmid(map[]) == Routed(old(WorldAmid(map[])), action, pick, form)
      ensures |actions| == |old(actions)|
      ensures r.Ok? ==>
                && IsPendingFor(approvals.requests, actions[action].fingerprint, r.value)
                && actions[action].request == Some(r.value)
      ensures r.Err? ==> actions == old(actions) && approvals.requests == old(approvals.requests)
    {
      var fingerprint := actions[action].fingerprint;
      var found := PendingFor(approvals.requests, fingerprint);
      if found.Some? {
        pick := found.value;
        RoutingShares(WorldAmid(map[]), action, pick, form);
        r := Ok(found.value);
      } else {
        pick := 0;
        RoutingCreates(WorldAmid(map[]), action, pick, form);
        r := approvals.CreateApprovalRequest(form.(fingerprint := fingerprint));
      }
      if r.Ok? {
        AttachApprovalRequest(action, r.value);
        assert actions == AttachTo(old(actions), action, r.value);
      }
    }

    /** An execution; without an outcome an error or a crash after the recorded start leaves no final status. */
    method ExecuteGovernedAction(action: nat, via: Option<nat>, violatesPolicy: bool, outcome: Option<Outcome>)
      requires action < |actions|
      modifies this`actions, this`executions
      ensures |actions| == |old(actions)|
      ensures var ready := old(WorldAmid(map[0 := Ready(action, via)]));
              var after := if outcome.Some? then Twice(ready, StartExecution(violatesPolicy), FinishExecution(outcome.value))
                           else Apply(ready, Move(0, StartExecution(violatesPolicy)));
              WorldAmid(after.threads) == after
    {
      RunSteps(WorldAmid(map[]), action, via, violatesPolicy, outcome.GetOr(Fails));
      if violatesPolicy {
        UpdateStatus(action, ActionStatus.Blocked);
        assert actions == SetStatus(old(actions), action, ActionStatus.Blocked);
        return;
      }
      UpdateStatus(action, if via.Some? then ActionStatus.Approved else Proposed);
      executions := executions + [Execution(action, via)];
      assert actions == SetStatus(old(actions), action, if via.Some? then ActionStatus.Approved else Proposed);
      if outcome.Some? {
        UpdateStatus(action, outcome.value.EndsAs());
        assert actions == SetStatus(old(actions), action, outcome.value.EndsAs());
      }
    }

    /**
     Resolution by a user, which fails or stops after the first `n` of: the transaction, the search for the
     newest waiting action, the write of its status, and on approval the start and the end of its execution.
     */
    method ResolveApproval(attempt: Attempt, violatesPolicy: bool, outcome: Outcome, n: nat)
      requires n <= RESOLUTION_STEPS
      modifies this`actions, this`executions, approvals
      ensures var after := AfterResolution(old(WorldAmid(map[])), attempt, violatesPolicy, outcome, n);
              WorldAmid(after.threads) == after
    {
      ghost var before := WorldAmid(map[]);
      ResolutionUnfolds(before, attempt, violatesPolicy, outcome, n);
      if n == 0 {
        return;
      }
      var resolved := approvals.ResolveApprovalRequest(attempt);
      if resolved.Err? || n == 1 {
        return;
      }
      var request, decision := resolved.value.request, resolved.value.decision;
      var newest := NewestAttached(actions, request);
      if newest.None? || n == 2 {
        return;
      }
      UpdateStatus(newest.value, StatusAfter(decision));
      assert actions == SetStatus(old(actions), newest.value, StatusAfter(decision));
      if !decision.Approved? || n == 3 {
        return;
      }
      RunSteps(WorldAmid(map[]), newest.value, Some(request), violatesPolicy, outcome);
      ExecuteGovernedAction(newest.value, Some(request), violatesPolicy, if n == 4 then None else Some(outcome));
    }
  }
}
