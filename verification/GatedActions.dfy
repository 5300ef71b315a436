/**
 Governed actions that need approval: planning, routing to an approval request, resolution, and
 execution, interleaved with each other, with expiry sweeps, with recovery, and with crashes.

 Each step is one committed transaction or one statement outside of any. Rows are numbered in
 insertion order. `executions` and `gated` are a history: which actions were started, after which
 request's approval, and which actions were planned as needing approval or escalated at the cap.
 */
module GatedActions {
  import opened Text
  import opened Approvals
  import opened ActionCap

  datatype ActionStatus =
    | Proposed
    | AwaitingApproval
    | Approved
    | Rejected
    | Expired
    | Invalidated
    | Blocked
    | Executed
    | Failed

  datatype Action = Action(fingerprint: Fingerprint, status: ActionStatus, request: Option<nat>)

  datatype Execution = Execution(action: nat, via: Option<nat>)

  datatype Outcome = Succeeds | Fails | IsBlocked {
    function EndsAs(): ActionStatus {
      match this
      case Succeeds => ActionStatus.Executed
      case Fails => ActionStatus.Failed
      case IsBlocked => ActionStatus.Blocked
    }
  }

  datatype Phase =
    | Planned(action: nat, needsApproval: bool)
    | Routing(action: nat)
    | Creating(action: nat)                              // no pending request with the fingerprint was found
    | Inserting(action: nat, form: NewRequest)           // the pending count was below the limit
    | Attaching(action: nat, request: nat)
    | Ready(action: nat, via: Option<nat>)
    | Running(action: nat)
    | Resolved(request: nat, decision: Decision)
    | Syncing(action: nat, request: nat, decision: Decision)
    | Sweeping(now: int, due: seq<nat>)

  datatype World = World(
    maxPending: nat,
    tables: Tables,
    actions: seq<Action>,
    executions: seq<Execution>,
    gated: set<nat>,
    threads: map<nat, Phase>)

  datatype Step =
    | PlanAction(fingerprint: Fingerprint, violatesPolicy: bool, needsApproval: bool)
    | Decide(atCap: bool, behavior: CapBehavior)
    | LookUpPending(pick: nat)
    | CheckLimit(form: NewRequest)
    | InsertRequest
    | Attach
    | ResolveRequest(attempt: Attempt)
    | FindAction
    | SyncStatus
    | StartExecution(violatesPolicy: bool)
    | FinishExecution(outcome: Outcome)
    | StartSweep(now: int)
    | SweepNext
    | RecoverExecution(action: nat, safeReplay: bool, evidence: Option<Outcome>)
    | Crash

  datatype Move = Move(thread: nat, step: Step)

  // ----- The steps ------------------------------------------------------------------------------------

  function StatusAfter(decision: Decision): ActionStatus {
    match decision
    case Approved => ActionStatus.Approved
    case Rejected => ActionStatus.Rejected
    case Expired => ActionStatus.Expired
    case Invalidated => ActionStatus.Invalidated
  }

  /** The newest action attached to a request. */
  function NewestAttached(actions: seq<Action>, request: nat): (a: Option<nat>)
    ensures a.Some? ==> a.value < |actions| && actions[a.value].request == Some(request)
    ensures forall b | 0 <= b < |actions| && actions[b].request == Some(request) :: a.Some? && b <= a.value
  {
    if actions == [] then None
    else
      var last := |actions| - 1;
      if actions[last].request == Some(request) then Some(last)
      else
        assert forall b | 0 <= b < last :: actions[b] == actions[..last][b];
        NewestAttached(actions[..last], request)
  }

  function SetStatus(actions: seq<Action>, action: nat, status: ActionStatus): seq<Action> {
    if action < |actions| then actions[action := actions[action].(status := status)] else actions
  }

  function AttachTo(actions: seq<Action>, action: nat, request: nat): seq<Action> {
    if action < |actions| then actions[action := actions[action].(request := Some(request))] else actions
  }

  function Idle(w: World, t: nat): World {
    w.(threads := w.threads - {t})
  }

  function At(w: World, t: nat, phase: Phase): World {
    w.(threads := w.threads[t := phase])
  }

  function Plan(w: World, t: nat, fingerprint: Fingerprint, violatesPolicy: bool, needsApproval: bool): World {
    var status := if violatesPolicy then ActionStatus.Blocked
                  else if needsApproval then AwaitingApproval
                  else Proposed;
    var planned := w.(
      actions := w.actions + [Action(fingerprint, status, None)],
      gated := if needsApproval then w.gated + {|w.actions|} else w.gated);
    if violatesPolicy then planned else At(planned, t, Planned(|w.actions|, needsApproval))
  }

  function DecideRoute(w: World, t: nat, action: nat, needsApproval: bool, atCap: bool, behavior: CapBehavior): World {
    if atCap && behavior.AlwaysDeny? then
      Idle(w.(actions := SetStatus(w.actions, action, ActionStatus.Blocked)), t)
    else if atCap && behavior.Escalate? then
      At(w.(actions := if needsApproval then w.actions else SetStatus(w.actions, action, AwaitingApproval),
            gated := w.gated + {action}),
         t, Routing(action))
    else if needsApproval then At(w, t, Routing(action))
    else At(w, t, Ready(action, None))
  }

  function LookUp(w: World, t: nat, action: nat, pick: nat): World {
    if action >= |w.actions| then Idle(w, t)
    else
      var fingerprint := w.actions[action].fingerprint;
      if IsPendingFor(w.tables.requests, fingerprint, pick) then At(w, t, Attaching(action, pick))
      else if HasPending(w.tables.requests, fingerprint) then At(w, t, Routing(action))
      else At(w, t, Creating(action))
  }

  function Check(w: World, t: nat, action: nat, form: NewRequest): World {
    if action >= |w.actions| then Idle(w, t)
    else if ValidateNewRequest(form).Some? || PendingCount(w.tables.requests) >= w.maxPending then Idle(w, t)
    else At(w, t, Inserting(action, form.(fingerprint := w.actions[action].fingerprint)))
  }

  /** An insert that the unique indexes refuse ends its thread with an error. */
  function Insert(w: World, t: nat, action: nat, form: NewRequest): World {
    if IsRefused(w.tables.requests, form) then Idle(w, t)
    else At(w.(tables := w.tables.(requests := w.tables.requests + [Opened(form)])), t, Attaching(action, |w.tables.requests|))
  }

  function ResolveAs(w: World, t: nat, attempt: Attempt): World {
    match PlanResolution(w.tables, attempt)
    case Err(_) => w
    case Ok(event) => At(w.(tables := Recorded(w.tables, event)), t, Resolved(event.request, event.decision))
  }

  function Find(w: World, t: nat, request: nat, decision: Decision): World {
    var newest := NewestAttached(w.actions, request);
    if newest.Some? then At(w, t, Syncing(newest.value, request, decision)) else Idle(w, t)
  }

  function Sync(w: World, t: nat, action: nat, request: nat, decision: Decision): World {
    var synced := w.(actions := SetStatus(w.actions, action, StatusAfter(decision)));
    if decision.Approved? then At(synced, t, Ready(action, Some(request))) else Idle(synced, t)
  }

  function Started(w: World, action: nat, via: Option<nat>): World {
    w.(actions := SetStatus(w.actions, action, if via.Some? then ActionStatus.Approved else Proposed),
       executions := w.executions + [Execution(action, via)])
  }

  /** The policy is checked again first; then the start is recorded with the status the record was read with. */
  function Start(w: World, t: nat, action: nat, via: Option<nat>, violatesPolicy: bool): World {
    if violatesPolicy then Idle(w.(actions := SetStatus(w.actions, action, ActionStatus.Blocked)), t)
    else At(Started(w, action, via), t, Running(action))
  }

  function Finish(w: World, t: nat, action: nat, outcome: Outcome): World {
    Idle(w.(actions := SetStatus(w.actions, action, outcome.EndsAs())), t)
  }

  function SweepOne(w: World, t: nat, now: int, due: seq<nat>): World {
    if due == [] then Idle(w, t)
    else At(w.(tables := ExpireOne(w.tables, due[0], now)), t, Sweeping(now, due[1..]))
  }

  /**
   What recovery makes of an action whose worker lease ran out: the outcome that evidence shows, or a
   decision that depends on the attached request and on whether the action can be repeated safely.
   */
  function RecoveredStatus(requests: seq<Request>, action: Action, safeReplay: bool, evidence: Option<Outcome>): ActionStatus {
    match action.request
    case None => if evidence.Some? then evidence.value.EndsAs() else if safeReplay then Proposed else ActionStatus.Failed
    case Some(r) =>
      if r >= |requests| then ActionStatus.Invalidated
      else
        match requests[r].status
        case Pending => AwaitingApproval
        case Rejected => ActionStatus.Failed
        case Approved =>
          if evidence.Some? then evidence.value.EndsAs()
          else if safeReplay then ActionStatus.Approved
          else ActionStatus.Invalidated
        case _ => ActionStatus.Invalidated
  }

  /** Only a started action has a worker lease. */
  function Recover(w: World, action: nat, safeReplay: bool, evidence: Option<Outcome>): World {
    if action < |w.actions| && HasExecuted(w.executions, action) then
      w.(actions := SetStatus(w.actions, action, RecoveredStatus(w.tables.requests, w.actions[action], safeReplay, evidence)))
    else w
  }

  /** A step on an action that no request decides about yet. */
  function ApplyRouting(w: World, t: nat, p: Phase, step: Step): World {
    match (p, step)
    case (Planned(action, needsApproval), Decide(atCap, behavior)) => DecideRoute(w, t, action, needsApproval, atCap, behavior)
    case (Routing(action), LookUpPending(pick)) => LookUp(w, t, action, pick)
    case (Creating(action), CheckLimit(form)) => Check(w, t, action, form)
    case (Inserting(action, form), InsertRequest) => Insert(w, t, action, form)
    case (Attaching(action, request), Attach) => Idle(w.(actions := AttachTo(w.actions, action, request)), t)
    case _ => At(w, t, p)
  }

  /** A step on an action to be started, on a resolved request, or of a sweep. */
  function ApplyOutcome(w: World, t: nat, p: Phase, step: Step): World {
    match (p, step)
    case (Ready(action, via), StartExecution(violatesPolicy)) => Start(w, t, action, via, violatesPolicy)
    case (Running(action), FinishExecution(outcome)) => Finish(w, t, action, outcome)
    case (Resolved(request, decision), FindAction) => Find(w, t, request, decision)
    case (Syncing(action, request, decision), SyncStatus) => Sync(w, t, action, request, decision)
    case (Sweeping(now, due), SweepNext) => SweepOne(w, t, now, due)
    case _ => At(w, t, p)
  }

  predicate IsRouting(p: Phase) {
    p.Planned? || p.Routing? || p.Creating? || p.Inserting? || p.Attaching?
  }

  /** A step of thread `t`, which was in phase `p`; one that `p` does not lead to changes nothing. */
  function ApplyIn(w: World, t: nat, p: Phase, step: Step): World {
    if step.Crash? then Idle(w, t)
    else if IsRouting(p) then ApplyRouting(w, t, p, step)
    else ApplyOutcome(w, t, p, step)
  }

  /** The effect of a move. */
  function Apply(w: World, move: Move): World {
    var t := move.thread;
    if t in w.threads then ApplyIn(Idle(w, t), t, w.threads[t], move.step)
    else
      match move.step
      case PlanAction(fingerprint, violatesPolicy, needsApproval) => Plan(w, t, fingerprint, violatesPolicy, needsApproval)
      case ResolveRequest(attempt) => ResolveAs(w, t, attempt)
      case StartSweep(now) => At(w, t, Sweeping(now, DueSnapshot(w.tables.requests, now)))
      case RecoverExecution(action, safeReplay, evidence) => Recover(w, action, safeReplay, evidence)
      case _ => w
  }

  function Init(maxPending: nat): World {
    World(maxPending, Tables([], []), [], [], {}, map[])
  }

  function After(w: World, moves: seq<Move>): World {
    if moves == [] then w else Apply(After(w, moves[..|moves| - 1]), moves[|moves| - 1])
  }

  // ----- The invariant ------------------------------------------------------------------------------------

  predicate HasExecuted(executions: seq<Execution>, action: nat) {
    exists i :: 0 <= i < |executions| && executions[i].action == action
  }

  predicate WasUsed(executions: seq<Execution>, request: nat) {
    exists i :: 0 <= i < |executions| && executions[i].via == Some(request)
  }

  predicate StatusOk(w: World, a: nat)
    requires a < |w.actions|
  {
    var action := w.actions[a];
    match action.status
    case Proposed => a !in w.gated
    case AwaitingApproval => a in w.gated && !HasExecuted(w.executions, a)
    case Blocked => true
    case Executed => HasExecuted(w.executions, a)
    case Failed => HasExecuted(w.executions, a)
    case Approved => IsResolvedAs(w, action.request, RequestStatus.Approved)
    case Rejected => IsResolvedAs(w, action.request, RequestStatus.Rejected)
    case Expired => IsResolvedAs(w, action.request, RequestStatus.Expired)
    case Invalidated =>
      if HasExecuted(w.executions, a) then IsResolvedAs(w, action.request, RequestStatus.Approved)
      else IsResolvedAs(w, action.request, RequestStatus.Invalidated)
  }

  predicate IsResolvedAs(w: World, request: Option<nat>, status: RequestStatus) {
    request.Some? && request.value < |w.tables.requests| && w.tables.requests[request.value].status == status
  }

  predicate ActionOk(w: World, a: nat)
    requires a < |w.actions|
  {
    && StatusOk(w, a)
    && (w.actions[a].request.Some? ==> a in w.gated && IsRequestFor(w, w.actions[a].request.value, w.actions[a].fingerprint))
  }

  predicate IsRequestFor(w: World, request: nat, fingerprint: Fingerprint) {
    request < |w.tables.requests| && w.tables.requests[request].details.fingerprint == fingerprint
  }

  predicate ExecutionOk(w: World, e: Execution) {
    && e.action < |w.actions|
    && e.via == w.actions[e.action].request
    && (e.via.Some? ==> IsResolvedAs(w, e.via, RequestStatus.Approved))
    && (e.via.None? ==> e.action !in w.gated)
  }

  predicate Distinct(e: Execution, f: Execution) {
    e.action != f.action && (e.via.Some? ==> e.via != f.via)
  }

  /** Planned, not attached to any request yet, and never started. */
  predicate IsFresh(w: World, a: nat) {
    a < |w.actions| && w.actions[a].request.None? && !HasExecuted(w.executions, a)
  }

  /** Resolved, and no action was started on that yet. */
  predicate IsClaim(w: World, request: nat, decision: Decision) {
    IsResolvedAs(w, Some(request), StatusOf(decision)) && !WasUsed(w.executions, request)
  }

  predicate IsAttached(w: World, a: nat, request: nat) {
    a < |w.actions| && w.actions[a].request == Some(request)
  }

  /** Somebody found the request due at `now`, whatever has become of it since. */
  predicate IsOverdue(w: World, now: int, request: nat) {
    request < |w.tables.requests| && w.tables.requests[request].details.expiresAt <= now
  }

  predicate PhaseOk(w: World, p: Phase) {
    match p
    case Planned(a, needsApproval) => IsFresh(w, a) && (needsApproval <==> a in w.gated)
    case Routing(a) => IsFresh(w, a) && a in w.gated
    case Creating(a) => IsFresh(w, a) && a in w.gated
    case Inserting(a, form) => IsFresh(w, a) && a in w.gated && form.fingerprint == w.actions[a].fingerprint
    case Attaching(a, r) => IsFresh(w, a) && a in w.gated && IsRequestFor(w, r, w.actions[a].fingerprint)
    case Ready(a, None) => IsFresh(w, a) && a !in w.gated
    case Ready(a, Some(r)) => IsAttached(w, a, r) && IsClaim(w, r, Decision.Approved)
    case Running(a) => a < |w.actions| && HasExecuted(w.executions, a)
    case Resolved(r, d) => IsClaim(w, r, d)
    case Syncing(a, r, d) => IsAttached(w, a, r) && IsClaim(w, r, d)
    case Sweeping(now, due) => forall i | 0 <= i < |due| :: IsOverdue(w, now, due[i])
  }

  /** The action that only this thread may route or start. */
  function Owned(p: Phase): Option<nat> {
    match p
    case Planned(a, _) => Some(a)
    case Routing(a) => Some(a)
    case Creating(a) => Some(a)
    case Inserting(a, _) => Some(a)
    case Attaching(a, _) => Some(a)
    case Ready(a, None) => Some(a)
    case _ => None
  }

  /** The resolved request that only this thread may act on. */
  function Claimed(p: Phase): Option<nat> {
    match p
    case Ready(_, Some(r)) => Some(r)
    case Resolved(r, _) => Some(r)
    case Syncing(_, r, _) => Some(r)
    case _ => None
  }

  predicate Apart(p: Phase, q: Phase) {
    && (Owned(p).Some? ==> Owned(p) != Owned(q))
    && (Claimed(p).Some? ==> Claimed(p) != Claimed(q))
  }

  predicate ActionsOk(w: World) {
    && (forall a | 0 <= a < |w.actions| :: ActionOk(w, a))
    && (forall a | a in w.gated :: a < |w.actions|)
  }

  predicate ExecutionsOk(w: World) {
    && (forall i | 0 <= i < |w.executions| :: ExecutionOk(w, w.executions[i]))
    && (forall i, j | 0 <= i < j < |w.executions| :: Distinct(w.executions[i], w.executions[j]))
  }

  predicate ThreadsOk(w: World) {
    && (forall t | t in w.threads :: PhaseOk(w, w.threads[t]))
    && (forall t, u | t in w.threads && u in w.threads && t != u :: Apart(w.threads[t], w.threads[u]))
  }

  predicate Inv(w: World) {
    Settled(w.tables) && ActionsOk(w) && ExecutionsOk(w) && ThreadsOk(w)
  }

  // ----- Every step keeps it -----------------------------------------------------------------------------------

  predicate TablesGrow(tables: Tables, tables': Tables) {
    && |tables.requests| <= |tables'.requests|
    && forall r | 0 <= r < |tables.requests| ::
         && tables'.requests[r].details == tables.requests[r].details
         && (!tables.requests[r].status.Pending? ==> tables'.requests[r] == tables.requests[r])
  }

  /** What a step that works on action `own` and request `claim` leaves alone. */
  predicate Evolves(w: World, w': World, own: Option<nat>, claim: Option<nat>) {
    && TablesGrow(w.tables, w'.tables)
    && |w.actions| <= |w'.actions|
    && (forall a | 0 <= a < |w.actions| ::
          && w'.actions[a].fingerprint == w.actions[a].fingerprint
          && (w.actions[a].request.Some? || own != Some(a) ==> w'.actions[a].request == w.actions[a].request)
          && (own != Some(a) ==> (a in w'.gated <==> a in w.gated)))
    && w.executions <= w'.executions
    && (forall i | |w.executions| <= i < |w'.executions| ::
          Some(w'.executions[i].action) == own && (w'.executions[i].via.Some? ==> w'.executions[i].via == claim))
  }

  lemma {:induction false} ExecutedStays(w: World, w': World, own: Option<nat>, claim: Option<nat>, a: nat)
    requires Evolves(w, w', own, claim)
    ensures HasExecuted(w.executions, a) ==> HasExecuted(w'.executions, a)
    ensures own != Some(a) && HasExecuted(w'.executions, a) ==> HasExecuted(w.executions, a)
  {
    if HasExecuted(w.executions, a) {
      var i :| 0 <= i < |w.executions| && w.executions[i].action == a;
      assert w'.executions[i].action == a;
    }
    if own != Some(a) && HasExecuted(w'.executions, a) {
      var i :| 0 <= i < |w'.executions| && w'.executions[i].action == a;
      assert w.executions[i].action == a;
    }
  }

  lemma {:induction false} UnusedStays(w: World, w': World, own: Option<nat>, claim: Option<nat>, r: nat)
    requires Evolves(w, w', own, claim) && claim != Some(r)
    ensures WasUsed(w'.executions, r) ==> WasUsed(w.executions, r)
  {
    if WasUsed(w'.executions, r) {
      var i :| 0 <= i < |w'.executions| && w'.executions[i].via == Some(r);
      assert w.executions[i].via == Some(r);
    }
  }

  lemma {:induction false} PhaseStays(w: World, w': World, own: Option<nat>, claim: Option<nat>, p: Phase)
    requires Evolves(w, w', own, claim) && PhaseOk(w, p)
    requires Owned(p).Some? ==> Owned(p) != own
    requires Claimed(p).Some? ==> Claimed(p) != claim
    ensures PhaseOk(w', p)
  {
    if Owned(p).Some? { ExecutedStays(w, w', own, claim, Owned(p).value); }
    if Claimed(p).Some? { UnusedStays(w, w', own, claim, Claimed(p).value); }
    if p.Running? { ExecutedStays(w, w', own, claim, p.action); }
  }

  lemma {:induction false} ActionStays(w: World, w': World, own: Option<nat>, claim: Option<nat>, a: nat)
    requires Evolves(w, w', own, claim) && a < |w.actions| && ActionOk(w, a)
    requires own != Some(a) && w'.actions[a] == w.actions[a]
    ensures ActionOk(w', a)
  {
    ExecutedStays(w, w', own, claim, a);
  }

  lemma {:induction false} ExecutionStays(w: World, w': World, own: Option<nat>, claim: Option<nat>, e: Execution)
    requires Evolves(w, w', own, claim) && ExecutionOk(w, e) && own != Some(e.action)
    ensures ExecutionOk(w', e)
  {
  }

  /** A step that starts nothing: only the touched action needs an argument of its own. */
  lemma {:induction false} QuietStepKeepsInv(w: World, w': World, own: Option<nat>)
    requires Inv(w) && w'.threads == w.threads && Evolves(w, w', own, None) && w'.executions == w.executions
    requires Settled(w'.tables) && ActionsOk(w')
    requires own.Some? ==> !HasExecuted(w.executions, own.value)
    requires forall u | u in w.threads && Owned(w.threads[u]).Some? :: Owned(w.threads[u]) != own
    ensures Inv(w')
  {
    forall i | 0 <= i < |w'.executions| ensures ExecutionOk(w', w'.executions[i]) {
      assert HasExecuted(w.executions, w.executions[i].action);
      ExecutionStays(w, w', own, None, w.executions[i]);
    }
    forall u | u in w'.threads ensures PhaseOk(w', w'.threads[u]) {
      PhaseStays(w, w', own, None, w.threads[u]);
    }
  }

  /** The thread holds its phase while the rest of the world is kept without it. */
  predicate Alone(w: World, t: nat, p: Phase) {
    t !in w.threads && PhaseOk(w, p) && forall u | u in w.threads :: Apart(p, w.threads[u])
  }

  lemma {:induction false} LeavingKeepsInv(w: World, t: nat)
    requires Inv(w)
    ensures Inv(Idle(w, t))
    ensures t in w.threads ==> Alone(Idle(w, t), t, w.threads[t])
  {
    var w' := Idle(w, t);
    forall a | 0 <= a < |w.actions| ensures ActionOk(w', a) {
      ActionStays(w, w', None, None, a);
    }
    forall i | 0 <= i < |w.executions| ensures ExecutionOk(w', w.executions[i]) {
      ExecutionStays(w, w', None, None, w.executions[i]);
    }
    forall u | u in w.threads ensures PhaseOk(w', w.threads[u]) {
      PhaseStaysWithNoWork(w, w', w.threads[u]);
    }
  }

  lemma {:induction false} PhaseStaysWithNoWork(w: World, w': World, p: Phase)
    requires PhaseOk(w, p) && w'.(threads := w.threads) == w
    ensures PhaseOk(w', p)
  {
  }

  lemma {:induction false} EnteringKeepsInv(w: World, t: nat, p: Phase)
    requires Inv(w) && Alone(w, t, p)
    ensures Inv(At(w, t, p))
  {
    var w' := At(w, t, p);
    forall a | 0 <= a < |w.actions| ensures ActionOk(w', a) {
      ActionStays(w, w', None, None, a);
    }
    forall i | 0 <= i < |w.executions| ensures ExecutionOk(w', w.executions[i]) {
      ExecutionStays(w, w', None, None, w.executions[i]);
    }
    forall u | u in w'.threads ensures PhaseOk(w', w'.threads[u]) {
      PhaseStaysWithNoWork(w, w', w'.threads[u]);
    }
    forall u, v | u in w'.threads && v in w'.threads && u != v ensures Apart(w'.threads[u], w'.threads[v]) {
      if u == t { assert Apart(p, w.threads[v]); }
      else if v == t { assert Apart(p, w.threads[u]); }
      else { assert Apart(w.threads[u], w.threads[v]); }
    }
  }

  lemma {:induction false} PlanKeepsInv(w: World, t: nat, fingerprint: Fingerprint, violatesPolicy: bool, needsApproval: bool)
    requires Inv(w) && t !in w.threads
    ensures Inv(Plan(w, t, fingerprint, violatesPolicy, needsApproval))
  {
    var a := |w.actions|;
    var w' := Plan(w, t, fingerprint, violatesPolicy, needsApproval).(threads := w.threads);
    forall i | 0 <= i < |w.executions| ensures w.executions[i].action != a {
      assert ExecutionOk(w, w.executions[i]);
    }
    forall b | 0 <= b < |w'.actions| ensures ActionOk(w', b) {
      if b < a { ActionStays(w, w', None, None, b); }
    }
    QuietStepKeepsInv(w, w', None);
    if !violatesPolicy {
      forall u | u in w'.threads ensures Apart(Planned(a, needsApproval), w'.threads[u]) {
        assert PhaseOk(w, w.threads[u]);
      }
      EnteringKeepsInv(w', t, Planned(a, needsApproval));
    }
  }

  lemma {:induction false} RoutingKeepsInv(w: World, t: nat, p: Phase, next: Phase)
    requires Inv(w) && Alone(w, t, p)
    requires PhaseOk(w, next) && Owned(next) == Owned(p) && Claimed(next) == Claimed(p)
    ensures Inv(At(w, t, next))
  {
    assert forall u | u in w.threads :: Apart(p, w.threads[u]);
    EnteringKeepsInv(w, t, next);
  }

  lemma {:induction false} BlockOrEscalateKeepsInv(w: World, t: nat, p: Phase, status: ActionStatus)
    requires Inv(w) && Alone(w, t, p) && p.Planned?
    requires status.Blocked? || status.AwaitingApproval?
    ensures var gated := if status.Blocked? then w.gated else w.gated + {p.action};
            var w' := w.(actions := SetStatus(w.actions, p.action, status), gated := gated);
            Inv(w') && Evolves(w, w', Some(p.action), None)
  {
    var a := p.action;
    var w' := w.(actions := SetStatus(w.actions, a, status), gated := if status.Blocked? then w.gated else w.gated + {a});
    forall b | 0 <= b < |w'.actions| ensures ActionOk(w', b) {
      assert ActionOk(w, b);
      if b != a { ActionStays(w, w', Some(a), None, b); }
    }
    assert forall u | u in w.threads :: Apart(p, w.threads[u]);
    QuietStepKeepsInv(w, w', Some(a));
  }

  lemma {:induction false} DecideKeepsInv(w: World, t: nat, p: Phase, step: Step)
    requires Inv(w) && Alone(w, t, p) && p.Planned? && step.Decide?
    ensures Inv(ApplyRouting(w, t, p, step))
  {
    assert w.threads - {t} == w.threads;
    assert p.needsApproval ==> w.gated + {p.action} == w.gated;
    if step.atCap && step.behavior.AlwaysDeny? {
      BlockOrEscalateKeepsInv(w, t, p, ActionStatus.Blocked);
    } else if step.atCap && step.behavior.Escalate? && !p.needsApproval {
      BlockOrEscalateKeepsInv(w, t, p, AwaitingApproval);
      var w' := w.(actions := SetStatus(w.actions, p.action, AwaitingApproval), gated := w.gated + {p.action});
      assert forall u | u in w.threads :: Apart(p, w.threads[u]);
      EnteringKeepsInv(w', t, Routing(p.action));
    } else if p.needsApproval {
      RoutingKeepsInv(w, t, p, Routing(p.action));
    } else {
      RoutingKeepsInv(w, t, p, Ready(p.action, None));
    }
  }

  /** A step on the requests: the actions stay as they are. */
  lemma {:induction false} TablesStepKeepsInv(w: World, tables: Tables)
    requires Inv(w) && TablesGrow(w.tables, tables) && Settled(tables)
    ensures Inv(w.(tables := tables))
  {
    var w' := w.(tables := tables);
    forall a | 0 <= a < |w.actions| ensures ActionOk(w', a) {
      ActionStays(w, w', None, None, a);
    }
    QuietStepKeepsInv(w, w', None);
  }

  lemma {:induction false} InsertKeepsInv(w: World, t: nat, p: Phase, step: Step)
    requires Inv(w) && Alone(w, t, p) && p.Inserting? && step.InsertRequest?
    ensures Inv(ApplyRouting(w, t, p, step))
  {
    if IsRefused(w.tables.requests, p.form) {
      assert w.threads - {t} == w.threads;
      return;
    }
    var tables := w.tables.(requests := w.tables.requests + [Opened(p.form)]);
    OpeningKeepsSettled(w.tables, p.form);
    TablesStepKeepsInv(w, tables);
    var w' := w.(tables := tables);
    PhaseStays(w, w', None, None, Routing(p.action));
    assert forall u | u in w.threads :: Apart(p, w.threads[u]);
    EnteringKeepsInv(w', t, Attaching(p.action, |w.tables.requests|));
  }

  lemma {:induction false} AttachKeepsInv(w: World, t: nat, p: Phase, step: Step)
    requires Inv(w) && Alone(w, t, p) && p.Attaching? && step.Attach?
    ensures Inv(ApplyRouting(w, t, p, step))
  {
    var a := p.action;
    var w' := w.(actions := AttachTo(w.actions, a, p.request));
    forall b | 0 <= b < |w'.actions| ensures ActionOk(w', b) {
      assert ActionOk(w, b);
      if b != a { ActionStays(w, w', Some(a), None, b); }
    }
    assert forall u | u in w.threads :: Apart(p, w.threads[u]);
    QuietStepKeepsInv(w, w', Some(a));
    assert w.threads - {t} == w.threads;
  }

  lemma {:induction false} PendingIsUnclaimed(w: World, r: nat)
    requires Inv(w) && r < |w.tables.requests| && w.tables.requests[r].status.Pending?
    ensures !WasUsed(w.executions, r)
    ensures forall u | u in w.threads :: Claimed(w.threads[u]) != Some(r)
  {
    forall i | 0 <= i < |w.executions| ensures w.executions[i].via != Some(r) {
      assert ExecutionOk(w, w.executions[i]);
    }
    forall u | u in w.threads ensures Claimed(w.threads[u]) != Some(r) {
      assert PhaseOk(w, w.threads[u]);
    }
  }

  lemma {:induction false} ResolveKeepsInv(w: World, t: nat, attempt: Attempt)
    requires Inv(w) && t !in w.threads
    ensures Inv(ResolveAs(w, t, attempt))
  {
    var plan := PlanResolution(w.tables, attempt);
    if plan.Ok? {
      var event := plan.value;
      PendingIsUnclaimed(w, event.request);
      ResolutionIsLegitimate(w.tables, attempt, event);
      RecordingKeepsSettled(w.tables, event);
      RecordedTables(w.tables, event);
      TablesStepKeepsInv(w, Recorded(w.tables, event));
      EnteringKeepsInv(w.(tables := Recorded(w.tables, event)), t, Resolved(event.request, event.decision));
    }
  }

  lemma {:induction false} ExpiryIsLegitimate(w: World, request: nat, now: int)
    requires Settled(w.tables) && IsOverdue(w, now, request)
    ensures TablesGrow(w.tables, ExpireOne(w.tables, request, now)) && Settled(ExpireOne(w.tables, request, now))
  {
    var event := EventOf(request, EXPIRY, now);
    assert ExpireOne(w.tables, request, now) == Recorded(w.tables, event);
    RecordingKeepsSettled(w.tables, event);
  }

  lemma {:induction false} SweepKeepsInv(w: World, t: nat, p: Phase, step: Step)
    requires Inv(w) && Alone(w, t, p) && p.Sweeping? && step.SweepNext?
    ensures Inv(ApplyOutcome(w, t, p, step))
  {
    if p.due == [] {
      assert w.threads - {t} == w.threads;
    } else {
      ExpiryIsLegitimate(w, p.due[0], p.now);
      var tables := ExpireOne(w.tables, p.due[0], p.now);
      TablesStepKeepsInv(w, tables);
      PhaseStays(w, w.(tables := tables), None, None, p);
      EnteringKeepsInv(w.(tables := tables), t, Sweeping(p.now, p.due[1..]));
    }
  }

  lemma {:induction false} SyncKeepsInv(w: World, t: nat, p: Phase, step: Step)
    requires Inv(w) && Alone(w, t, p) && p.Syncing? && step.SyncStatus?
    ensures Inv(ApplyOutcome(w, t, p, step))
  {
    var a := p.action;
    var w' := w.(actions := SetStatus(w.actions, a, StatusAfter(p.decision)));
    forall b | 0 <= b < |w'.actions| ensures ActionOk(w', b) {
      assert ActionOk(w, b);
      if b != a { ActionStays(w, w', None, None, b); }
    }
    QuietStepKeepsInv(w, w', None);
    if p.decision.Approved? {
      PhaseStays(w, w', None, None, p);
      assert forall u | u in w.threads :: Apart(p, w.threads[u]);
      EnteringKeepsInv(w', t, Ready(a, Some(p.request)));
    } else {
      assert w.threads - {t} == w.threads;
    }
  }

  lemma {:induction false} ReadyIsUnstarted(w: World, p: Phase)
    requires Inv(w) && PhaseOk(w, p) && p.Ready?
    ensures !HasExecuted(w.executions, p.action)
  {
    if p.via.Some? {
      forall i | 0 <= i < |w.executions| ensures w.executions[i].action != p.action {
        assert ExecutionOk(w, w.executions[i]);
        assert w.executions[i].via != p.via;
      }
    }
  }

  /** Setting the status of an action that is not running anywhere to Blocked, or a finished one's to its outcome. */
  lemma {:induction false} StatusStepKeepsInv(w: World, a: nat, status: ActionStatus)
    requires Inv(w) && a < |w.actions|
    requires status.Blocked? || ((status.Executed? || status.Failed?) && HasExecuted(w.executions, a))
    ensures Inv(w.(actions := SetStatus(w.actions, a, status)))
  {
    var w' := w.(actions := SetStatus(w.actions, a, status));
    forall b | 0 <= b < |w'.actions| ensures ActionOk(w', b) {
      assert ActionOk(w, b);
      if b != a { ActionStays(w, w', None, None, b); }
    }
    QuietStepKeepsInv(w, w', None);
  }

  lemma {:induction false} StartKeepsActions(w: World, p: Phase)
    requires Inv(w) && PhaseOk(w, p) && p.Ready?
    ensures var w' := Started(w, p.action, p.via);
            Evolves(w, w', Some(p.action), p.via) && ActionsOk(w') && HasExecuted(w'.executions, p.action)
  {
    var w' := Started(w, p.action, p.via);
    assert w'.executions[|w.executions|].action == p.action;
    forall b | 0 <= b < |w'.actions| ensures ActionOk(w', b) {
      assert ActionOk(w, b);
      if b != p.action { ActionStays(w, w', Some(p.action), p.via, b); }
    }
  }

  lemma {:induction false} StartKeepsExecutions(w: World, p: Phase)
    requires Inv(w) && PhaseOk(w, p) && p.Ready?
    ensures ExecutionsOk(Started(w, p.action, p.via))
  {
    var w', n := Started(w, p.action, p.via), |w.executions|;
    StartKeepsActions(w, p);
    ReadyIsUnstarted(w, p);
    forall i | 0 <= i < n ensures ExecutionOk(w', w'.executions[i]) && Distinct(w'.executions[i], w'.executions[n]) {
      assert w.executions[i].action != p.action;
      assert p.via.Some? ==> w.executions[i].via != p.via by {
        if p.via.Some? && w.executions[i].via == p.via { assert WasUsed(w.executions, p.via.value); }
      }
      ExecutionStays(w, w', Some(p.action), p.via, w.executions[i]);
    }
  }

  lemma {:induction false} StartedKeepsInv(w: World, t: nat, p: Phase)
    requires Inv(w) && Alone(w, t, p) && p.Ready?
    ensures Inv(Started(w, p.action, p.via)) && Alone(Started(w, p.action, p.via), t, Running(p.action))
  {
    var w' := Started(w, p.action, p.via);
    StartKeepsActions(w, p);
    StartKeepsExecutions(w, p);
    assert forall u | u in w.threads :: Apart(p, w.threads[u]);
    forall u | u in w.threads ensures PhaseOk(w', w.threads[u]) {
      OtherStaysThroughStart(w, p, w.threads[u]);
    }
  }

  lemma {:induction false} OtherStaysThroughStart(w: World, p: Phase, other: Phase)
    requires Inv(w) && PhaseOk(w, p) && PhaseOk(w, other) && Apart(p, other) && p.Ready?
    ensures PhaseOk(Started(w, p.action, p.via), other)
  {
    StartKeepsActions(w, p);
    PhaseStays(w, Started(w, p.action, p.via), Some(p.action), p.via, other);
  }

  lemma {:induction false} StartKeepsInv(w: World, t: nat, p: Phase, step: Step)
    requires Inv(w) && Alone(w, t, p) && p.Ready? && step.StartExecution?
    ensures Inv(ApplyOutcome(w, t, p, step))
  {
    if step.violatesPolicy {
      StatusStepKeepsInv(w, p.action, ActionStatus.Blocked);
      assert w.threads - {t} == w.threads;
    } else {
      StartedKeepsInv(w, t, p);
      EnteringKeepsInv(Started(w, p.action, p.via), t, Running(p.action));
    }
  }

  lemma {:induction false} LookUpKeepsInv(w: World, t: nat, p: Phase, step: Step)
    requires Inv(w) && Alone(w, t, p) && p.Routing? && step.LookUpPending?
    ensures Inv(ApplyRouting(w, t, p, step))
  {
    RoutingKeepsInv(w, t, p, LookUp(w, t, p.action, step.pick).threads[t]);
  }

  lemma {:induction false} CheckKeepsInv(w: World, t: nat, p: Phase, step: Step)
    requires Inv(w) && Alone(w, t, p) && p.Creating? && step.CheckLimit?
    ensures Inv(ApplyRouting(w, t, p, step))
  {
    assert w.threads - {t} == w.threads;
    RoutingKeepsInv(w, t, p, Inserting(p.action, step.form.(fingerprint := w.actions[p.action].fingerprint)));
  }

  lemma {:induction false} FindKeepsInv(w: World, t: nat, p: Phase, step: Step)
    requires Inv(w) && Alone(w, t, p) && p.Resolved? && step.FindAction?
    ensures Inv(ApplyOutcome(w, t, p, step))
  {
    var newest := NewestAttached(w.actions, p.request);
    if newest.Some? {
      RoutingKeepsInv(w, t, p, Syncing(newest.value, p.request, p.decision));
    } else {
      assert w.threads - {t} == w.threads;
    }
  }

  lemma {:induction false} FinishKeepsInv(w: World, t: nat, p: Phase, step: Step)
    requires Inv(w) && Alone(w, t, p) && p.Running? && step.FinishExecution?
    ensures Inv(ApplyOutcome(w, t, p, step))
  {
    StatusStepKeepsInv(w, p.action, step.outcome.EndsAs());
    assert w.threads - {t} == w.threads;
  }

  lemma {:induction false} RoutingStepKeepsInv(w: World, t: nat, p: Phase, step: Step)
    requires Inv(w) && Alone(w, t, p)
    ensures Inv(ApplyRouting(w, t, p, step))
  {
    if p.Planned? && step.Decide? { DecideKeepsInv(w, t, p, step); }
    else if p.Routing? && step.LookUpPending? { LookUpKeepsInv(w, t, p, step); }
    else if p.Creating? && step.CheckLimit? { CheckKeepsInv(w, t, p, step); }
    else if p.Inserting? && step.InsertRequest? { InsertKeepsInv(w, t, p, step); }
    else if p.Attaching? && step.Attach? { AttachKeepsInv(w, t, p, step); }
    else { EnteringKeepsInv(w, t, p); }
  }

  lemma {:induction false} OutcomeStepKeepsInv(w: World, t: nat, p: Phase, step: Step)
    requires Inv(w) && Alone(w, t, p)
    ensures Inv(ApplyOutcome(w, t, p, step))
  {
    if p.Ready? && step.StartExecution? { StartKeepsInv(w, t, p, step); }
    else if p.Running? && step.FinishExecution? { FinishKeepsInv(w, t, p, step); }
    else if p.Resolved? && step.FindAction? { FindKeepsInv(w, t, p, step); }
    else if p.Syncing? && step.SyncStatus? { SyncKeepsInv(w, t, p, step); }
    else if p.Sweeping? && step.SweepNext? { SweepKeepsInv(w, t, p, step); }
    else { EnteringKeepsInv(w, t, p); }
  }

  /** A started action runs under its approved request, or was never gated. */
  lemma {:induction false} StartedActions(w: World, a: nat)
    requires Inv(w) && HasExecuted(w.executions, a)
    ensures a < |w.actions|
    ensures w.actions[a].request.Some? ==> IsResolvedAs(w, w.actions[a].request, RequestStatus.Approved)
    ensures w.actions[a].request.None? ==> a !in w.gated
  {
    var i :| 0 <= i < |w.executions| && w.executions[i].action == a;
    assert ExecutionOk(w, w.executions[i]);
  }

  lemma {:induction false} RecoverKeepsInv(w: World, a: nat, safeReplay: bool, evidence: Option<Outcome>)
    requires Inv(w)
    ensures Inv(Recover(w, a, safeReplay, evidence))
  {
    if a < |w.actions| && HasExecuted(w.executions, a) {
      StartedActions(w, a);
      var w' := Recover(w, a, safeReplay, evidence);
      forall b | 0 <= b < |w'.actions| ensures ActionOk(w', b) {
        assert ActionOk(w, b);
        if b != a { ActionStays(w, w', None, None, b); }
      }
      QuietStepKeepsInv(w, w', None);
    }
  }

  lemma {:induction false} FirstStepKeepsInv(w: World, move: Move)
    requires Inv(w) && move.thread !in w.threads
    ensures Inv(Apply(w, move))
  {
    var t := move.thread;
    match move.step
    case PlanAction(fingerprint, violatesPolicy, needsApproval) => PlanKeepsInv(w, t, fingerprint, violatesPolicy, needsApproval);
    case ResolveRequest(attempt) => ResolveKeepsInv(w, t, attempt);
    case StartSweep(now) => EnteringKeepsInv(w, t, Sweeping(now, DueSnapshot(w.tables.requests, now)));
    case RecoverExecution(action, safeReplay, evidence) => RecoverKeepsInv(w, action, safeReplay, evidence);
    case _ =>
  }

  lemma {:induction false} ApplyKeepsInv(w: World, move: Move)
    requires Inv(w)
    ensures Inv(Apply(w, move))
  {
    var t := move.thread;
    LeavingKeepsInv(w, t);
    if t in w.threads {
      RoutingStepKeepsInv(Idle(w, t), t, w.threads[t], move.step);
      OutcomeStepKeepsInv(Idle(w, t), t, w.threads[t], move.step);
      assert w.threads - {t} - {t} == w.threads - {t};
    } else {
      FirstStepKeepsInv(w, move);
    }
  }

  lemma {:induction false} EveryRunKeepsInv(maxPending: nat, moves: seq<Move>)
    ensures Inv(After(Init(maxPending), moves))
  {
    if moves != [] {
      EveryRunKeepsInv(maxPending, moves[..|moves| - 1]);
      ApplyKeepsInv(After(Init(maxPending), moves[..|moves| - 1]), moves[|moves| - 1]);
    }
  }

  // ----- Safety of every run ----------------------------------------------------------------------------------------

  /** An action planned as needing approval, or escalated, is started only on its approved request. */
  lemma {:induction false} GatedActionsRunOnlyWhenApproved(maxPending: nat, moves: seq<Move>, i: nat)
    requires i < |After(Init(maxPending), moves).executions|
    ensures var w := After(Init(maxPending), moves);
            var e := w.executions[i];
            && e.action < |w.actions|
            && (e.action in w.gated <==> e.via.Some?)
            && (e.action in w.gated ==>
                  && w.actions[e.action].request == e.via
                  && e.via.value < |w.tables.requests|
                  && w.tables.requests[e.via.value].status.Approved?
                  && w.tables.requests[e.via.value].details.fingerprint == w.actions[e.action].fingerprint)
  {
    EveryRunKeepsInv(maxPending, moves);
    var w := After(Init(maxPending), moves);
    assert ExecutionOk(w, w.executions[i]);
    assert ActionOk(w, w.executions[i].action);
  }

  /** No action is started twice, and no request's approval starts two actions. */
  lemma {:induction false} NothingRunsTwice(maxPending: nat, moves: seq<Move>, i: nat, j: nat)
    requires i < j < |After(Init(maxPending), moves).executions|
    ensures var executions := After(Init(maxPending), moves).executions;
            && executions[i].action != executions[j].action
            && (executions[i].via.Some? ==> executions[i].via != executions[j].via)
  {
    EveryRunKeepsInv(maxPending, moves);
    var executions := After(Init(maxPending), moves).executions;
    assert Distinct(executions[i], executions[j]);
  }

  /** What the recorded status of an action says about it; recovery invalidates only started actions, under an approved request. */
  lemma {:induction false} StatusesTellTheTruth(maxPending: nat, moves: seq<Move>, a: nat)
    requires a < |After(Init(maxPending), moves).actions|
    ensures var w := After(Init(maxPending), moves);
            var action := w.actions[a];
            && (action.status.Executed? || action.status.Failed? ==> HasExecuted(w.executions, a))
            && (action.status.AwaitingApproval? ==> a in w.gated && !HasExecuted(w.executions, a))
            && (action.status.Approved? ==> IsResolvedAs(w, action.request, RequestStatus.Approved))
            && (action.status.Rejected? ==> IsResolvedAs(w, action.request, RequestStatus.Rejected))
            && (action.status.Expired? ==> IsResolvedAs(w, action.request, RequestStatus.Expired))
            && (action.status.Invalidated? && !HasExecuted(w.executions, a) ==> IsResolvedAs(w, action.request, RequestStatus.Invalidated))
            && (action.status.Invalidated? && HasExecuted(w.executions, a) ==> IsResolvedAs(w, action.request, RequestStatus.Approved))
  {
    EveryRunKeepsInv(maxPending, moves);
    assert ActionOk(After(Init(maxPending), moves), a);
  }

  predicate IsRecoveredAs(status: ActionStatus, hasRequest: bool, safeReplay: bool, evidence: Option<Outcome>) {
    && (status.Executed? <==> evidence == Some(Succeeds))
    && (status.Blocked? <==> evidence == Some(IsBlocked))
    && (status.Failed? <==> evidence == Some(Fails) || (evidence.None? && !hasRequest && !safeReplay))
    && (status.Proposed? <==> evidence.None? && !hasRequest && safeReplay)
    && (status.Approved? <==> evidence.None? && hasRequest && safeReplay)
    && (status.Invalidated? <==> evidence.None? && hasRequest && !safeReplay)
  }

  lemma {:induction false} RecoveredStatusOfStarted(w: World, a: nat, safeReplay: bool, evidence: Option<Outcome>)
    requires Inv(w) && HasExecuted(w.executions, a)
    ensures a < |w.actions|
    ensures IsRecoveredAs(RecoveredStatus(w.tables.requests, w.actions[a], safeReplay, evidence),
                          w.actions[a].request.Some?, safeReplay, evidence)
  {
    StartedActions(w, a);
  }

  /**
   What recovery makes of a started action. It contradicts the approved request exactly for an action that cannot be
   repeated and left no evidence.
   */
  lemma {:induction false} RecoveryDecides(
    maxPending: nat, moves: seq<Move>, t: nat, a: nat, safeReplay: bool, evidence: Option<Outcome>)
    requires t !in After(Init(maxPending), moves).threads && HasExecuted(After(Init(maxPending), moves).executions, a)
    ensures var w := After(Init(maxPending), moves);
            var w' := Apply(w, Move(t, RecoverExecution(a, safeReplay, evidence)));
            && a < |w.actions| && |w'.actions| == |w.actions|
            && IsRecoveredAs(w'.actions[a].status, w.actions[a].request.Some?, safeReplay, evidence)
            && w'.tables == w.tables && w'.executions == w.executions
            && forall b | 0 <= b < |w.actions| && b != a :: w'.actions[b] == w.actions[b]
  {
    EveryRunKeepsInv(maxPending, moves);
    RecoveredStatusOfStarted(After(Init(maxPending), moves), a, safeReplay, evidence);
  }

  /** A request has one resolution event when it is no longer pending, none before, and says what its event says. */
  lemma {:induction false} RequestsMatchTheirEvents(maxPending: nat, moves: seq<Move>)
    ensures Settled(After(Init(maxPending), moves).tables)
    ensures forall r | 0 <= r < |After(Init(maxPending), moves).tables.requests| ::
              After(Init(maxPending), moves).tables.requests[r].status.Pending?
              <==> !HasEvent(After(Init(maxPending), moves).tables.events, r)
  {
    EveryRunKeepsInv(maxPending, moves);
  }

  // ----- What later steps cannot change ------------------------------------------------------------------------------

  predicate ActionsGrow(actions: seq<Action>, actions': seq<Action>) {
    && |actions| <= |actions'|
    && forall a | 0 <= a < |actions| ::
         && actions'[a].fingerprint == actions[a].fingerprint
         && (actions[a].request.Some? ==> actions'[a].request == actions[a].request)
  }

  /** Nothing that is settled in `w` is different in `w'`. */
  predicate Follows(w: World, w': World) {
    && TablesGrow(w.tables, w'.tables)
    && w.tables.events <= w'.tables.events
    && w.executions <= w'.executions
    && ActionsGrow(w.actions, w'.actions)
  }

  lemma {:induction false} RecordingFollows(tables: Tables, event: Event)
    requires event.request < |tables.requests|
    ensures TablesGrow(tables, Recorded(tables, event)) && tables.events <= Recorded(tables, event).events
  {
    if tables.requests[event.request].status.Pending? {
      RecordedTables(tables, event);
    }
  }

  lemma {:induction false} RoutingStepGrowsActions(w: World, t: nat, p: Phase, step: Step)
    requires PhaseOk(w, p) && IsRouting(p)
    ensures ActionsGrow(w.actions, ApplyRouting(w, t, p, step).actions)
    ensures ApplyRouting(w, t, p, step).executions == w.executions
  {
  }

  lemma {:induction false} RoutingStepGrowsTables(w: World, t: nat, p: Phase, step: Step)
    requires IsRouting(p)
    ensures TablesGrow(w.tables, ApplyRouting(w, t, p, step).tables)
    ensures ApplyRouting(w, t, p, step).tables.events == w.tables.events
  {
  }

  lemma {:induction false} OutcomeStepGrowsActions(w: World, t: nat, p: Phase, step: Step)
    ensures ActionsGrow(w.actions, ApplyOutcome(w, t, p, step).actions)
    ensures w.executions <= ApplyOutcome(w, t, p, step).executions
  {
  }

  lemma {:induction false} OutcomeStepGrowsTables(w: World, t: nat, p: Phase, step: Step)
    requires PhaseOk(w, p)
    ensures TablesGrow(w.tables, ApplyOutcome(w, t, p, step).tables)
    ensures w.tables.events <= ApplyOutcome(w, t, p, step).tables.events
    ensures forall i | |w.tables.events| <= i < |ApplyOutcome(w, t, p, step).tables.events| ::
              ApplyOutcome(w, t, p, step).tables.events[i].decision.Expired?
  {
    if p.Sweeping? && p.due != [] {
      assert ExpireOne(w.tables, p.due[0], p.now) == Recorded(w.tables, EventOf(p.due[0], EXPIRY, p.now));
      RecordingFollows(w.tables, EventOf(p.due[0], EXPIRY, p.now));
    }
  }

  lemma {:induction false} PhaseStepFollows(w: World, t: nat, p: Phase, step: Step)
    requires PhaseOk(w, p)
    ensures Follows(w, ApplyIn(w, t, p, step))
    ensures forall i | |w.tables.events| <= i < |ApplyIn(w, t, p, step).tables.events| ::
              ApplyIn(w, t, p, step).tables.events[i].decision.Expired?
  {
    if IsRouting(p) {
      RoutingStepGrowsActions(w, t, p, step);
      RoutingStepGrowsTables(w, t, p, step);
    } else {
      OutcomeStepGrowsActions(w, t, p, step);
      OutcomeStepGrowsTables(w, t, p, step);
    }
  }

  lemma {:induction false} ApplyFollows(w: World, move: Move)
    requires Inv(w)
    ensures Follows(w, Apply(w, move))
  {
    var t := move.thread;
    if t in w.threads {
      LeavingKeepsInv(w, t);
      PhaseStepFollows(Idle(w, t), t, w.threads[t], move.step);
    } else if move.step.ResolveRequest? && PlanResolution(w.tables, move.step.attempt).Ok? {
      RecordingFollows(w.tables, PlanResolution(w.tables, move.step.attempt).value);
    }
  }

  lemma {:induction false} AfterKeepsInvAndFollows(w: World, moves: seq<Move>)
    requires Inv(w)
    ensures Inv(After(w, moves)) && Follows(w, After(w, moves))
  {
    if moves != [] {
      var before := After(w, moves[..|moves| - 1]);
      AfterKeepsInvAndFollows(w, moves[..|moves| - 1]);
      ApplyKeepsInv(before, moves[|moves| - 1]);
      ApplyFollows(before, moves[|moves| - 1]);
    }
  }

  /** Once recorded, a resolution is what the request says in every continuation of the run. */
  lemma {:induction false} ResolutionsArePermanent(maxPending: nat, moves: seq<Move>, more: seq<Move>, i: nat)
    requires i < |After(Init(maxPending), moves).tables.events|
    ensures var event := After(Init(maxPending), moves).tables.events[i];
            var later := After(After(Init(maxPending), moves), more).tables;
            && i < |later.events| && later.events[i] == event
            && event.request < |later.requests| && RowMatches(later.requests[event.request], event)
            && IsLegitimate(later.requests[event.request].details, event)
  {
    EveryRunKeepsInv(maxPending, moves);
    AfterKeepsInvAndFollows(After(Init(maxPending), moves), more);
  }

  predicate CameFrom(moves: seq<Move>, form: NewRequest, event: Event) {
    exists k :: 0 <= k < |moves| && moves[k].step.ResolveRequest?
                && moves[k].step.attempt.token == form.token && Answers(form, moves[k].step.attempt, event)
  }

  /** An approval or rejection answers an attempt made in the run, by the requester, in time, for this fingerprint. */
  lemma {:induction false} DecisionsComeFromAttempts(maxPending: nat, moves: seq<Move>, i: nat)
    requires i < |After(Init(maxPending), moves).tables.events|
    requires !After(Init(maxPending), moves).tables.events[i].decision.Expired?
    ensures var tables := After(Init(maxPending), moves).tables;
            var event := tables.events[i];
            && event.request < |tables.requests|
            && IsLegitimate(tables.requests[event.request].details, event)
            && CameFrom(moves, tables.requests[event.request].details, event)
  {
    EveryRunKeepsInv(maxPending, moves);
    var before, last := moves[..|moves| - 1], moves[|moves| - 1];
    var w, w' := After(Init(maxPending), before), After(Init(maxPending), moves);
    EveryRunKeepsInv(maxPending, before);
    ApplyFollows(w, last);
    var event := w'.tables.events[i];
    if i < |w.tables.events| {
      DecisionsComeFromAttempts(maxPending, before, i);
      var form := w.tables.requests[event.request].details;
      var k :| 0 <= k < |before| && before[k].step.ResolveRequest?
               && before[k].step.attempt.token == form.token && Answers(form, before[k].step.attempt, event);
      assert moves[k] == before[k];
    } else {
      NewDecisionsAnswerTheMove(w, last, i);
      assert moves[|moves| - 1] == last;
    }
  }

  lemma {:induction false} NewDecisionsAnswerTheMove(w: World, move: Move, i: nat)
    requires Inv(w) && |w.tables.events| <= i < |Apply(w, move).tables.events|
    requires !Apply(w, move).tables.events[i].decision.Expired?
    ensures var tables := Apply(w, move).tables;
            var event := tables.events[i];
            && move.step.ResolveRequest? && event.request < |tables.requests|
            && tables.requests[event.request].details.token == move.step.attempt.token
            && Answers(tables.requests[event.request].details, move.step.attempt, event)
  {
    if move.thread in w.threads {
      LeavingKeepsInv(w, move.thread);
      PhaseStepFollows(Idle(w, move.thread), move.thread, w.threads[move.thread], move.step);
    } else if move.step.ResolveRequest? && PlanResolution(w.tables, move.step.attempt).Ok? {
      var event := PlanResolution(w.tables, move.step.attempt).value;
      ResolutionIsLegitimate(w.tables, move.step.attempt, event);
      RecordedTables(w.tables, event);
    }
  }

  // ----- Runs and threads ------------------------------------------------------------------------------------------

  predicate SameThread(w: World, w': World, u: nat) {
    (u in w'.threads <==> u in w.threads) && (u in w.threads ==> w'.threads[u] == w.threads[u])
  }

  lemma {:induction false} RoutingLeavesOtherThreads(w: World, t: nat, p: Phase, step: Step, u: nat)
    requires u != t
    ensures SameThread(w, ApplyRouting(w, t, p, step), u)
  {
  }

  lemma {:induction false} OutcomesLeaveOtherThreads(w: World, t: nat, p: Phase, step: Step, u: nat)
    requires u != t
    ensures SameThread(w, ApplyOutcome(w, t, p, step), u)
  {
  }

  lemma {:induction false} OtherThreadsStay(w: World, move: Move, u: nat)
    requires u != move.thread
    ensures SameThread(w, Apply(w, move), u)
  {
    var t, step := move.thread, move.step;
    if t in w.threads {
      RoutingLeavesOtherThreads(Idle(w, t), t, w.threads[t], step, u);
      OutcomesLeaveOtherThreads(Idle(w, t), t, w.threads[t], step, u);
    }
  }

  lemma {:induction false} AfterConcat(w: World, first: seq<Move>, second: seq<Move>)
    ensures After(w, first + second) == After(After(w, first), second)
  {
    if second == [] {
      assert first + second == first;
    } else {
      InitAndLast(second);
      var last := second[|second| - 1];
      ConcatIsAssociative(first, second[..|second| - 1], [last]);
      AfterConcat(w, first, second[..|second| - 1]);
      AfterOneMore(w, first + second[..|second| - 1], last);
      AfterOneMore(After(w, first), second[..|second| - 1], last);
    }
  }

  lemma {:induction false} AfterOneMore(w: World, moves: seq<Move>, move: Move)
    ensures After(w, moves + [move]) == Apply(After(w, moves), move)
  {
    assert (moves + [move])[..|moves|] == moves;
  }

  lemma {:induction false} AfterTwo(w: World, first: Move, second: Move)
    ensures After(w, [first, second]) == Apply(Apply(w, first), second)
  {
    var moves := [first, second];
    assert moves[..0] == [] && moves[..2] == moves;
    AfterNext(w, moves, 0);
    AfterNext(w, moves, 1);
  }

  lemma {:induction false} AfterParts(w: World, first: seq<Move>, w1: World, second: seq<Move>, w2: World)
    requires After(w, first) == w1 && After(w1, second) == w2
    ensures After(w, first + second) == w2
  {
    AfterConcat(w, first, second);
  }

  // ----- Several actions waiting for one request --------------------------------------------------------------------

  predicate IsSettled(tables: Tables, r: nat) {
    r < |tables.requests| && !tables.requests[r].status.Pending?
  }

  predicate IsClaimed(w: World, r: nat) {
    exists t | t in w.threads :: Claimed(w.threads[t]) == Some(r)
  }

  /** Attached to a request that is no longer pending and that no thread acts on any more, and not started. */
  predicate IsStranded(w: World, b: nat) {
    && b < |w.actions| && w.actions[b].request.Some? && !HasExecuted(w.executions, b)
    && IsSettled(w.tables, w.actions[b].request.value) && !IsClaimed(w, w.actions[b].request.value)
  }

  lemma {:induction false} NoThreadActsOnStranded(w: World, b: nat, p: Phase)
    requires b < |w.actions| && w.actions[b].request.Some? && !HasExecuted(w.executions, b)
    requires PhaseOk(w, p) && Claimed(p) != w.actions[b].request
    ensures Owned(p) != Some(b) && (p.Syncing? || p.Ready? || p.Running? ==> p.action != b)
  {
  }

  lemma {:induction false} RoutingLeavesOtherActions(w: World, t: nat, p: Phase, step: Step, b: nat)
    requires b < |w.actions| && IsRouting(p) && Owned(p) != Some(b)
    ensures b < |ApplyRouting(w, t, p, step).actions| && ApplyRouting(w, t, p, step).actions[b] == w.actions[b]
  {
  }

  lemma {:induction false} OutcomesLeaveOtherActions(w: World, t: nat, p: Phase, step: Step, b: nat)
    requires b < |w.actions| && (p.Syncing? || p.Ready? || p.Running? ==> p.action != b)
    ensures b < |ApplyOutcome(w, t, p, step).actions| && ApplyOutcome(w, t, p, step).actions[b] == w.actions[b]
  {
  }

  lemma {:induction false} OutcomesStartOnlyTheirAction(w: World, t: nat, p: Phase, step: Step, b: nat)
    requires !IsRouting(p) && (p.Ready? ==> p.action != b) && !HasExecuted(w.executions, b)
    ensures !HasExecuted(ApplyOutcome(w, t, p, step).executions, b)
  {
  }

  lemma {:induction false} RoutingKeepsOwner(w: World, t: nat, p: Phase, step: Step)
    requires IsRouting(p)
    ensures ApplyRouting(w, t, p, step).executions == w.executions
    ensures t in ApplyRouting(w, t, p, step).threads ==>
              Owned(ApplyRouting(w, t, p, step).threads[t]) == Owned(p) && Claimed(ApplyRouting(w, t, p, step).threads[t]).None?
  {
  }

  lemma {:induction false} OutcomesKeepClaim(w: World, t: nat, p: Phase, step: Step)
    requires !IsRouting(p)
    ensures t in ApplyOutcome(w, t, p, step).threads && ApplyOutcome(w, t, p, step).threads[t] != p ==>
              && Owned(ApplyOutcome(w, t, p, step).threads[t]).None?
              && (Claimed(ApplyOutcome(w, t, p, step).threads[t]).Some? ==> Claimed(ApplyOutcome(w, t, p, step).threads[t]) == Claimed(p))
  {
  }

  /** A step of a thread that does not act on an action leaves it as it is and does not start it. */
  lemma {:induction false} ThreadStepLeavesAction(w: World, move: Move, b: nat)
    requires move.thread in w.threads && b < |w.actions| && !HasExecuted(w.executions, b)
    requires var p := w.threads[move.thread];
             Owned(p) != Some(b) && (p.Syncing? || p.Ready? || p.Running? ==> p.action != b)
    ensures var w' := Apply(w, move);
            b < |w'.actions| && w'.actions[b] == w.actions[b] && !HasExecuted(w'.executions, b)
  {
    var t, step := move.thread, move.step;
    var p, w0 := w.threads[t], Idle(w, t);
    if IsRouting(p) {
      RoutingLeavesOtherActions(w0, t, p, step, b);
      RoutingKeepsOwner(w0, t, p, step);
    } else {
      OutcomesLeaveOtherActions(w0, t, p, step, b);
      OutcomesStartOnlyTheirAction(w0, t, p, step, b);
    }
  }

  /** So does a step of a thread in no phase. */
  lemma {:induction false} FirstStepLeavesAction(w: World, move: Move, b: nat)
    requires move.thread !in w.threads && b < |w.actions| && !HasExecuted(w.executions, b)
    ensures var w' := Apply(w, move);
            && b < |w'.actions| && w'.actions[b] == w.actions[b] && w'.executions == w.executions
            && (move.thread in w'.threads ==> Owned(w'.threads[move.thread]) != Some(b))
  {
  }

  /** A thread claims a request only by resolving it. */
  lemma {:induction false} SettledIsNotClaimedAgain(w: World, move: Move, r: nat)
    requires IsSettled(w.tables, r) && !IsClaimed(w, r)
    ensures !IsClaimed(Apply(w, move), r)
  {
    var t, w' := move.thread, Apply(w, move);
    forall u | u in w'.threads ensures Claimed(w'.threads[u]) != Some(r) {
      if u != t {
        OtherThreadsStay(w, move, u);
      } else if t in w.threads {
        var p := w.threads[t];
        assert Claimed(p) != Some(r);
        if IsRouting(p) { RoutingKeepsOwner(Idle(w, t), t, p, move.step); } else { OutcomesKeepClaim(Idle(w, t), t, p, move.step); }
      }
    }
  }

  lemma {:induction false} ApplyLeavesStranded(w: World, move: Move, b: nat)
    requires Inv(w) && IsStranded(w, b)
    ensures IsStranded(Apply(w, move), b) && Apply(w, move).actions[b] == w.actions[b]
  {
    var t := move.thread;
    if t in w.threads {
      assert PhaseOk(w, w.threads[t]);
      NoThreadActsOnStranded(w, b, w.threads[t]);
      ThreadStepLeavesAction(w, move, b);
    } else {
      FirstStepLeavesAction(w, move, b);
    }
    ApplyFollows(w, move);
    SettledIsNotClaimedAgain(w, move, w.actions[b].request.value);
  }

  /** Nobody will ever start such an action: no continuation starts it or changes its record. */
  lemma {:induction false} StrandedActionsWaitForever(w: World, moves: seq<Move>, b: nat)
    requires Inv(w) && IsStranded(w, b)
    ensures IsStranded(After(w, moves), b)
    ensures After(w, moves).actions[b] == w.actions[b]
  {
    if moves != [] {
      var before, last := moves[..|moves| - 1], moves[|moves| - 1];
      StrandedActionsWaitForever(w, before, b);
      AfterKeepsInvAndFollows(w, before);
      ApplyLeavesStranded(After(w, before), last, b);
    }
  }

  /** An approval that has started one of the actions that wait for it strands the others. */
  lemma {:induction false} UsedRequestsStrand(w: World, b: nat, r: nat)
    requires Inv(w) && IsAttached(w, b, r) && WasUsed(w.executions, r) && !HasExecuted(w.executions, b)
    ensures IsStranded(w, b)
  {
    var i :| 0 <= i < |w.executions| && w.executions[i].via == Some(r);
    assert ExecutionOk(w, w.executions[i]);
    forall t | t in w.threads ensures Claimed(w.threads[t]) != Some(r) {
      assert PhaseOk(w, w.threads[t]);
    }
  }

  /** A sweep that expires a request strands every action that waits for it. */
  lemma {:induction false} SweepStrandsActions(w: World, t: nat, b: nat, r: nat)
    requires Inv(w) && t in w.threads && w.threads[t].Sweeping? && w.threads[t].due != [] && w.threads[t].due[0] == r
    requires IsAttached(w, b, r) && r < |w.tables.requests| && w.tables.requests[r].status.Pending?
    ensures IsStranded(Apply(w, Move(t, SweepNext)), b)
    ensures Apply(w, Move(t, SweepNext)).actions[b] == w.actions[b]
  {
    var w' := Apply(w, Move(t, SweepNext));
    assert !HasExecuted(w.executions, b) by {
      forall i | 0 <= i < |w.executions| ensures w.executions[i].action != b {
        assert ExecutionOk(w, w.executions[i]);
      }
    }
    PendingIsUnclaimed(w, r);
    assert w'.actions == w.actions && w'.executions == w.executions;
    forall u | u in w'.threads ensures Claimed(w'.threads[u]) != Some(r) {
      assert u != t ==> w'.threads[u] == w.threads[u];
    }
  }

  /** A resolver that stops between its resolution and the start strands every action that waits for the request. */
  lemma {:induction false} CrashStrandsActions(w: World, t: nat, b: nat, r: nat)
    requires Inv(w) && t in w.threads && Claimed(w.threads[t]) == Some(r) && IsAttached(w, b, r)
    ensures IsStranded(Apply(w, Move(t, Crash)), b)
    ensures Apply(w, Move(t, Crash)).actions[b] == w.actions[b]
  {
    var w' := Apply(w, Move(t, Crash));
    assert PhaseOk(w, w.threads[t]);
    assert !HasExecuted(w.executions, b) by {
      forall i | 0 <= i < |w.executions| ensures w.executions[i].action != b {
        assert ExecutionOk(w, w.executions[i]);
        assert w.executions[i].via != Some(r);
      }
    }
    assert w'.actions == w.actions && w'.executions == w.executions && w'.tables == w.tables;
    forall u | u in w'.threads ensures Claimed(w'.threads[u]) != Some(r) {
      assert u in w.threads && u != t && w'.threads[u] == w.threads[u];
      assert Apart(w.threads[t], w.threads[u]);
    }
  }

  /** The moves of a resolver that finds an action for its approved request, syncs it, and starts it. */
  function StartApproved(t: nat): seq<Move> {
    [Move(t, FindAction), Move(t, SyncStatus), Move(t, StartExecution(false))]
  }

  lemma {:induction false} FindMove(w: World, t: nat, r: nat, decision: Decision, newest: nat)
    requires t in w.threads && w.threads[t] == Resolved(r, decision) && NewestAttached(w.actions, r) == Some(newest)
    ensures Apply(w, Move(t, FindAction)) == At(w, t, Syncing(newest, r, decision))
  {
    assert (w.threads - {t})[t := Syncing(newest, r, decision)] == w.threads[t := Syncing(newest, r, decision)];
  }

  lemma {:induction false} SyncMove(w: World, t: nat, a: nat, r: nat)
    requires t in w.threads && w.threads[t] == Syncing(a, r, Decision.Approved)
    ensures Apply(w, Move(t, SyncStatus)) == At(w.(actions := SetStatus(w.actions, a, ActionStatus.Approved)), t, Ready(a, Some(r)))
  {
    assert (w.threads - {t})[t := Ready(a, Some(r))] == w.threads[t := Ready(a, Some(r))];
  }

  lemma {:induction false} StartMove(w: World, t: nat, a: nat, r: nat)
    requires t in w.threads && w.threads[t] == Ready(a, Some(r))
    ensures Apply(w, Move(t, StartExecution(false))) == At(Started(w, a, Some(r)), t, Running(a))
  {
    assert (w.threads - {t})[t := Running(a)] == w.threads[t := Running(a)];
  }

  lemma {:induction false} ApprovalStartsTheNewest(w: World, t: nat, r: nat, newest: nat)
    requires t in w.threads && w.threads[t] == Resolved(r, Decision.Approved)
    requires NewestAttached(w.actions, r) == Some(newest)
    ensures After(w, StartApproved(t)).executions == w.executions + [Execution(newest, Some(r))]
    ensures After(w, StartApproved(t)).actions == SetStatus(w.actions, newest, ActionStatus.Approved)
  {
    var handed := [Move(t, FindAction), Move(t, SyncStatus)];
    AfterTwo(w, handed[0], handed[1]);
    FindMove(w, t, r, Decision.Approved, newest);
    SyncMove(Apply(w, handed[0]), t, newest, r);
    AfterOneMore(w, handed, Move(t, StartExecution(false)));
    assert handed + [Move(t, StartExecution(false))] == StartApproved(t);
    StartMove(After(w, handed), t, newest, r);
  }

  /** A resolved request is handed to the newest attached action, so its approval strands every older one. */
  lemma {:induction false} ApprovalStrandsOlderActions(w: World, t: nat, b: nat)
    requires Inv(w) && t in w.threads && w.threads[t].Resolved? && w.threads[t].decision.Approved?
    requires b < |w.actions| && w.actions[b].request == Some(w.threads[t].request)
    requires NewestAttached(w.actions, w.threads[t].request) != Some(b)
    ensures IsStranded(After(w, StartApproved(t)), b)
    ensures After(w, StartApproved(t)).actions[b] == w.actions[b]
  {
    var r := w.threads[t].request;
    var newest := NewestAttached(w.actions, r).value;
    ApprovalStartsTheNewest(w, t, r, newest);
    var w' := After(w, StartApproved(t));
    assert PhaseOk(w, w.threads[t]);
    assert w'.executions[|w.executions|].via == Some(r);
    forall i | 0 <= i < |w'.executions| ensures w'.executions[i].action != b {
      if i < |w.executions| {
        assert ExecutionOk(w, w.executions[i]);
        assert w.executions[i].via != Some(r);
      }
    }
    AfterKeepsInvAndFollows(w, StartApproved(t));
    UsedRequestsStrand(w', b, r);
  }

  lemma {:induction false} AfterNext(w: World, moves: seq<Move>, k: nat)
    requires k < |moves|
    ensures After(w, moves[..k + 1]) == Apply(After(w, moves[..k]), moves[k])
  {
    assert moves[..k + 1][..k] == moves[..k];
  }

  // ----- Actions that nobody routes any more ---------------------------------------------------------------------------

  /** Attached to no request, never started, and in the hands of no thread. */
  predicate IsAbandoned(w: World, b: nat) {
    IsFresh(w, b) && forall t | t in w.threads :: Owned(w.threads[t]) != Some(b)
  }

  /** A thread works on an action only if it owns it, or the action is attached or started. */
  lemma {:induction false} NoThreadActsOnAbandoned(w: World, b: nat, p: Phase)
    requires IsFresh(w, b) && PhaseOk(w, p) && Owned(p) != Some(b)
    ensures p.Syncing? || p.Ready? || p.Running? ==> p.action != b
  {
  }

  lemma {:induction false} MoverDoesNotOwn(w: World, move: Move, b: nat)
    requires move.thread in w.threads && Owned(w.threads[move.thread]) != Some(b)
    ensures move.thread in Apply(w, move).threads ==> Owned(Apply(w, move).threads[move.thread]) != Some(b)
  {
    var t, p := move.thread, w.threads[move.thread];
    if IsRouting(p) { RoutingKeepsOwner(Idle(w, t), t, p, move.step); } else { OutcomesKeepClaim(Idle(w, t), t, p, move.step); }
  }

  lemma {:induction false} ApplyLeavesAbandoned(w: World, move: Move, b: nat)
    requires Inv(w) && IsAbandoned(w, b)
    ensures IsAbandoned(Apply(w, move), b) && Apply(w, move).actions[b] == w.actions[b]
  {
    if move.thread in w.threads {
      NoThreadActsOnAbandoned(w, b, w.threads[move.thread]);
      ThreadStepLeavesAction(w, move, b);
      MoverDoesNotOwn(w, move, b);
    } else {
      FirstStepLeavesAction(w, move, b);
    }
    forall u | u in Apply(w, move).threads ensures Owned(Apply(w, move).threads[u]) != Some(b) {
      if u != move.thread { OtherThreadsStay(w, move, u); }
    }
  }

  /** Such an action is never started, routed or changed in any continuation. */
  lemma {:induction false} AbandonedActionsNeverRun(w: World, moves: seq<Move>, b: nat)
    requires Inv(w) && IsAbandoned(w, b)
    ensures IsAbandoned(After(w, moves), b) && After(w, moves).actions[b] == w.actions[b]
  {
    if moves != [] {
      var before, last := moves[..|moves| - 1], moves[|moves| - 1];
      AbandonedActionsNeverRun(w, before, b);
      AfterKeepsInvAndFollows(w, before);
      ApplyLeavesAbandoned(After(w, before), last, b);
    }
  }

  /** An action that policy blocks when it is planned is abandoned, blocked, for ever. */
  lemma {:induction false} PolicyBlockedActionsNeverRun(
    w: World, t: nat, fingerprint: Fingerprint, needsApproval: bool, more: seq<Move>)
    requires Inv(w) && t !in w.threads
    ensures var w' := After(Apply(w, Move(t, PlanAction(fingerprint, true, needsApproval))), more);
            IsAbandoned(w', |w.actions|) && w'.actions[|w.actions|] == Action(fingerprint, ActionStatus.Blocked, None)
  {
    var w1, a := Apply(w, Move(t, PlanAction(fingerprint, true, needsApproval))), |w.actions|;
    ApplyKeepsInv(w, Move(t, PlanAction(fingerprint, true, needsApproval)));
    forall i | 0 <= i < |w.executions| ensures w.executions[i].action != a {
      assert ExecutionOk(w, w.executions[i]);
    }
    forall u | u in w.threads ensures Owned(w.threads[u]) != Some(a) {
      assert PhaseOk(w, w.threads[u]);
    }
    AbandonedActionsNeverRun(w1, more, a);
  }

  /** So is one that the cap denies. */
  lemma {:induction false} DeniedActionsNeverRun(w: World, t: nat, more: seq<Move>)
    requires Inv(w) && t in w.threads && w.threads[t].Planned?
    ensures var w' := After(Apply(w, Move(t, Decide(true, AlwaysDeny))), more);
            var a := w.threads[t].action;
            IsAbandoned(w', a) && w'.actions[a].status.Blocked?
  {
    var w1, a := Apply(w, Move(t, Decide(true, AlwaysDeny))), w.threads[t].action;
    ApplyKeepsInv(w, Move(t, Decide(true, AlwaysDeny)));
    LeavingKeepsInv(w, t);
    assert Alone(Idle(w, t), t, w.threads[t]);
    forall u | u in w1.threads ensures Owned(w1.threads[u]) != Some(a) {
      assert Apart(w.threads[t], w.threads[u]);
    }
    AbandonedActionsNeverRun(w1, more, a);
  }

  // ----- What planning and the cap decide --------------------------------------------------------------------------------

  /** An action that a thread still owns has the status that its planning and the cap gave it. */
  predicate HasOwnedStatus(actions: seq<Action>, p: Phase) {
    match p
    case Planned(a, needsApproval) => a < |actions| && actions[a].status == if needsApproval then AwaitingApproval else Proposed
    case Ready(a, None) => a < |actions| && actions[a].status.Proposed?
    case _ => Owned(p).Some? ==> Owned(p).value < |actions| && actions[Owned(p).value].status.AwaitingApproval?
  }

  predicate OwnedStatusesHold(w: World) {
    forall t | t in w.threads :: HasOwnedStatus(w.actions, w.threads[t])
  }

  lemma {:induction false} MoverHasOwnedStatus(w: World, move: Move)
    requires Inv(w) && OwnedStatusesHold(w)
    ensures move.thread in Apply(w, move).threads ==> HasOwnedStatus(Apply(w, move).actions, Apply(w, move).threads[move.thread])
  {
    var t, p := move.thread, if move.thread in w.threads then w.threads[move.thread] else Running(0);
    if t in w.threads {
      if IsRouting(p) {
        RoutingHasOwnedStatus(Idle(w, t), t, p, move.step);
      } else {
        OutcomeHasOwnedStatus(Idle(w, t), t, p, move.step);
      }
    }
  }

  lemma {:induction false} RoutingHasOwnedStatus(w: World, t: nat, p: Phase, step: Step)
    requires IsRouting(p) && HasOwnedStatus(w.actions, p)
    ensures var w' := ApplyRouting(w, t, p, step);
            t in w'.threads ==> HasOwnedStatus(w'.actions, w'.threads[t])
  {
  }

  lemma {:induction false} OutcomeHasOwnedStatus(w: World, t: nat, p: Phase, step: Step)
    requires !IsRouting(p) && HasOwnedStatus(w.actions, p)
    ensures var w' := ApplyOutcome(w, t, p, step);
            t in w'.threads ==> HasOwnedStatus(w'.actions, w'.threads[t])
  {
  }

  /** What a thread owns, no other thread touches. */
  lemma {:induction false} OwnedStays(w: World, move: Move, u: nat)
    requires Inv(w) && u in w.threads && u != move.thread && Owned(w.threads[u]).Some?
    ensures var b := Owned(w.threads[u]).value;
            b < |w.actions| && b < |Apply(w, move).actions| && Apply(w, move).actions[b] == w.actions[b]
  {
    var b := Owned(w.threads[u]).value;
    assert PhaseOk(w, w.threads[u]);
    if move.thread in w.threads {
      assert PhaseOk(w, w.threads[move.thread]) && Apart(w.threads[u], w.threads[move.thread]);
      NoThreadActsOnAbandoned(w, b, w.threads[move.thread]);
      ThreadStepLeavesAction(w, move, b);
    } else {
      FirstStepLeavesAction(w, move, b);
    }
  }

  lemma {:induction false} OtherHasOwnedStatus(w: World, move: Move, u: nat)
    requires Inv(w) && OwnedStatusesHold(w) && u != move.thread && u in Apply(w, move).threads
    ensures HasOwnedStatus(Apply(w, move).actions, Apply(w, move).threads[u])
  {
    OtherThreadsStay(w, move, u);
    assert HasOwnedStatus(w.actions, w.threads[u]);
    if Owned(w.threads[u]).Some? { OwnedStays(w, move, u); }
  }

  lemma {:induction false} ApplyKeepsOwnedStatuses(w: World, move: Move)
    requires Inv(w) && OwnedStatusesHold(w)
    ensures OwnedStatusesHold(Apply(w, move))
  {
    MoverHasOwnedStatus(w, move);
    forall u | u in Apply(w, move).threads ensures HasOwnedStatus(Apply(w, move).actions, Apply(w, move).threads[u]) {
      if u != move.thread { OtherHasOwnedStatus(w, move, u); }
    }
  }

  lemma {:induction false} EveryRunKeepsOwnedStatuses(maxPending: nat, moves: seq<Move>)
    ensures OwnedStatusesHold(After(Init(maxPending), moves))
  {
    if moves != [] {
      EveryRunKeepsInv(maxPending, moves[..|moves| - 1]);
      EveryRunKeepsOwnedStatuses(maxPending, moves[..|moves| - 1]);
      ApplyKeepsOwnedStatuses(After(Init(maxPending), moves[..|moves| - 1]), moves[|moves| - 1]);
    }
  }

  /**
   In every run: a planned action is made ready to run without approval exactly if it needs none and the cap neither
   escalates nor denies. It is routed to approval if it needs it, or the cap escalates; the cap may deny it instead.
   */
  lemma {:induction false} CapDecides(maxPending: nat, moves: seq<Move>, t: nat, atCap: bool, behavior: CapBehavior)
    requires t in After(Init(maxPending), moves).threads && After(Init(maxPending), moves).threads[t].Planned?
    ensures var w := After(Init(maxPending), moves);
            var w' := Apply(w, Move(t, Decide(atCap, behavior)));
            var a, needed := w.threads[t].action, w.threads[t].needsApproval;
            && a < |w'.actions|
            && (t in w'.threads && w'.threads[t] == Ready(a, None) <==> !needed && (atCap ==> behavior.AlwaysApprove?))
            && (t in w'.threads && w'.threads[t] == Routing(a) <==> (needed || (atCap && behavior.Escalate?)) && !(atCap && behavior.AlwaysDeny?))
            && (t !in w'.threads <==> atCap && behavior.AlwaysDeny?)
            && (a in w'.gated <==> needed || (atCap && behavior.Escalate?))
            && w'.actions[a].status == (if t !in w'.threads then ActionStatus.Blocked
                                        else if a in w'.gated then AwaitingApproval else Proposed)
  {
    EveryRunKeepsInv(maxPending, moves);
    EveryRunKeepsOwnedStatuses(maxPending, moves);
    var w := After(Init(maxPending), moves);
    assert PhaseOk(w, w.threads[t]) && HasOwnedStatus(w.actions, w.threads[t]);
  }

  lemma {:induction false} RoutingKeepsGated(w: World, t: nat, p: Phase, step: Step)
    ensures w.gated <= ApplyRouting(w, t, p, step).gated
  {
  }

  lemma {:induction false} OutcomesKeepGated(w: World, t: nat, p: Phase, step: Step)
    ensures ApplyOutcome(w, t, p, step).gated == w.gated
  {
  }

  lemma {:induction false} ApplyKeepsGated(w: World, move: Move)
    ensures w.gated <= Apply(w, move).gated
  {
    if move.thread in w.threads {
      RoutingKeepsGated(Idle(w, move.thread), move.thread, w.threads[move.thread], move.step);
      OutcomesKeepGated(Idle(w, move.thread), move.thread, w.threads[move.thread], move.step);
    }
  }

  lemma {:induction false} AfterKeepsGated(w: World, moves: seq<Move>)
    ensures w.gated <= After(w, moves).gated
  {
    if moves != [] {
      AfterKeepsGated(w, moves[..|moves| - 1]);
      ApplyKeepsGated(After(w, moves[..|moves| - 1]), moves[|moves| - 1]);
    }
  }

  /** All starts of the action are under its approved request, for its fingerprint. */
  predicate StartsOnlyApproved(w: World, a: nat) {
    forall i | 0 <= i < |w.executions| && w.executions[i].action == a ::
      && a < |w.actions| && w.executions[i].via.Some? && w.actions[a].request == w.executions[i].via
      && IsResolvedAs(w, w.executions[i].via, RequestStatus.Approved)
      && w.tables.requests[w.executions[i].via.value].details.fingerprint == w.actions[a].fingerprint
  }

  lemma {:induction false} GatedStartsAreApproved(w: World, a: nat)
    requires Inv(w) && a in w.gated
    ensures StartsOnlyApproved(w, a)
  {
    forall i | 0 <= i < |w.executions| && w.executions[i].action == a
      ensures a < |w.actions| && w.executions[i].via.Some? && IsRequestFor(w, w.executions[i].via.value, w.actions[a].fingerprint)
    {
      assert ExecutionOk(w, w.executions[i]) && ActionOk(w, a);
    }
    assert forall i | 0 <= i < |w.executions| :: ExecutionOk(w, w.executions[i]);
  }

  /** Once gated, an action is started only when approved, in every continuation. */
  lemma {:induction false} GatedActionsStayGated(maxPending: nat, moves: seq<Move>, more: seq<Move>, a: nat)
    requires a in After(Init(maxPending), moves).gated
    ensures StartsOnlyApproved(After(After(Init(maxPending), moves), more), a)
  {
    var w := After(Init(maxPending), moves);
    EveryRunKeepsInv(maxPending, moves);
    AfterKeepsInvAndFollows(w, more);
    AfterKeepsGated(w, more);
    GatedStartsAreApproved(After(w, more), a);
  }

  /** An action planned at a cap that escalates, whether it needs approval or not, is started only when approved, whatever follows. */
  lemma {:induction false} EscalatedActionsRunOnlyWhenApproved(maxPending: nat, moves: seq<Move>, t: nat, more: seq<Move>)
    requires t in After(Init(maxPending), moves).threads && After(Init(maxPending), moves).threads[t].Planned?
    ensures var w := After(Init(maxPending), moves);
            StartsOnlyApproved(After(Apply(w, Move(t, Decide(true, Escalate))), more), w.threads[t].action)
  {
    var w := After(Init(maxPending), moves);
    CapDecides(maxPending, moves, t, true, Escalate);
    AfterOneMore(Init(maxPending), moves, Move(t, Decide(true, Escalate)));
    GatedActionsStayGated(maxPending, moves + [Move(t, Decide(true, Escalate))], more, w.threads[t].action);
  }

  /** So is one planned as needing approval, at any cap. */
  lemma {:induction false} PlannedForApprovalRunsOnlyWhenApproved(
    maxPending: nat, moves: seq<Move>, t: nat, fingerprint: Fingerprint, violatesPolicy: bool, more: seq<Move>)
    requires t !in After(Init(maxPending), moves).threads
    ensures var w := After(Init(maxPending), moves);
            var planned := Apply(w, Move(t, PlanAction(fingerprint, violatesPolicy, true)));
            && |planned.actions| == |w.actions| + 1
            && planned.actions[|w.actions|] ==
               Action(fingerprint, if violatesPolicy then ActionStatus.Blocked else AwaitingApproval, None)
            && StartsOnlyApproved(After(planned, more), |w.actions|)
  {
    var w, move := After(Init(maxPending), moves), Move(t, PlanAction(fingerprint, violatesPolicy, true));
    AfterOneMore(Init(maxPending), moves, move);
    GatedActionsStayGated(maxPending, moves + [move], more, |w.actions|);
  }

  /** A finished execution leaves the status that tells its outcome, and touches nothing else. */
  lemma {:induction false} OutcomesAreRecorded(maxPending: nat, moves: seq<Move>, t: nat, outcome: Outcome)
    requires t in After(Init(maxPending), moves).threads && After(Init(maxPending), moves).threads[t].Running?
    ensures var w := After(Init(maxPending), moves);
            var w' := Apply(w, Move(t, FinishExecution(outcome)));
            var a := w.threads[t].action;
            && a < |w.actions| && |w'.actions| == |w.actions|
            && (w'.actions[a].status.Executed? <==> outcome.Succeeds?)
            && (w'.actions[a].status.Failed? <==> outcome.Fails?)
            && (w'.actions[a].status.Blocked? <==> outcome.IsBlocked?)
            && (forall b | 0 <= b < |w.actions| && b != a :: w'.actions[b] == w.actions[b])
            && w'.tables == w.tables && w'.executions == w.executions && t !in w'.threads
  {
    EveryRunKeepsInv(maxPending, moves);
    assert PhaseOk(After(Init(maxPending), moves), After(Init(maxPending), moves).threads[t]);
  }
}
