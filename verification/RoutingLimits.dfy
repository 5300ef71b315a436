/**
 What approval routing keeps when routers overlap: the lookup and the insert of a request are separate
 steps. The unique indexes keep one pending request for a fingerprint and one request for a token; the
 maximal number of pending requests has no such guard.
 */
module RoutingLimits {
  import opened Text
  import opened Approvals
  import opened ActionCap
  import opened GatedActions

  predicate IsCreating(p: Phase) {
    p.Creating? || p.Inserting?
  }

  /** No two threads are between their lookup and their insert. */
  predicate SerialRouting(w: World) {
    forall t, u | t in w.threads && u in w.threads && IsCreating(w.threads[t]) && IsCreating(w.threads[u]) :: t == u
  }

  predicate CreationOk(w: World, p: Phase) {
    match p
    case Creating(a) => a < |w.actions| && !HasPending(w.tables.requests, w.actions[a].fingerprint)
    case Inserting(_, form) => !HasPending(w.tables.requests, form.fingerprint) && PendingCount(w.tables.requests) < w.maxPending
    case _ => true
  }

  /** What threads between their lookup and their insert have found is still so. */
  predicate ChecksHold(w: World) {
    forall t | t in w.threads :: CreationOk(w, w.threads[t])
  }

  predicate OnlyResolves(requests: seq<Request>, requests': seq<Request>) {
    && |requests'| == |requests|
    && forall r | 0 <= r < |requests| ::
         requests'[r].details == requests[r].details && (requests'[r].status.Pending? ==> requests[r].status.Pending?)
  }

  lemma {:induction false} ResolvingAddsNoPending(requests: seq<Request>, requests': seq<Request>)
    requires OnlyResolves(requests, requests')
    ensures PendingCount(requests') <= PendingCount(requests)
  {
    if requests != [] {
      var n := |requests| - 1;
      ResolvingAddsNoPending(requests[..n], requests'[..n]);
    }
  }

  lemma {:induction false} ResolvingFindsNoPending(requests: seq<Request>, requests': seq<Request>, fingerprint: Fingerprint)
    requires OnlyResolves(requests, requests')
    ensures HasPending(requests', fingerprint) ==> HasPending(requests, fingerprint)
  {
    if r :| 0 <= r < |requests'| && IsPendingFor(requests', fingerprint, r) {
      assert IsPendingFor(requests, fingerprint, r);
    }
  }

  lemma {:induction false} InsertCountsOne(requests: seq<Request>, form: NewRequest)
    ensures PendingCount(requests + [Opened(form)]) == PendingCount(requests) + 1
  {
    assert (requests + [Opened(form)])[..|requests|] == requests;
  }

  predicate TriesInsert(w: World, move: Move) {
    move.thread in w.threads && w.threads[move.thread].Inserting? && move.step.InsertRequest?
  }

  /** The move commits a new request. */
  predicate IsInsert(w: World, move: Move) {
    TriesInsert(w, move) && !IsRefused(w.tables.requests, w.threads[move.thread].form)
  }

  lemma {:induction false} OtherMovesOnlyResolve(w: World, move: Move)
    requires !IsInsert(w, move)
    ensures OnlyResolves(w.tables.requests, Apply(w, move).tables.requests)
    ensures Apply(w, move).maxPending == w.maxPending
  {
    if move.thread in w.threads {
      OtherStepsOnlyResolve(Idle(w, move.thread), move.thread, w.threads[move.thread], move.step);
    }
  }

  lemma {:induction false} OtherStepsOnlyResolve(w: World, t: nat, p: Phase, step: Step)
    requires !(p.Inserting? && step.InsertRequest? && !IsRefused(w.tables.requests, p.form))
    ensures OnlyResolves(w.tables.requests, ApplyIn(w, t, p, step).tables.requests)
    ensures ApplyIn(w, t, p, step).maxPending == w.maxPending
  {
    if p.Sweeping? && p.due != [] {
      assert OnlyResolves(w.tables.requests, ExpireOne(w.tables, p.due[0], p.now).requests);
    }
  }

  // ----- One pending request for a fingerprint, one request for a token ---------------------------------------------

  lemma {:induction false} ApplyKeepsUnique(w: World, move: Move)
    requires UniquePending(w.tables.requests) && UniqueTokens(w.tables.requests)
    ensures UniquePending(Apply(w, move).tables.requests) && UniqueTokens(Apply(w, move).tables.requests)
  {
    if IsInsert(w, move) {
      InsertMove(w, move.thread, w.threads[move.thread].action, w.threads[move.thread].form);
      RefusedIffNotUnique(w.tables.requests, w.threads[move.thread].form);
    } else {
      OtherMovesOnlyResolve(w, move);
    }
  }

  /** In every run, however routers overlap: no fingerprint has two pending requests, and a token names one request. */
  lemma {:induction false} RequestsStayUnique(maxPending: nat, moves: seq<Move>)
    ensures UniquePending(After(Init(maxPending), moves).tables.requests)
    ensures UniqueTokens(After(Init(maxPending), moves).tables.requests)
  {
    if moves != [] {
      RequestsStayUnique(maxPending, moves[..|moves| - 1]);
      ApplyKeepsUnique(After(Init(maxPending), moves[..|moves| - 1]), moves[|moves| - 1]);
    }
  }

  /**
   A router inserts after it has found the fingerprint free. Its insert is refused exactly when a request
   with that fingerprint was inserted since and is still pending.
   */
  lemma {:induction false} LateInsertIsRefusedIff(maxPending: nat, moves: seq<Move>, more: seq<Move>, t: nat)
    requires var w' := After(After(Init(maxPending), moves), more);
             && t in w'.threads && w'.threads[t].Inserting?
             && !HasPending(After(Init(maxPending), moves).tables.requests, w'.threads[t].form.fingerprint)
             && FindByToken(w'.tables.requests, w'.threads[t].form.token).None?
    ensures var w := After(Init(maxPending), moves);
            var w' := After(w, more);
            Apply(w', Move(t, InsertRequest)).tables == w'.tables <==>
            exists r :: |w.tables.requests| <= r < |w'.tables.requests|
                        && IsPendingFor(w'.tables.requests, w'.threads[t].form.fingerprint, r)
  {
    var w := After(Init(maxPending), moves);
    EveryRunKeepsInv(maxPending, moves);
    AfterKeepsInvAndFollows(w, more);
    var w' := After(w, more);
    var form := w'.threads[t].form;
    forall r | 0 <= r < |w'.tables.requests| && IsPendingFor(w'.tables.requests, form.fingerprint, r)
      ensures |w.tables.requests| <= r
    {
      assert !IsPendingFor(w.tables.requests, form.fingerprint, r);
    }
    InsertOutcome(w', t);
  }

  lemma {:induction false} InsertOutcome(w: World, t: nat)
    requires t in w.threads && w.threads[t].Inserting?
    ensures Apply(w, Move(t, InsertRequest)).tables ==
            if IsRefused(w.tables.requests, w.threads[t].form) then w.tables
            else w.tables.(requests := w.tables.requests + [Opened(w.threads[t].form)])
    ensures IsRefused(w.tables.requests, w.threads[t].form) ==> Apply(w, Move(t, InsertRequest)) == Idle(w, t)
  {
    assert w.threads - {t} - {t} == w.threads - {t};
  }

  /** The action of a refused router is attached to nothing, and no continuation routes, starts or changes it. */
  lemma {:induction false} RefusedRoutersAbandonTheirActions(maxPending: nat, moves: seq<Move>, t: nat, more: seq<Move>)
    requires var w := After(Init(maxPending), moves);
             t in w.threads && w.threads[t].Inserting? && IsRefused(w.tables.requests, w.threads[t].form)
    ensures var w := After(Init(maxPending), moves);
            var a := w.threads[t].action;
            var w' := After(Apply(w, Move(t, InsertRequest)), more);
            IsAbandoned(w', a) && a < |w.actions| && w'.actions[a] == w.actions[a]
  {
    var w := After(Init(maxPending), moves);
    EveryRunKeepsInv(maxPending, moves);
    InsertOutcome(w, t);
    assert PhaseOk(w, w.threads[t]);
    LeavingKeepsInv(w, t);
    forall u | u in w.threads && u != t ensures Owned(w.threads[u]) != Some(w.threads[t].action) {
      assert Apart(w.threads[t], w.threads[u]);
    }
    AbandonedActionsNeverRun(Idle(w, t), more, w.threads[t].action);
  }

  // ----- The number of pending requests ---------------------------------------------------------------------------------

  predicate WithinLimit(w: World) {
    PendingCount(w.tables.requests) <= w.maxPending
  }

  /** The move does not commit a request while the limit is reached. */
  predicate FindsRoom(w: World, move: Move) {
    IsInsert(w, move) ==> PendingCount(w.tables.requests) < w.maxPending
  }

  /** A move keeps the limit exactly when it commits no request, or one for which there still is room. */
  lemma {:induction false} MoveKeepsLimitIff(w: World, move: Move)
    requires WithinLimit(w)
    ensures WithinLimit(Apply(w, move)) <==> FindsRoom(w, move)
  {
    MaxPendingStays(w, move);
    if IsInsert(w, move) {
      InsertMove(w, move.thread, w.threads[move.thread].action, w.threads[move.thread].form);
      InsertCountsOne(w.tables.requests, w.threads[move.thread].form);
    } else {
      OtherMovesOnlyResolve(w, move);
      ResolvingAddsNoPending(w.tables.requests, Apply(w, move).tables.requests);
    }
  }

  predicate LimitThroughout(maxPending: nat, moves: seq<Move>) {
    forall k | 0 <= k <= |moves| :: WithinLimit(After(Init(maxPending), moves[..k]))
  }

  predicate RoomThroughout(maxPending: nat, moves: seq<Move>) {
    forall k | 0 <= k < |moves| :: FindsRoom(After(Init(maxPending), moves[..k]), moves[k])
  }

  lemma {:induction false} RoomKeepsLimit(maxPending: nat, moves: seq<Move>, k: nat)
    requires RoomThroughout(maxPending, moves) && k <= |moves|
    ensures WithinLimit(After(Init(maxPending), moves[..k]))
  {
    if k == 0 {
      assert moves[..0] == [];
    } else {
      RoomKeepsLimit(maxPending, moves, k - 1);
      AfterNext(Init(maxPending), moves, k - 1);
      MoveKeepsLimitIff(After(Init(maxPending), moves[..k - 1]), moves[k - 1]);
    }
  }

  /** A run stays within the pending limit throughout exactly when every request it commits still finds room. */
  lemma {:induction false} LimitHoldsIffInsertsFindRoom(maxPending: nat, moves: seq<Move>)
    ensures LimitThroughout(maxPending, moves) <==> RoomThroughout(maxPending, moves)
  {
    if RoomThroughout(maxPending, moves) {
      forall k | 0 <= k <= |moves| ensures WithinLimit(After(Init(maxPending), moves[..k])) {
        RoomKeepsLimit(maxPending, moves, k);
      }
    }
    if LimitThroughout(maxPending, moves) {
      forall k | 0 <= k < |moves| ensures FindsRoom(After(Init(maxPending), moves[..k]), moves[k]) {
        assert WithinLimit(After(Init(maxPending), moves[..k])) && WithinLimit(After(Init(maxPending), moves[..k + 1]));
        AfterNext(Init(maxPending), moves, k);
        MoveKeepsLimitIff(After(Init(maxPending), moves[..k]), moves[k]);
      }
    }
  }

  lemma {:induction false} RoutingMoverIsInOrder(w: World, t: nat, p: Phase, step: Step)
    requires PhaseOk(w, p) && CreationOk(w, p) && IsRouting(p)
    requires !(p.Inserting? && step.InsertRequest? && !IsRefused(w.tables.requests, p.form))
    ensures t in ApplyRouting(w, t, p, step).threads ==>
              CreationOk(ApplyRouting(w, t, p, step), ApplyRouting(w, t, p, step).threads[t])
  {
  }

  lemma {:induction false} OutcomesNeverCreate(w: World, t: nat, p: Phase, step: Step)
    requires !IsRouting(p)
    ensures t in ApplyOutcome(w, t, p, step).threads ==> !IsCreating(ApplyOutcome(w, t, p, step).threads[t])
  {
  }

  /** The thread that moves is in order after its move. */
  lemma {:induction false} MoverIsInOrder(w: World, move: Move)
    requires Inv(w) && ChecksHold(w)
    requires !IsInsert(w, move)
    ensures move.thread in Apply(w, move).threads ==> CreationOk(Apply(w, move), Apply(w, move).threads[move.thread])
  {
    var t, step := move.thread, move.step;
    if t in w.threads {
      var p := w.threads[t];
      assert CreationOk(w, p) && PhaseOk(w, p);
      PhaseStaysWithNoWork(w, Idle(w, t), p);
      if IsRouting(p) {
        RoutingMoverIsInOrder(Idle(w, t), t, p, step);
      } else {
        OutcomesNeverCreate(Idle(w, t), t, p, step);
      }
    }
  }

  lemma {:induction false} OtherStaysInOrder(w: World, w': World, p: Phase)
    requires CreationOk(w, p)
    requires OnlyResolves(w.tables.requests, w'.tables.requests)
    requires w'.maxPending == w.maxPending && ActionsGrow(w.actions, w'.actions)
    ensures CreationOk(w', p)
  {
    ResolvingAddsNoPending(w.tables.requests, w'.tables.requests);
    match p
    case Creating(a) =>
      if a < |w.actions| {
        ResolvingFindsNoPending(w.tables.requests, w'.tables.requests, w.actions[a].fingerprint);
      }
    case Inserting(_, form) => ResolvingFindsNoPending(w.tables.requests, w'.tables.requests, form.fingerprint);
    case _ =>
  }

  lemma {:induction false} InsertKeepsChecks(w: World, move: Move)
    requires SerialRouting(w) && IsInsert(w, move)
    ensures ChecksHold(Apply(w, move))
  {
    var t, w' := move.thread, Apply(w, move);
    InsertMove(w, t, w.threads[t].action, w.threads[t].form);
    forall u | u in w'.threads ensures CreationOk(w', w'.threads[u]) {
      assert u != t ==> !IsCreating(w.threads[u]);
    }
  }

  lemma {:induction false} OtherMovesKeepChecks(w: World, move: Move)
    requires Inv(w) && ChecksHold(w) && !IsInsert(w, move)
    ensures ChecksHold(Apply(w, move))
  {
    OtherMovesOnlyResolve(w, move);
    MoverIsInOrder(w, move);
    ApplyFollows(w, move);
    forall u | u in w.threads && u != move.thread ensures CreationOk(Apply(w, move), w.threads[u]) {
      OtherStaysInOrder(w, Apply(w, move), w.threads[u]);
    }
    OrderIsKept(w, Apply(w, move), move);
  }

  lemma {:induction false} OrderIsKept(w: World, w': World, move: Move)
    requires w' == Apply(w, move)
    requires move.thread in w'.threads ==> CreationOk(w', w'.threads[move.thread])
    requires forall u | u in w.threads && u != move.thread :: CreationOk(w', w.threads[u])
    ensures ChecksHold(w')
  {
    forall u | u in w'.threads ensures CreationOk(w', w'.threads[u]) {
      if u != move.thread { OtherThreadsStay(w, move, u); }
    }
  }

  predicate SerialThroughout(maxPending: nat, moves: seq<Move>) {
    forall k | 0 <= k <= |moves| :: SerialRouting(After(Init(maxPending), moves[..k]))
  }

  lemma {:induction false} SerialMoveKeepsChecks(w: World, move: Move)
    requires Inv(w) && SerialRouting(w) && ChecksHold(w)
    ensures ChecksHold(Apply(w, move))
  {
    if IsInsert(w, move) {
      InsertKeepsChecks(w, move);
    } else {
      OtherMovesKeepChecks(w, move);
    }
  }

  lemma {:induction false} SerialChecksHold(maxPending: nat, moves: seq<Move>, k: nat)
    requires SerialThroughout(maxPending, moves) && k <= |moves|
    ensures ChecksHold(After(Init(maxPending), moves[..k]))
  {
    if k == 0 {
      assert moves[..0] == [];
    } else {
      SerialChecksHold(maxPending, moves, k - 1);
      EveryRunKeepsInv(maxPending, moves[..k - 1]);
      assert SerialRouting(After(Init(maxPending), moves[..k - 1]));
      SerialMoveKeepsChecks(After(Init(maxPending), moves[..k - 1]), moves[k - 1]);
      AfterNext(Init(maxPending), moves, k - 1);
    }
  }

  /**
   With serial routing no insert is refused for its fingerprint and none passes the limit, whatever
   resolvers and sweeps do meanwhile.
   */
  lemma {:induction false} SerialRoutingKeepsTheLimit(maxPending: nat, moves: seq<Move>)
    requires SerialThroughout(maxPending, moves)
    ensures LimitThroughout(maxPending, moves)
    ensures forall k | 0 <= k < |moves| ::
              var w := After(Init(maxPending), moves[..k]);
              TriesInsert(w, moves[k]) ==>
                !HasPending(w.tables.requests, w.threads[moves[k].thread].form.fingerprint)
                && PendingCount(w.tables.requests) < w.maxPending
  {
    forall k | 0 <= k < |moves|
      ensures var w := After(Init(maxPending), moves[..k]);
              TriesInsert(w, moves[k]) ==> CreationOk(w, w.threads[moves[k].thread])
    {
      SerialChecksHold(maxPending, moves, k);
    }
    assert RoomThroughout(maxPending, moves);
    LimitHoldsIffInsertsFindRoom(maxPending, moves);
  }

  lemma {:induction false} MaxPendingStays(w: World, move: Move)
    ensures Apply(w, move).maxPending == w.maxPending
  {
  }

  /** The moves that take a new action through planning, lookup and limit check. */
  function ApproachInsert(t: nat, form: NewRequest): seq<Move> {
    PlanAndDecide(t, form) + LookAndCheck(t, form)
  }

  function PlanAndDecide(t: nat, form: NewRequest): seq<Move> {
    [Move(t, PlanAction(form.fingerprint, false, true)), Move(t, Decide(false, Escalate))]
  }

  function LookAndCheck(t: nat, form: NewRequest): seq<Move> {
    [Move(t, LookUpPending(0)), Move(t, CheckLimit(form))]
  }

  lemma {:induction false} DecideMove(w: World, t: nat, a: nat)
    requires t in w.threads && w.threads[t] == Planned(a, true)
    ensures Apply(w, Move(t, Decide(false, Escalate))) == At(w, t, Routing(a))
  {
    assert (w.threads - {t})[t := Routing(a)] == w.threads[t := Routing(a)];
  }

  lemma {:induction false} LookUpMove(w: World, t: nat, a: nat)
    requires t in w.threads && w.threads[t] == Routing(a) && a < |w.actions|
    requires !HasPending(w.tables.requests, w.actions[a].fingerprint)
    ensures Apply(w, Move(t, LookUpPending(0))) == At(w, t, Creating(a))
  {
    assert !IsPendingFor(w.tables.requests, w.actions[a].fingerprint, 0);
    assert (w.threads - {t})[t := Creating(a)] == w.threads[t := Creating(a)];
  }

  lemma {:induction false} CheckMove(w: World, t: nat, a: nat, form: NewRequest)
    requires t in w.threads && w.threads[t] == Creating(a) && a < |w.actions| && w.actions[a].fingerprint == form.fingerprint
    requires ValidateNewRequest(form).None? && PendingCount(w.tables.requests) < w.maxPending
    ensures Apply(w, Move(t, CheckLimit(form))) == At(w, t, Inserting(a, form))
  {
    assert form.(fingerprint := w.actions[a].fingerprint) == form;
    assert (w.threads - {t})[t := Inserting(a, form)] == w.threads[t := Inserting(a, form)];
  }

  lemma {:induction false} PlanAndDecideMoves(w: World, t: nat, form: NewRequest)
    requires t !in w.threads
    ensures var a := |w.actions|;
            After(w, PlanAndDecide(t, form)) == w.(
              actions := w.actions + [Action(form.fingerprint, AwaitingApproval, None)],
              gated := w.gated + {a},
              threads := w.threads[t := Routing(a)])
  {
    AfterTwo(w, PlanAndDecide(t, form)[0], PlanAndDecide(t, form)[1]);
    var w1 := Plan(w, t, form.fingerprint, false, true);
    assert Apply(w, PlanAndDecide(t, form)[0]) == w1;
    DecideMove(w1, t, |w.actions|);
    assert w.threads[t := Planned(|w.actions|, true)][t := Routing(|w.actions|)] == w.threads[t := Routing(|w.actions|)];
  }

  lemma {:induction false} LookAndCheckMoves(w: World, t: nat, a: nat, form: NewRequest)
    requires t in w.threads && w.threads[t] == Routing(a) && a < |w.actions| && w.actions[a].fingerprint == form.fingerprint
    requires ValidateNewRequest(form).None?
    requires !HasPending(w.tables.requests, form.fingerprint) && PendingCount(w.tables.requests) < w.maxPending
    ensures After(w, LookAndCheck(t, form)) == At(w, t, Inserting(a, form))
  {
    AfterTwo(w, LookAndCheck(t, form)[0], LookAndCheck(t, form)[1]);
    LookUpMove(w, t, a);
    CheckMove(At(w, t, Creating(a)), t, a, form);
    assert w.threads[t := Creating(a)][t := Inserting(a, form)] == w.threads[t := Inserting(a, form)];
  }

  /** The world after planning: the action is gated, and its thread is about to route it. */
  function RoutingNew(w: World, t: nat, form: NewRequest): World {
    w.(actions := w.actions + [Action(form.fingerprint, AwaitingApproval, None)],
       gated := w.gated + {|w.actions|},
       threads := w.threads[t := Routing(|w.actions|)])
  }

  lemma {:induction false} ApproachMoves(w: World, t: nat, form: NewRequest)
    requires t !in w.threads && ValidateNewRequest(form).None?
    requires !HasPending(w.tables.requests, form.fingerprint) && PendingCount(w.tables.requests) < w.maxPending
    ensures After(w, ApproachInsert(t, form)) == At(RoutingNew(w, t, form), t, Inserting(|w.actions|, form))
  {
    PlanAndDecideMoves(w, t, form);
    LookAndCheckMoves(RoutingNew(w, t, form), t, |w.actions|, form);
    AfterParts(w, PlanAndDecide(t, form), RoutingNew(w, t, form), LookAndCheck(t, form),
               At(RoutingNew(w, t, form), t, Inserting(|w.actions|, form)));
  }

  lemma {:induction false} InsertMove(w: World, t: nat, a: nat, form: NewRequest)
    requires t in w.threads && w.threads[t] == Inserting(a, form) && !IsRefused(w.tables.requests, form)
    ensures Apply(w, Move(t, InsertRequest)).tables.requests == w.tables.requests + [Opened(form)]
    ensures Apply(w, Move(t, InsertRequest)).threads == w.threads[t := Attaching(a, |w.tables.requests|)]
    ensures Apply(w, Move(t, InsertRequest)).actions == w.actions
  {
  }

  function ApproachBoth(form: NewRequest, other: NewRequest): seq<Move> {
    ApproachInsert(0, form) + ApproachInsert(1, other)
  }

  /** Two routers have planned an action each, and found no pending request and room for one. */
  function BothApproached(maxPending: nat, form: NewRequest, other: NewRequest): World {
    World(maxPending, Tables([], []),
          [Action(form.fingerprint, AwaitingApproval, None), Action(other.fingerprint, AwaitingApproval, None)],
          [], {0, 1}, map[0 := Inserting(0, form), 1 := Inserting(1, other)])
  }

  function FirstApproached(maxPending: nat, form: NewRequest): World {
    World(maxPending, Tables([], []), [Action(form.fingerprint, AwaitingApproval, None)], [], {0}, map[0 := Inserting(0, form)])
  }

  lemma {:induction false} FirstApproaches(maxPending: nat, form: NewRequest)
    requires maxPending > 0 && ValidateNewRequest(form).None?
    ensures After(Init(maxPending), ApproachInsert(0, form)) == FirstApproached(maxPending, form)
  {
    var w := Init(maxPending);
    ApproachMoves(w, 0, form);
    assert At(RoutingNew(w, 0, form), 0, Inserting(0, form)) == FirstApproached(maxPending, form);
  }

  lemma {:induction false} SecondApproaches(maxPending: nat, form: NewRequest, other: NewRequest)
    requires maxPending > 0 && ValidateNewRequest(other).None?
    ensures After(FirstApproached(maxPending, form), ApproachInsert(1, other)) == BothApproached(maxPending, form, other)
  {
    var w := FirstApproached(maxPending, form);
    ApproachMoves(w, 1, other);
    assert At(RoutingNew(w, 1, other), 1, Inserting(1, other)) == BothApproached(maxPending, form, other);
  }

  lemma {:induction false} BothApproach(maxPending: nat, form: NewRequest, other: NewRequest)
    requires maxPending > 0 && ValidateNewRequest(form).None? && ValidateNewRequest(other).None?
    ensures After(Init(maxPending), ApproachBoth(form, other)) == BothApproached(maxPending, form, other)
  {
    FirstApproaches(maxPending, form);
    SecondApproaches(maxPending, form, other);
    AfterParts(Init(maxPending), ApproachInsert(0, form), FirstApproached(maxPending, form), ApproachInsert(1, other),
               BothApproached(maxPending, form, other));
  }

  lemma {:induction false} FirstInserts(maxPending: nat, form: NewRequest, other: NewRequest)
    ensures var w := Apply(BothApproached(maxPending, form, other), Move(0, InsertRequest));
            && w.tables.requests == [Opened(form)]
            && 1 in w.threads && w.threads[1] == Inserting(1, other)
            && w.actions == BothApproached(maxPending, form, other).actions
  {
    InsertMove(BothApproached(maxPending, form, other), 0, 0, form);
  }

  function BothInsert(form: NewRequest, other: NewRequest): seq<Move> {
    ApproachBoth(form, other) + [Move(0, InsertRequest), Move(1, InsertRequest)]
  }

  lemma {:induction false} BothInsertMoves(maxPending: nat, form: NewRequest, other: NewRequest)
    requires maxPending > 0 && ValidateNewRequest(form).None? && ValidateNewRequest(other).None?
    ensures After(Init(maxPending), BothInsert(form, other))
         == Apply(Apply(BothApproached(maxPending, form, other), Move(0, InsertRequest)), Move(1, InsertRequest))
  {
    BothApproach(maxPending, form, other);
    AfterConcat(Init(maxPending), ApproachBoth(form, other), [Move(0, InsertRequest), Move(1, InsertRequest)]);
    AfterTwo(BothApproached(maxPending, form, other), Move(0, InsertRequest), Move(1, InsertRequest));
  }

  /** Two routers for different actions that both count before either inserts pass a limit of one. */
  lemma {:induction false} OverlappingRoutersPassTheLimit(form: NewRequest, other: NewRequest)
    requires ValidateNewRequest(form).None? && ValidateNewRequest(other).None?
    requires form.fingerprint != other.fingerprint && form.token != other.token
    ensures PendingCount(After(Init(1), BothInsert(form, other)).tables.requests) == 2
  {
    BothInsertMoves(1, form, other);
    FirstInserts(1, form, other);
    var w := Apply(BothApproached(1, form, other), Move(0, InsertRequest));
    assert !IsRefused(w.tables.requests, other);
    InsertMove(w, 1, 1, other);
    InsertCountsOne([], form);
    InsertCountsOne([Opened(form)], other);
    assert [] + [Opened(form)] == [Opened(form)];
  }

  /** Of two for the same action the second is refused, and the action it routed waits for ever for no request. */
  lemma {:induction false} OverlappingRoutersLoseAnAction(maxPending: nat, form: NewRequest, other: NewRequest, more: seq<Move>)
    requires maxPending > 0 && ValidateNewRequest(form).None? && ValidateNewRequest(other).None?
    requires form.fingerprint == other.fingerprint
    ensures var w := After(Init(maxPending), BothInsert(form, other));
            && w.tables.requests == [Opened(form)]
            && IsAbandoned(After(w, more), 1)
            && After(w, more).actions[1] == Action(other.fingerprint, AwaitingApproval, None)
  {
    FirstInserts(maxPending, form, other);
    var first := ApproachBoth(form, other) + [Move(0, InsertRequest)];
    BothApproach(maxPending, form, other);
    AfterOneMore(Init(maxPending), ApproachBoth(form, other), Move(0, InsertRequest));
    var w := After(Init(maxPending), first);
    assert IsPendingFor(w.tables.requests, other.fingerprint, 0);
    BothInsertMoves(maxPending, form, other);
    InsertOutcome(w, 1);
    RefusedRoutersAbandonTheirActions(maxPending, first, 1, more);
  }
}
