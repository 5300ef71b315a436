/**
 Approval requests: creation under a limit, resolution by an external actor, and the expiry
 sweep. A request's number is its identifier, so the next number is always fresh.
 */
module Approvals {
  import opened Text

  type Fingerprint = string

  datatype Decision = Approved | Rejected | Expired | Invalidated

  datatype RequestStatus = Pending | Approved | Rejected | Expired | Invalidated

  datatype NewRequest = NewRequest(
    fingerprint: Fingerprint,
    title: string,
    consequenceSummary: string,
    requestedBy: string,
    token: string,
    requestedAt: int,
    expiresAt: int)

  datatype Request = Request(
    details: NewRequest,
    status: RequestStatus,
    resolvedAt: Option<int>,
    resolutionKind: Option<Decision>,
    resolvedBy: Option<string>,
    reason: Option<string>)

  datatype Event = Event(request: nat, decision: Decision, resolvedBy: string, resolvedAt: int, reason: Option<string>)

  datatype Attempt = Attempt(
    token: string,
    actorRef: string,
    expectedFingerprint: Fingerprint,
    decision: Decision,
    reason: Option<string>,
    resolvedAt: int)

  datatype Transition = Transition(decision: Decision, actorRef: string, reason: Option<string>)

  datatype Error =
    | EmptyField
    | ExpiryNotAfterRequest
    | LimitReached
    | UniqueViolation
    | BadActorRef
    | NotAnExternalDecision
    | UnknownToken
    | NoLongerPending
    | PrincipalMismatch

  datatype Tables = Tables(requests: seq<Request>, events: seq<Event>)

  const EXPIRY_ACTOR := "system:approval-expiry"
  const INVALIDATION_ACTOR := "system:approval-invalidation"
  const EXPIRED_REASON := "approval request expired before resolution"
  const INVALIDATED_REASON := "approval request invalidated because the action fingerprint changed"

  // ----- Actor references -------------------------------------------------------------------------

  datatype Actor = Actor(surface: string, principal: string)

  /** The length of the text before the first separator. */
  function PrefixBefore(s: string, separator: char): (n: nat)
    ensures n <= |s| && separator !in s[..n] && (n < |s| ==> s[n] == separator)
  {
    if s == [] || s[0] == separator then 0
    else
      var n := 1 + PrefixBefore(s[1..], separator);
      assert s[..n] == [s[0]] + s[1..][..n - 1];
      n
  }

  function ParseActorRef(actorRef: string): Result<Actor, Error> {
    var trimmed := Trim(actorRef);
    var n := PrefixBefore(trimmed, ':');
    if n == |trimmed| then Err(BadActorRef)
    else
      var surface, principal := trimmed[..n], trimmed[n + 1..];
      if surface == "" || principal == "" || surface == "system" then Err(BadActorRef)
      else Ok(Actor(surface, principal))
  }

  predicate IsActor(actor: Actor) {
    actor.surface != "" && actor.principal != "" && ':' !in actor.surface && actor.surface != "system"
  }

  lemma {:induction false} PrefixBeforeSeparator(prefix: string, separator: char, rest: string)
    requires separator !in prefix
    ensures PrefixBefore(prefix + [separator] + rest, separator) == |prefix|
  {
    if prefix != [] {
      PrefixBeforeSeparator(prefix[1..], separator, rest);
      assert (prefix + [separator] + rest)[1..] == prefix[1..] + [separator] + rest;
    }
  }

  /** Exactly the padded `surface:principal` texts of well-formed actors are accepted, and they name that actor. */
  lemma {:induction false} ParsedActorIffWritten(actorRef: string, actor: Actor)
    ensures ParseActorRef(actorRef) == Ok(actor) <==>
            IsActor(actor) && Trim(actorRef) == actor.surface + ":" + actor.principal
  {
    var trimmed := Trim(actorRef);
    var n := PrefixBefore(trimmed, ':');
    assert n < |trimmed| ==> trimmed == trimmed[..n] + ":" + trimmed[n + 1..];
    if IsActor(actor) && trimmed == actor.surface + ":" + actor.principal {
      PrefixBeforeSeparator(actor.surface, ':', actor.principal);
      assert trimmed[..n] == actor.surface && trimmed[n + 1..] == actor.principal;
    }
  }

  // ----- Creation -------------------------------------------------------------------------------------

  function ValidateNewRequest(form: NewRequest): Option<Error> {
    if Trim(form.requestedBy) == "" || Trim(form.title) == "" || Trim(form.consequenceSummary) == "" || Trim(form.token) == ""
    then Some(EmptyField)
    else if form.expiresAt <= form.requestedAt then Some(ExpiryNotAfterRequest)
    else None
  }

  /** Nothing that a reader of the request needs is blank. */
  predicate IsComplete(form: NewRequest) {
    forall text | text in {form.requestedBy, form.title, form.consequenceSummary, form.token} :: Trim(text) != ""
  }

  function PendingCount(requests: seq<Request>): nat {
    if requests == [] then 0
    else PendingCount(requests[..|requests| - 1]) + if requests[|requests| - 1].status.Pending? then 1 else 0
  }

  function PendingIds(requests: seq<Request>): set<nat> {
    set r: nat | r < |requests| && requests[r].status.Pending?
  }

  /** It counts exactly the pending requests. */
  lemma {:induction false} PendingCountIsTheirNumber(requests: seq<Request>)
    ensures PendingCount(requests) == |PendingIds(requests)|
  {
    if requests != [] {
      var n := |requests| - 1;
      PendingCountIsTheirNumber(requests[..n]);
      assert PendingIds(requests) == PendingIds(requests[..n]) + if requests[n].status.Pending? then {n} else {};
    }
  }

  function Opened(form: NewRequest): Request {
    Request(form, Pending, None, None, None, None)
  }

  predicate IsPendingFor(requests: seq<Request>, fingerprint: Fingerprint, request: nat) {
    request < |requests| && requests[request].status.Pending? && requests[request].details.fingerprint == fingerprint
  }

  predicate HasPending(requests: seq<Request>, fingerprint: Fingerprint) {
    exists r :: 0 <= r < |requests| && IsPendingFor(requests, fingerprint, r)
  }

  /** The table's unique indexes refuse the row: its fingerprint is pending already, or its token is taken. */
  predicate IsRefused(requests: seq<Request>, form: NewRequest) {
    HasPending(requests, form.fingerprint) || FindByToken(requests, form.token).Some?
  }

  predicate UniquePending(requests: seq<Request>) {
    forall i, j | 0 <= i < j < |requests| && requests[i].status.Pending? && requests[j].status.Pending? ::
      requests[i].details.fingerprint != requests[j].details.fingerprint
  }

  predicate UniqueTokens(requests: seq<Request>) {
    forall i, j | 0 <= i < j < |requests| :: requests[i].details.token != requests[j].details.token
  }

  lemma {:induction false} OpeningKeepsPendingUniqueIff(requests: seq<Request>, form: NewRequest)
    requires UniquePending(requests)
    ensures UniquePending(requests + [Opened(form)]) <==> !HasPending(requests, form.fingerprint)
  {
    var requests', n := requests + [Opened(form)], |requests|;
    assert requests'[n] == Opened(form);
    if r :| 0 <= r < n && IsPendingFor(requests, form.fingerprint, r) {
      assert requests'[r] == requests[r];
    } else {
      forall r | 0 <= r < n && requests'[r].status.Pending? ensures requests'[r].details.fingerprint != form.fingerprint {
        assert requests'[r] == requests[r] && !IsPendingFor(requests, form.fingerprint, r);
      }
    }
  }

  lemma {:induction false} OpeningKeepsTokensUniqueIff(requests: seq<Request>, form: NewRequest)
    requires UniqueTokens(requests)
    ensures UniqueTokens(requests + [Opened(form)]) <==> FindByToken(requests, form.token).None?
  {
    var requests', n := requests + [Opened(form)], |requests|;
    assert requests'[n] == Opened(form);
    var taken := FindByToken(requests, form.token);
    if taken.Some? {
      assert requests'[taken.value] == requests[taken.value];
    }
  }

  /** The indexes refuse just the rows that would not leave them unique. */
  lemma {:induction false} RefusedIffNotUnique(requests: seq<Request>, form: NewRequest)
    requires UniquePending(requests) && UniqueTokens(requests)
    ensures IsRefused(requests, form) <==>
            !(UniquePending(requests + [Opened(form)]) && UniqueTokens(requests + [Opened(form)]))
  {
    OpeningKeepsPendingUniqueIff(requests, form);
    OpeningKeepsTokensUniqueIff(requests, form);
  }

  // ----- Resolution ------------------------------------------------------------------------------------

  function ValidateAttempt(attempt: Attempt): Option<Error> {
    if Trim(attempt.token) == "" || Trim(attempt.actorRef) == "" then Some(EmptyField)
    else if ParseActorRef(attempt.actorRef).Err? then Some(BadActorRef)
    else if !attempt.decision.Approved? && !attempt.decision.Rejected? then Some(NotAnExternalDecision)
    else None
  }

  function FindByToken(requests: seq<Request>, token: string): (r: Option<nat>)
    ensures r.Some? ==> r.value < |requests| && requests[r.value].details.token == token
    ensures r.None? ==> forall i | 0 <= i < |requests| :: requests[i].details.token != token
  {
    if requests == [] then None
    else
      var earlier := FindByToken(requests[..|requests| - 1], token);
      if earlier.Some? then earlier
      else if requests[|requests| - 1].details.token == token then Some(|requests| - 1)
      else
        assert forall i | 0 <= i < |requests| - 1 :: requests[i] == requests[..|requests| - 1][i];
        None
  }

  function StatusOf(decision: Decision): RequestStatus {
    match decision
    case Approved => RequestStatus.Approved
    case Rejected => RequestStatus.Rejected
    case Expired => RequestStatus.Expired
    case Invalidated => RequestStatus.Invalidated
  }

  const EXPIRY := Transition(Decision.Expired, EXPIRY_ACTOR, Some(EXPIRED_REASON))

  function ChooseTransition(row: Request, attempt: Attempt): Result<Transition, Error> {
    if attempt.resolvedAt >= row.details.expiresAt then Ok(EXPIRY)
    else if row.details.fingerprint != attempt.expectedFingerprint then
      Ok(Transition(Decision.Invalidated, INVALIDATION_ACTOR, Some(INVALIDATED_REASON)))
    else
      match (ParseActorRef(row.details.requestedBy), ParseActorRef(attempt.actorRef))
      case (Ok(requester), Ok(actor)) =>
        if actor.principal != requester.principal then Err(PrincipalMismatch)
        else Ok(Transition(attempt.decision, attempt.actorRef, attempt.reason))
      case _ => Err(BadActorRef)
  }

  /** UPDATE ... WHERE status = 'pending': the one write that resolves a request, with its event. */
  function ApplyTransition(tables: Tables, request: nat, transition: Transition, at: int): Option<Tables> {
    if request >= |tables.requests| || !tables.requests[request].status.Pending? then None
    else
      var row := tables.requests[request].(
        status := StatusOf(transition.decision),
        resolvedAt := Some(at),
        resolutionKind := Some(transition.decision),
        resolvedBy := Some(transition.actorRef),
        reason := transition.reason);
      Some(Tables(
        tables.requests[request := row],
        tables.events + [Event(request, transition.decision, transition.actorRef, at, transition.reason)]))
  }

  /** The event of a resolution transaction that commits, or why it does not. */
  function PlanResolution(tables: Tables, attempt: Attempt): (r: Result<Event, Error>)
    ensures r.Ok? ==> r.value.request < |tables.requests| && tables.requests[r.value.request].status.Pending?
  {
    if ValidateAttempt(attempt).Some? then Err(ValidateAttempt(attempt).value)
    else
      match FindByToken(tables.requests, attempt.token)
      case None => Err(UnknownToken)
      case Some(request) =>
        var row := tables.requests[request];
        if !row.status.Pending? then Err(NoLongerPending)
        else
          match ChooseTransition(row, attempt)
          case Err(error) => Err(error)
          case Ok(t) => Ok(Event(request, t.decision, t.actorRef, attempt.resolvedAt, t.reason))
  }

  function Recorded(tables: Tables, event: Event): (r: Tables)
    ensures |r.requests| == |tables.requests|
  {
    var after := ApplyTransition(tables, event.request, Transition(event.decision, event.resolvedBy, event.reason), event.resolvedAt);
    if after.Some? then after.value else tables
  }

  function Resolve(tables: Tables, attempt: Attempt): Tables {
    match PlanResolution(tables, attempt)
    case Ok(event) => Recorded(tables, event)
    case Err(_) => tables
  }

  // ----- Expiry sweep -------------------------------------------------------------------------------------

  predicate IsDue(requests: seq<Request>, now: int, request: nat) {
    request < |requests| && requests[request].status.Pending? && requests[request].details.expiresAt <= now
  }

  predicate Before(requests: seq<Request>, a: nat, b: nat)
    requires a < |requests| && b < |requests|
  {
    || requests[a].details.expiresAt < requests[b].details.expiresAt
    || (requests[a].details.expiresAt == requests[b].details.expiresAt && a < b)
  }

  /** Every request that is due, once, by expiry and then by number. */
  predicate IsDueSnapshot(requests: seq<Request>, now: int, due: seq<nat>) {
    && (forall i | 0 <= i < |due| :: IsDue(requests, now, due[i]))
    && (forall r | 0 <= r < |requests| && IsDue(requests, now, r) :: r in due)
    && (forall i, j | 0 <= i < j < |due| :: Before(requests, due[i], due[j]))
  }

  function InsertDue(requests: seq<Request>, request: nat, due: seq<nat>): seq<nat>
    requires request < |requests| && forall i | 0 <= i < |due| :: due[i] < |requests|
  {
    if due == [] then [request]
    else if Before(requests, request, due[0]) then [request] + due
    else [due[0]] + InsertDue(requests, request, due[1..])
  }

  function DueUpTo(requests: seq<Request>, now: int, n: nat): (due: seq<nat>)
    requires n <= |requests|
    ensures forall i | 0 <= i < |due| :: due[i] < n && IsDue(requests, now, due[i])
  {
    if n == 0 then []
    else
      var due := DueUpTo(requests, now, n - 1);
      if IsDue(requests, now, n - 1) then
        InsertDueElements(requests, n - 1, due);
        var inserted := InsertDue(requests, n - 1, due);
        assert forall i | 0 <= i < |inserted| :: inserted[i] in inserted;
        inserted
      else due
  }

  lemma {:induction false} InsertDueElements(requests: seq<Request>, request: nat, due: seq<nat>)
    requires request < |requests| && forall i | 0 <= i < |due| :: due[i] < |requests|
    ensures forall r :: r in InsertDue(requests, request, due) <==> r == request || r in due
  {
    if due != [] && !Before(requests, request, due[0]) {
      InsertDueElements(requests, request, due[1..]);
      assert due == [due[0]] + due[1..];
    }
  }

  predicate InOrder(requests: seq<Request>, due: seq<nat>)
    requires forall i | 0 <= i < |due| :: due[i] < |requests|
  {
    forall i, j | 0 <= i < j < |due| :: Before(requests, due[i], due[j])
  }

  lemma {:induction false} InsertDueKeepsOrder(requests: seq<Request>, request: nat, due: seq<nat>)
    requires request < |requests| && forall i | 0 <= i < |due| :: due[i] < |requests|
    requires request !in due && InOrder(requests, due)
    ensures forall i | 0 <= i < |InsertDue(requests, request, due)| :: InsertDue(requests, request, due)[i] < |requests|
    ensures InOrder(requests, InsertDue(requests, request, due))
  {
    InsertDueElements(requests, request, due);
    var inserted := InsertDue(requests, request, due);
    forall i | 0 <= i < |inserted| ensures inserted[i] < |requests| {
      assert inserted[i] in inserted;
    }
    if due != [] {
      var first, rest := due[0], due[1..];
      if Before(requests, request, first) {
        assert forall j | 0 <= j < |due| :: Before(requests, request, due[j]);
      } else {
        assert first in due;
        InsertDueKeepsOrder(requests, request, rest);
        InsertDueElements(requests, request, rest);
        var tail := InsertDue(requests, request, rest);
        forall j | 0 <= j < |tail| ensures Before(requests, first, tail[j]) {
          assert tail[j] in tail;
        }
      }
    }
  }

  lemma {:induction false} DueUpToIsComplete(requests: seq<Request>, now: int, n: nat, r: nat)
    requires r < n <= |requests| && IsDue(requests, now, r)
    ensures r in DueUpTo(requests, now, n)
  {
    if r < n - 1 {
      DueUpToIsComplete(requests, now, n - 1, r);
    }
    if IsDue(requests, now, n - 1) {
      InsertDueElements(requests, n - 1, DueUpTo(requests, now, n - 1));
    }
  }

  lemma {:induction false} DueUpToIsOrdered(requests: seq<Request>, now: int, n: nat)
    requires n <= |requests|
    ensures InOrder(requests, DueUpTo(requests, now, n))
  {
    if n > 0 {
      DueUpToIsOrdered(requests, now, n - 1);
      if IsDue(requests, now, n - 1) {
        InsertDueKeepsOrder(requests, n - 1, DueUpTo(requests, now, n - 1));
      }
    }
  }

  function DueSnapshot(requests: seq<Request>, now: int): (due: seq<nat>)
    ensures IsDueSnapshot(requests, now, due)
  {
    DueUpToIsOrdered(requests, now, |requests|);
    assert forall r | 0 <= r < |requests| && IsDue(requests, now, r) :: r in DueUpTo(requests, now, |requests|) by {
      forall r | 0 <= r < |requests| && IsDue(requests, now, r) ensures r in DueUpTo(requests, now, |requests|) {
        DueUpToIsComplete(requests, now, |requests|, r);
      }
    }
    DueUpTo(requests, now, |requests|)
  }

  /** One sweep transaction: it changes nothing when somebody else has resolved the request meanwhile. */
  function ExpireOne(tables: Tables, request: nat, now: int): Tables {
    var after := ApplyTransition(tables, request, EXPIRY, now);
    if after.Some? then after.value else tables
  }

  function ExpireAll(tables: Tables, due: seq<nat>, now: int): Tables {
    if due == [] then tables
    else ExpireOne(ExpireAll(tables, due[..|due| - 1], now), due[|due| - 1], now)
  }

  lemma {:induction false} ExpiredOnceMore(tables: Tables, due: seq<nat>, i: nat, now: int)
    requires i < |due|
    ensures ExpireAll(tables, due[..i + 1], now) == ExpireOne(ExpireAll(tables, due[..i], now), due[i], now)
  {
    assert due[..i + 1][..i] == due[..i];
  }

  function ExpiryEvent(request: nat, now: int): Event {
    Event(request, Decision.Expired, EXPIRY_ACTOR, now, Some(EXPIRED_REASON))
  }

  predicate DistinctPending(requests: seq<Request>, due: seq<nat>) {
    && (forall i | 0 <= i < |due| :: due[i] < |requests| && requests[due[i]].status.Pending?)
    && (forall i, j | 0 <= i < j < |due| :: due[i] != due[j])
  }

  lemma {:induction false} SnapshotIsDistinctAndPending(requests: seq<Request>, now: int, due: seq<nat>)
    requires IsDueSnapshot(requests, now, due)
    ensures DistinctPending(requests, due)
  {
    forall i, j | 0 <= i < j < |due| ensures due[i] != due[j] {
      assert Before(requests, due[i], due[j]);
    }
  }

  lemma {:induction false} SweepTouchesOnlyItsRequests(tables: Tables, due: seq<nat>, now: int)
    requires DistinctPending(tables.requests, due)
    ensures |ExpireAll(tables, due, now).requests| == |tables.requests|
    ensures forall r | 0 <= r < |tables.requests| && r !in due :: ExpireAll(tables, due, now).requests[r] == tables.requests[r]
  {
    if due != [] {
      SweepTouchesOnlyItsRequests(tables, due[..|due| - 1], now);
      assert forall r :: r in due[..|due| - 1] ==> r in due;
    }
  }

  lemma {:induction false} SweepExpiresItsRequests(tables: Tables, due: seq<nat>, now: int)
    requires DistinctPending(tables.requests, due)
    ensures |ExpireAll(tables, due, now).requests| == |tables.requests|
    ensures forall i | 0 <= i < |due| :: ExpireAll(tables, due, now).requests[due[i]].status.Expired?
  {
    if due != [] {
      var before := due[..|due| - 1];
      SweepExpiresItsRequests(tables, before, now);
      SweepTouchesOnlyItsRequests(tables, before, now);
      assert due[|due| - 1] !in before;
      assert forall i | 0 <= i < |before| :: due[i] == before[i];
    }
  }

  /** An undisturbed sweep records one expiry for each request of its list, in the order of the list. */
  lemma {:induction false} SweepRecordsItsRequests(tables: Tables, due: seq<nat>, now: int)
    requires DistinctPending(tables.requests, due)
    ensures |ExpireAll(tables, due, now).events| == |tables.events| + |due|
    ensures tables.events <= ExpireAll(tables, due, now).events
    ensures forall i | 0 <= i < |due| :: ExpireAll(tables, due, now).events[|tables.events| + i] == ExpiryEvent(due[i], now)
  {
    if due != [] {
      var before := due[..|due| - 1];
      SweepRecordsItsRequests(tables, before, now);
      SweepTouchesOnlyItsRequests(tables, before, now);
      assert due[|due| - 1] !in before;
      assert forall i | 0 <= i < |before| :: due[i] == before[i];
    }
  }

  /** A sweep whose snapshot nobody disturbs expires exactly what was due, and nothing is due after it. */
  lemma {:induction false} SweepLeavesNothingDue(tables: Tables, now: int)
    ensures |ExpireAll(tables, DueSnapshot(tables.requests, now), now).requests| == |tables.requests|
    ensures forall r | 0 <= r < |tables.requests| ::
              if IsDue(tables.requests, now, r)
              then ExpireAll(tables, DueSnapshot(tables.requests, now), now).requests[r].status.Expired?
              else ExpireAll(tables, DueSnapshot(tables.requests, now), now).requests[r] == tables.requests[r]
    ensures forall r | 0 <= r < |tables.requests| ::
              !IsDue(ExpireAll(tables, DueSnapshot(tables.requests, now), now).requests, now, r)
  {
    var due := DueSnapshot(tables.requests, now);
    SnapshotIsDistinctAndPending(tables.requests, now, due);
    SweepTouchesOnlyItsRequests(tables, due, now);
    SweepExpiresItsRequests(tables, due, now);
  }

  // ----- What every write keeps ---------------------------------------------------------------------------------

  /** A row says what its event says. */
  predicate RowMatches(row: Request, event: Event) {
    && row.status == StatusOf(event.decision)
    && row.resolvedAt == Some(event.resolvedAt)
    && row.resolutionKind == Some(event.decision)
    && row.resolvedBy == Some(event.resolvedBy)
    && row.reason == event.reason
  }

  /** Who may decide what, and when. */
  predicate IsLegitimate(form: NewRequest, event: Event) {
    && (event.decision.Expired? <==> event.resolvedAt >= form.expiresAt)
    && (event.decision.Expired? ==> event.resolvedBy == EXPIRY_ACTOR)
    && (event.decision.Invalidated? ==> event.resolvedBy == INVALIDATION_ACTOR)
    && (event.decision.Approved? || event.decision.Rejected? ==>
          && ParseActorRef(event.resolvedBy).Ok? && ParseActorRef(form.requestedBy).Ok?
          && ParseActorRef(event.resolvedBy).value.principal == ParseActorRef(form.requestedBy).value.principal)
  }

  predicate HasEvent(events: seq<Event>, request: nat) {
    exists i :: 0 <= i < |events| && events[i].request == request
  }

  predicate EventsMatchRows(tables: Tables) {
    forall i | 0 <= i < |tables.events| ::
      && tables.events[i].request < |tables.requests|
      && RowMatches(tables.requests[tables.events[i].request], tables.events[i])
      && IsLegitimate(tables.requests[tables.events[i].request].details, tables.events[i])
  }

  predicate OneEventEach(events: seq<Event>) {
    forall i, j | 0 <= i < j < |events| :: events[i].request != events[j].request
  }

  predicate ResolvedIffRecorded(tables: Tables) {
    forall r | 0 <= r < |tables.requests| ::
      if tables.requests[r].status.Pending? then tables.requests[r] == Opened(tables.requests[r].details)
      else HasEvent(tables.events, r)
  }

  predicate Settled(tables: Tables) {
    EventsMatchRows(tables) && OneEventEach(tables.events) && ResolvedIffRecorded(tables)
  }

  lemma {:induction false} RecordedTables(tables: Tables, event: Event)
    requires event.request < |tables.requests| && tables.requests[event.request].status.Pending?
    ensures Recorded(tables, event).events == tables.events + [event]
    ensures RowMatches(Recorded(tables, event).requests[event.request], event)
    ensures Recorded(tables, event).requests[event.request].details == tables.requests[event.request].details
    ensures forall r | 0 <= r < |tables.requests| && r != event.request :: Recorded(tables, event).requests[r] == tables.requests[r]
  {
  }

  lemma {:induction false} RecordingKeepsResolvedIffRecorded(tables: Tables, event: Event)
    requires ResolvedIffRecorded(tables)
    requires event.request < |tables.requests| && tables.requests[event.request].status.Pending?
    ensures ResolvedIffRecorded(Recorded(tables, event))
  {
    RecordedTables(tables, event);
    var after := Recorded(tables, event);
    assert after.events[|tables.events|] == event;
    forall r | 0 <= r < |after.requests| && r != event.request && !after.requests[r].status.Pending?
      ensures HasEvent(after.events, r)
    {
      var i :| 0 <= i < |tables.events| && tables.events[i].request == r;
      assert after.events[i].request == r;
    }
  }

  lemma {:induction false} RecordingKeepsSettled(tables: Tables, event: Event)
    requires Settled(tables)
    requires event.request < |tables.requests| && IsLegitimate(tables.requests[event.request].details, event)
    ensures Settled(Recorded(tables, event))
  {
    if tables.requests[event.request].status.Pending? {
      RecordedTables(tables, event);
      RecordingKeepsResolvedIffRecorded(tables, event);
    }
  }

  lemma {:induction false} OpeningKeepsSettled(tables: Tables, form: NewRequest)
    requires Settled(tables)
    ensures Settled(tables.(requests := tables.requests + [Opened(form)]))
  {
    var after := tables.(requests := tables.requests + [Opened(form)]);
    forall r | 0 <= r < |after.requests| && !after.requests[r].status.Pending? ensures HasEvent(after.events, r) {
      assert after.requests[r] == tables.requests[r];
    }
  }

  /** The event is what this attempt may bring about on a request with this form. */
  predicate Answers(form: NewRequest, attempt: Attempt, event: Event) {
    && event.resolvedAt == attempt.resolvedAt
    && (event.decision.Approved? || event.decision.Rejected? ==>
          && form.fingerprint == attempt.expectedFingerprint
          && event.decision == attempt.decision && event.resolvedBy == attempt.actorRef && event.reason == attempt.reason
          && ParseActorRef(attempt.actorRef).Ok?)
    && (event.decision.Invalidated? <==>
          attempt.resolvedAt < form.expiresAt && form.fingerprint != attempt.expectedFingerprint)
  }

  function EventOf(request: nat, transition: Transition, at: int): Event {
    Event(request, transition.decision, transition.actorRef, at, transition.reason)
  }

  lemma {:induction false} ChosenTransitionIsLegitimate(row: Request, attempt: Attempt, request: nat)
    requires ValidateAttempt(attempt).None? && ChooseTransition(row, attempt).Ok?
    ensures IsLegitimate(row.details, EventOf(request, ChooseTransition(row, attempt).value, attempt.resolvedAt))
    ensures Answers(row.details, attempt, EventOf(request, ChooseTransition(row, attempt).value, attempt.resolvedAt))
  {
    assert ParseActorRef(attempt.actorRef).Ok?;
  }

  /** What a resolution attempt commits is legitimate; Approved and Rejected need the expected fingerprint. */
  lemma {:induction false} ResolutionIsLegitimate(tables: Tables, attempt: Attempt, event: Event)
    requires PlanResolution(tables, attempt) == Ok(event)
    ensures tables.requests[event.request].details.token == attempt.token
    ensures IsLegitimate(tables.requests[event.request].details, event)
    ensures Answers(tables.requests[event.request].details, attempt, event)
  {
    ChosenTransitionIsLegitimate(tables.requests[event.request], attempt, event.request);
  }

  predicate IsUsable(attempt: Attempt) {
    && Trim(attempt.token) != "" && ParseActorRef(attempt.actorRef).Ok?
    && (attempt.decision.Approved? || attempt.decision.Rejected?)
  }

  predicate ComesFromRequester(form: NewRequest, attempt: Attempt) {
    && ParseActorRef(form.requestedBy).Ok? && ParseActorRef(attempt.actorRef).Ok?
    && ParseActorRef(form.requestedBy).value.principal == ParseActorRef(attempt.actorRef).value.principal
  }

  lemma {:induction false} TokenNamesItsRow(requests: seq<Request>, r: nat)
    requires UniqueTokens(requests) && r < |requests|
    ensures FindByToken(requests, requests[r].details.token) == Some(r)
  {
    var found := FindByToken(requests, requests[r].details.token).value;
    assert found < r || found == r || r < found;
  }

  /**
   An attempt resolves the request with its token exactly when it is well-formed, the request is pending, and the attempt
   is late, or for another fingerprint, or by the requester; and that is what the event then says, for both decisions.
   */
  lemma {:induction false} ResolvesIff(tables: Tables, attempt: Attempt, r: nat)
    requires UniqueTokens(tables.requests) && r < |tables.requests| && tables.requests[r].details.token == attempt.token
    ensures var row := tables.requests[r];
            var late := attempt.resolvedAt >= row.details.expiresAt;
            var changed := row.details.fingerprint != attempt.expectedFingerprint;
            && (PlanResolution(tables, attempt).Ok? <==>
                IsUsable(attempt) && row.status.Pending? && (late || changed || ComesFromRequester(row.details, attempt)))
            && (PlanResolution(tables, attempt).Ok? ==>
                  PlanResolution(tables, attempt).value ==
                  if late then Event(r, Decision.Expired, EXPIRY_ACTOR, attempt.resolvedAt, Some(EXPIRED_REASON))
                  else if changed then Event(r, Decision.Invalidated, INVALIDATION_ACTOR, attempt.resolvedAt, Some(INVALIDATED_REASON))
                  else Event(r, attempt.decision, attempt.actorRef, attempt.resolvedAt, attempt.reason))
  {
    TokenNamesItsRow(tables.requests, r);
    if Trim(attempt.actorRef) == "" { BlankActorsAreRefused(attempt.actorRef); }
  }

  lemma {:induction false} BlankActorsAreRefused(actorRef: string)
    requires Trim(actorRef) == ""
    ensures ParseActorRef(actorRef).Err?
  {
  }

  /** Why an attempt can be refused. */
  lemma {:induction false} RefusalsSayWhy(tables: Tables, attempt: Attempt)
    requires UniqueTokens(tables.requests) && PlanResolution(tables, attempt).Err?
    ensures match PlanResolution(tables, attempt).error
            case EmptyField => Trim(attempt.token) == "" || Trim(attempt.actorRef) == ""
            case NotAnExternalDecision => attempt.decision.Expired? || attempt.decision.Invalidated?
            case UnknownToken => forall r | 0 <= r < |tables.requests| :: tables.requests[r].details.token != attempt.token
            case NoLongerPending =>
              exists r :: 0 <= r < |tables.requests| && tables.requests[r].details.token == attempt.token
                          && !tables.requests[r].status.Pending?
            case BadActorRef =>
              || ParseActorRef(attempt.actorRef).Err?
              || exists r :: 0 <= r < |tables.requests| && tables.requests[r].details.token == attempt.token
                             && ParseActorRef(tables.requests[r].details.requestedBy).Err?
            case PrincipalMismatch =>
              && IsUsable(attempt)
              && exists r :: 0 <= r < |tables.requests| && tables.requests[r].details.token == attempt.token
                             && !ComesFromRequester(tables.requests[r].details, attempt)
            case _ => false
  {
  }

  /**
   The resolver and the sweep draw the line at the same instant: an attempt at time `t` on a
   pending request expires it exactly when a sweep at `t` would have found it due.
   */
  lemma {:induction false} ResolverAndSweepAgreeOnExpiry(tables: Tables, attempt: Attempt, request: nat)
    requires ValidateAttempt(attempt).None? && FindByToken(tables.requests, attempt.token) == Some(request)
    requires tables.requests[request].status.Pending?
    ensures (PlanResolution(tables, attempt).Ok? && PlanResolution(tables, attempt).value.decision.Expired?)
            <==> request in DueSnapshot(tables.requests, attempt.resolvedAt)
    ensures request in DueSnapshot(tables.requests, attempt.resolvedAt) ==>
              Resolve(tables, attempt) == ExpireOne(tables, request, attempt.resolvedAt)
  {
    var due := DueSnapshot(tables.requests, attempt.resolvedAt);
    assert request in due <==> IsDue(tables.requests, attempt.resolvedAt, request);
  }

  // ----- The table as the program updates it -----------------------------------------------------------------------

  class ApprovalRequests {
    const maxPendingRequests: nat
    var requests: seq<Request>
    var events: seq<Event>

    constructor (maxPendingRequests: nat)
      ensures this.maxPendingRequests == maxPendingRequests && Contents() == Tables([], [])
    {
      this.maxPendingRequests := maxPendingRequests;
      requests, events := [], [];
    }

    function Contents(): Tables
      reads this
    {
      Tables(requests, events)
    }

    method CreateApprovalRequest(form: NewRequest) returns (r: Result<nat, Error>)
      modifies this
      ensures match r
              case Ok(id) =>
                && id == |old(requests)|
                && Contents() == old(Contents()).(requests := old(requests) + [Opened(form)])
                && IsComplete(form) && form.requestedAt < form.expiresAt
                && |PendingIds(old(requests))| < maxPendingRequests && !IsRefused(old(requests), form)
              case Err(error) =>
                && Contents() == old(Contents())
                && if !IsComplete(form) then error.EmptyField?
                   else if form.expiresAt <= form.requestedAt then error.ExpiryNotAfterRequest?
                   else if |PendingIds(old(requests))| >= maxPendingRequests then error.LimitReached?
                   else error.UniqueViolation? && IsRefused(old(requests), form)
      ensures r.Ok? <==>
                && ValidateNewRequest(form).None? && PendingCount(old(requests)) < maxPendingRequests
                && !IsRefused(old(requests), form)
    {
      PendingCountIsTheirNumber(requests);
      var invalid := ValidateNewRequest(form);
      if invalid.Some? {
        return Err(invalid.value);
      }
      if PendingCount(requests) >= maxPendingRequests {
        return Err(LimitReached);
      }
      if IsRefused(requests, form) {
        return Err(UniqueViolation);
      }
      r := Ok(|requests|);
      requests := requests + [Opened(form)];
    }

    method UpdateWherePending(request: nat, transition: Transition, at: int) returns (event: Option<Event>)
      modifies this
      ensures event.Some? <==> ApplyTransition(old(Contents()), request, transition, at).Some?
      ensures event.Some? ==>
                && Some(Contents()) == ApplyTransition(old(Contents()), request, transition, at)
                && event.value == Event(request, transition.decision, transition.actorRef, at, transition.reason)
                && events == old(events) + [event.value]
      ensures event.None? ==> Contents() == old(Contents())
    {
      if request >= |requests| || !requests[request].status.Pending? {
        return None;
      }
      event := Some(Event(request, transition.decision, transition.actorRef, at, transition.reason));
      requests := requests[request := requests[request].(
        status := StatusOf(transition.decision),
        resolvedAt := Some(at),
        resolutionKind := Some(transition.decision),
        resolvedBy := Some(transition.actorRef),
        reason := transition.reason)];
      events := events + [event.value];
    }

    method ResolveApprovalRequest(attempt: Attempt) returns (r: Result<Event, Error>)
      modifies this
      ensures r == PlanResolution(old(Contents()), attempt)
      ensures Contents() == Resolve(old(Contents()), attempt)
    {
      var invalid := ValidateAttempt(attempt);
      if invalid.Some? {
        return Err(invalid.value);
      }
      var found := FindByToken(requests, attempt.token);
      if found.None? {
        return Err(UnknownToken);
      }
      var row := requests[found.value];
      if !row.status.Pending? {
        return Err(NoLongerPending);
      }
      var transition := ChooseTransition(row, attempt);
      if transition.Err? {
        return Err(transition.error);
      }
      var event := UpdateWherePending(found.value, transition.value, attempt.resolvedAt);
      r := Ok(event.value);
    }

    /** The sweep: one transaction for each request of the snapshot. */
    method ExpireDueApprovalRequests(now: int) returns (results: seq<Event>)
      modifies this
      ensures Contents() == ExpireAll(old(Contents()), DueSnapshot(old(requests), now), now)
      ensures events == old(events) + results
    {
      var due := DueSnapshot(requests, now);
      results := [];
      for i := 0 to |due|
        invariant Contents() == ExpireAll(old(Contents()), due[..i], now)
        invariant events == old(events) + results
      {
        ghost var before := Contents();
        ExpiredOnceMore(old(Contents()), due, i, now);
        var event := UpdateWherePending(due[i], EXPIRY, now);
        assert Contents() == ExpireOne(before, due[i], now);
        if event.None? {
          continue;
        }
        results := results + [event.value];
      }
      assert due[..|due|] == due;
    }
  }
}
