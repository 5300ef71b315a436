/**
 Conversation bindings: the table that relates external conversations to internal ones, each side
 unique, and the reconciliation that makes a requested pair hold.
 */
module Bindings {
  import opened Text

  datatype External = External(channel: string, user: string, conversation: string)

  datatype Binding = Binding(external: External, principal: string, internal: string)

  /** Binding rows by their identifier, and for each ingress row the binding it refers to. */
  datatype Tables = Tables(bindings: map<nat, Binding>, ingress: seq<Option<nat>>)

  datatype Action = Created | Updated | Rebound | Merged

  /** The row operations. */
  datatype Op =
    | Insert(id: nat, binding: Binding)
    | Update(id: nat, binding: Binding)
    | Delete(id: nat)
    | Reassign(source: nat, target: nat)

  // ----- Row operations and constraints ----------------------------------------------------------------

  function Redirected(ingress: seq<Option<nat>>, source: nat, target: nat): (r: seq<Option<nat>>)
    ensures |r| == |ingress|
    ensures forall i | 0 <= i < |ingress| :: r[i] == if ingress[i] == Some(source) then Some(target) else ingress[i]
  {
    seq(|ingress|, i requires 0 <= i < |ingress| => if ingress[i] == Some(source) then Some(target) else ingress[i])
  }

  function Apply(t: Tables, op: Op): Tables {
    match op
    case Insert(id, binding) => t.(bindings := t.bindings[id := binding])
    case Update(id, binding) => if id in t.bindings then t.(bindings := t.bindings[id := binding]) else t
    case Delete(id) => t.(bindings := t.bindings - {id})
    case Reassign(source, target) => t.(ingress := Redirected(t.ingress, source, target))
  }

  function ApplyAll(t: Tables, ops: seq<Op>): Tables {
    if ops == [] then t else Apply(ApplyAll(t, ops[..|ops| - 1]), ops[|ops| - 1])
  }

  predicate SidesAreUnique(t: Tables) {
    forall i, j | i in t.bindings && j in t.bindings && i != j ::
      t.bindings[i].external != t.bindings[j].external && t.bindings[i].internal != t.bindings[j].internal
  }

  predicate ReferencesHold(t: Tables) {
    forall k | 0 <= k < |t.ingress| && t.ingress[k].Some? :: t.ingress[k].value in t.bindings
  }

  predicate Constraints(t: Tables) {
    SidesAreUnique(t) && ReferencesHold(t)
  }

  // ----- Reconciliation --------------------------------------------------------------------------------------

  predicate HasExternal(t: Tables, external: External, id: nat) {
    id in t.bindings && t.bindings[id].external == external
  }

  predicate HasInternal(t: Tables, internal: string, id: nat) {
    id in t.bindings && t.bindings[id].internal == internal
  }

  ghost function ByExternal(t: Tables, external: External): (r: Option<nat>)
    ensures r.Some? ==> HasExternal(t, external, r.value)
    ensures r.None? ==> forall id | id in t.bindings :: !HasExternal(t, external, id)
  {
    if exists id :: HasExternal(t, external, id) then
      var id :| HasExternal(t, external, id);
      Some(id)
    else None
  }

  ghost function ByInternal(t: Tables, internal: string): (r: Option<nat>)
    ensures r.Some? ==> HasInternal(t, internal, r.value)
    ensures r.None? ==> forall id | id in t.bindings :: !HasInternal(t, internal, id)
  {
    if exists id :: HasInternal(t, internal, id) then
      var id :| HasInternal(t, internal, id);
      Some(id)
    else None
  }

  /** What the program does, given the rows that hold each side. */
  function Operations(external: Option<nat>, internal: Option<nat>, newId: nat, request: Binding): seq<Op> {
    match (external, internal)
    case (None, None) => [Insert(newId, request)]
    case (None, Some(i)) => [Update(i, request)]
    case (Some(e), None) => [Update(e, request)]
    case (Some(e), Some(i)) => if e == i then [Update(i, request)] else [Reassign(e, i), Delete(e), Update(i, request)]
  }

  function ActionOf(external: Option<nat>, internal: Option<nat>): Action {
    match (external, internal)
    case (None, None) => Created
    case (None, Some(_)) => Rebound
    case (Some(_), None) => Updated
    case (Some(e), Some(i)) => if e == i then Updated else Merged
  }

  ghost function ReconcileOps(t: Tables, newId: nat, request: Binding): seq<Op> {
    Operations(ByExternal(t, request.external), ByInternal(t, request.internal), newId, request)
  }

  ghost function Reconciled(t: Tables, newId: nat, request: Binding): Tables {
    ApplyAll(t, ReconcileOps(t, newId, request))
  }

  // ----- What every row operation keeps ----------------------------------------------------------------------

  lemma {:induction false} OneOp(t: Tables, op: Op)
    ensures ApplyAll(t, [op]) == Apply(t, op)
  {
    assert [op][..0] == [];
  }

  lemma {:induction false} ThreeOps(t: Tables, a: Op, b: Op, c: Op)
    ensures ApplyAll(t, [a, b]) == Apply(Apply(t, a), b)
    ensures ApplyAll(t, [a, b, c]) == Apply(Apply(Apply(t, a), b), c)
  {
    OneOp(t, a);
    assert [a, b][..1] == [a] && [a, b, c][..2] == [a, b];
  }

  /** The merge, operation by operation: references leave the duplicate first, then it goes, then its side is taken. */
  lemma {:induction false} MergeKeepsConstraints(t: Tables, e: nat, i: nat, request: Binding)
    requires Constraints(t) && e != i && HasExternal(t, request.external, e) && HasInternal(t, request.internal, i)
    ensures Constraints(Apply(t, Reassign(e, i)))
    ensures Constraints(Apply(Apply(t, Reassign(e, i)), Delete(e)))
    ensures Constraints(Apply(Apply(Apply(t, Reassign(e, i)), Delete(e)), Update(i, request)))
  {
  }

  lemma {:induction false} SingleOpKeepsConstraints(t: Tables, newId: nat, request: Binding)
    requires Constraints(t) && newId !in t.bindings && |ReconcileOps(t, newId, request)| == 1
    ensures Constraints(Apply(t, ReconcileOps(t, newId, request)[0]))
  {
  }

  /** The unique indexes and the references hold after every single row operation, not only at the end. */
  lemma {:induction false} EveryOperationKeepsConstraints(t: Tables, newId: nat, request: Binding, n: nat)
    requires Constraints(t) && newId !in t.bindings && n <= |ReconcileOps(t, newId, request)|
    ensures Constraints(ApplyAll(t, ReconcileOps(t, newId, request)[..n]))
  {
    var ops := ReconcileOps(t, newId, request);
    if n > 0 {
      OneOp(t, ops[0]);
      assert ops[..1] == [ops[0]];
      if |ops| == 1 {
        SingleOpKeepsConstraints(t, newId, request);
      } else {
        MergeKeepsConstraints(t, ops[0].source, ops[0].target, request);
        ThreeOps(t, ops[0], ops[1], ops[2]);
        assert ops[..2] == [ops[0], ops[1]] && ops[..3] == [ops[0], ops[1], ops[2]];
      }
    }
  }

  // ----- What reconciliation means ------------------------------------------------------------------------------

  predicate Holds(t: Tables, binding: Binding) {
    exists id :: id in t.bindings && t.bindings[id] == binding
  }

  predicate Touches(binding: Binding, request: Binding) {
    binding.external == request.external || binding.internal == request.internal
  }

  /** The row that carries the request afterwards. */
  ghost function Carrier(t: Tables, newId: nat, request: Binding): nat {
    match (ByExternal(t, request.external), ByInternal(t, request.internal))
    case (_, Some(i)) => i
    case (Some(e), None) => e
    case (None, None) => newId
  }

  /** The tables afterwards: the duplicate row, if there is one, is gone, and the carrier has the request. */
  lemma {:induction false} ReconciledTables(t: Tables, newId: nat, request: Binding)
    ensures Reconciled(t, newId, request) ==
            match (ByExternal(t, request.external), ByInternal(t, request.internal))
            case (Some(e), Some(i)) =>
              if e == i then t.(bindings := t.bindings[i := request])
              else Tables((t.bindings - {e})[i := request], Redirected(t.ingress, e, i))
            case _ => t.(bindings := t.bindings[Carrier(t, newId, request) := request])
  {
    var ops := ReconcileOps(t, newId, request);
    OneOp(t, ops[0]);
    if |ops| == 3 { ThreeOps(t, ops[0], ops[1], ops[2]); }
  }

  /** Row by row: rows that share neither side stay, the carrier has the request, and there is nothing else. */
  lemma {:induction false} ReconciledRows(t: Tables, newId: nat, request: Binding)
    requires Constraints(t) && newId !in t.bindings
    ensures var t' := Reconciled(t, newId, request);
            var carrier := Carrier(t, newId, request);
            && carrier in t'.bindings && t'.bindings[carrier] == request
            && (forall id | id in t'.bindings && id != carrier :: id in t.bindings && t'.bindings[id] == t.bindings[id])
            && (forall id | id in t.bindings && id != carrier :: id in t'.bindings <==> !Touches(t.bindings[id], request))
            && (carrier in t.bindings ==> Touches(t.bindings[carrier], request))
  {
    ReconciledTables(t, newId, request);
  }

  /**
   Reconciliation updates a bijection: afterwards exactly those bindings hold that held before and
   share neither side with the request, and the request.
   */
  lemma {:induction false} ReconciliationIsBijectionUpdate(t: Tables, newId: nat, request: Binding, binding: Binding)
    requires Constraints(t) && newId !in t.bindings
    ensures Holds(Reconciled(t, newId, request), binding) <==>
            binding == request || (Holds(t, binding) && !Touches(binding, request))
  {
    ReconciledRows(t, newId, request);
    var t', carrier := Reconciled(t, newId, request), Carrier(t, newId, request);
    if Holds(t', binding) && binding != request {
      var id :| id in t'.bindings && t'.bindings[id] == binding;
      assert id in t.bindings && t.bindings[id] == binding;
    }
    if Holds(t, binding) && !Touches(binding, request) {
      var id :| id in t.bindings && t.bindings[id] == binding;
      assert id in t'.bindings && t'.bindings[id] == binding;
    }
  }

  predicate IsHeldOutside(t: Tables, external: External) {
    exists k :: k in t.bindings && t.bindings[k].external == external
  }

  predicate IsHeldInside(t: Tables, internal: string) {
    exists k :: k in t.bindings && t.bindings[k].internal == internal
  }

  /**
   The row that has the internal side keeps it; without one the row that has the external side takes the
   request, and without that a new row. The action says which of these it was, and whether two rows became one.
   */
  predicate IsReconciledAs(t: Tables, newId: nat, request: Binding, id: nat, action: Action) {
    && (forall k | k in t.bindings && t.bindings[k].internal == request.internal :: id == k)
    && (!IsHeldInside(t, request.internal) ==> forall k | k in t.bindings && t.bindings[k].external == request.external :: id == k)
    && (action.Created? <==> !IsHeldInside(t, request.internal) && !IsHeldOutside(t, request.external))
    && (action.Created? ==> id == newId)
    && (action.Rebound? <==> IsHeldInside(t, request.internal) && !IsHeldOutside(t, request.external))
    && (action.Merged? <==>
        IsHeldInside(t, request.internal)
        && exists k :: k in t.bindings && t.bindings[k].external == request.external && t.bindings[k].internal != request.internal)
  }

  lemma {:induction false} ReportTellsWhatHappened(t: Tables, newId: nat, request: Binding)
    requires Constraints(t)
    ensures IsReconciledAs(t, newId, request, Carrier(t, newId, request),
                           ActionOf(ByExternal(t, request.external), ByInternal(t, request.internal)))
  {
    var external, internal := ByExternal(t, request.external), ByInternal(t, request.internal);
    assert external.Some? <==> IsHeldOutside(t, request.external) by {
      if k :| k in t.bindings && t.bindings[k].external == request.external { assert HasExternal(t, request.external, k); }
    }
    assert internal.Some? <==> IsHeldInside(t, request.internal) by {
      if k :| k in t.bindings && t.bindings[k].internal == request.internal { assert HasInternal(t, request.internal, k); }
    }
  }

  /** No ingress loses its conversation: what referred to either side refers to the request's row, the rest is as it was. */
  lemma {:induction false} ReferencesFollow(t: Tables, newId: nat, request: Binding, k: nat)
    requires Constraints(t) && newId !in t.bindings && k < |t.ingress|
    ensures var t' := Reconciled(t, newId, request);
            && |t'.ingress| == |t.ingress|
            && (match t.ingress[k]
                case None => t'.ingress[k].None?
                case Some(id) =>
                  && t'.ingress[k].Some? && t'.ingress[k].value in t'.bindings
                  && if Touches(t.bindings[id], request) then t'.bindings[t'.ingress[k].value] == request
                     else t'.ingress[k] == Some(id) && t'.bindings[id] == t.bindings[id])
  {
    ReconciledTables(t, newId, request);
  }

  /** Reconciling the same request again changes nothing. */
  lemma {:induction false} ReconcilingTwiceChangesNothing(t: Tables, newId: nat, request: Binding, otherId: nat)
    requires Constraints(t) && newId !in t.bindings
    ensures Reconciled(Reconciled(t, newId, request), otherId, request) == Reconciled(t, newId, request)
  {
    var t' := Reconciled(t, newId, request);
    ReconciledRows(t, newId, request);
    EveryOperationKeepsConstraints(t, newId, request, |ReconcileOps(t, newId, request)|);
    var ops := ReconcileOps(t, newId, request);
    assert ops[..|ops|] == ops;
    var carrier := Carrier(t, newId, request);
    assert HasExternal(t', request.external, carrier) && HasInternal(t', request.internal, carrier);
    assert ByExternal(t', request.external) == Some(carrier) && ByInternal(t', request.internal) == Some(carrier);
    OneOp(t', Update(carrier, request));
    assert t'.bindings[carrier := request] == t'.bindings;
  }

  // ----- The tables as the program updates them -----------------------------------------------------------------------

  class ConversationBindings {
    var bindings: map<nat, Binding>
    var ingress: seq<Option<nat>>

    constructor ()
      ensures Contents() == Tables(map[], []) && Constraints(Contents())
    {
      bindings, ingress := map[], [];
    }

    function Contents(): Tables
      reads this
    {
      Tables(bindings, ingress)
    }

    method FindByExternal(external: External) returns (id: Option<nat>)
      requires SidesAreUnique(Contents())
      ensures id == ByExternal(Contents(), external)
    {
      if exists k | k in bindings :: bindings[k].external == external {
        var k :| k in bindings && bindings[k].external == external;
        id := Some(k);
        assert HasExternal(Contents(), external, k);
      } else {
        id := None;
        assert forall k :: !HasExternal(Contents(), external, k);
      }
    }

    method FindByInternal(internal: string) returns (id: Option<nat>)
      requires SidesAreUnique(Contents())
      ensures id == ByInternal(Contents(), internal)
    {
      if exists k | k in bindings :: bindings[k].internal == internal {
        var k :| k in bindings && bindings[k].internal == internal;
        id := Some(k);
        assert HasInternal(Contents(), internal, k);
      } else {
        id := None;
        assert forall k :: !HasInternal(Contents(), internal, k);
      }
    }

    /** One row operation; it may not break a constraint even for a moment. */
    method Perform(op: Op)
      requires Constraints(Contents()) && Constraints(Apply(Contents(), op))
      modifies this
      ensures Contents() == Apply(old(Contents()), op) && Constraints(Contents())
    {
      match op
      case Insert(id, binding) => bindings := bindings[id := binding];
      case Update(id, binding) => if id in bindings { bindings := bindings[id := binding]; }
      case Delete(id) => bindings := bindings - {id};
      case Reassign(source, target) => ingress := Redirected(ingress, source, target);
    }

    method ReconcileConversationBinding(newId: nat, request: Binding) returns (id: nat, action: Action)
      requires Constraints(Contents()) && newId !in bindings
      modifies this
      ensures Contents() == Reconciled(old(Contents()), newId, request) && Constraints(Contents())
      ensures id == Carrier(old(Contents()), newId, request) && id in bindings && bindings[id] == request
      ensures IsReconciledAs(old(Contents()), newId, request, id, action)
    {
      ghost var before := Contents();
      ReportTellsWhatHappened(before, newId, request);
      ReconciledTables(before, newId, request);
      var external := FindByExternal(request.external);
      var internal := FindByInternal(request.internal);
      if external.None? && internal.None? {
        SingleOpKeepsConstraints(before, newId, request);
        Perform(Insert(newId, request));
        return newId, Created;
      }
      if external.Some? && internal.Some? && external != internal {
        MergeKeepsConstraints(before, external.value, internal.value, request);
        Perform(Reassign(external.value, internal.value));
        Perform(Delete(external.value));
        Perform(Update(internal.value, request));
        return internal.value, Merged;
      }
      SingleOpKeepsConstraints(before, newId, request);
      id := if internal.Some? then internal.value else external.value;
      action := if external.None? then Rebound else Updated;
      Perform(Update(id, request));
    }
  }
}
