/**
 Memory merges: a proposal is checked against the newest active artifacts of its subject and then
 inserted, or inserted in place of one it supersedes. Artifacts are numbered in insertion order.
 */
module Memory {
  import opened Text

  const SCAN_LIMIT := 32

  datatype Status = Active | Superseded

  datatype Artifact = Artifact(
    kind: string,
    subject: string,
    content: string,
    status: Status,
    supersededBy: Option<nat>,
    supersedes: Option<nat>)

  datatype Posture = Independent | Revises | Supersedes | Conflicts

  datatype Payload = Payload(kind: string, content: string)

  datatype Proposal = Proposal(
    isMemoryProposal: bool,
    payload: Option<Payload>,      // None: the payload is of another type
    subject: string,
    posture: Posture,
    supersedes: Option<nat>,
    passesOtherChecks: bool)       // confidence, provenance, validity dates, and payloads of other kinds

  datatype Reason = Invalid | NotMemory | WrongPayload | Duplicate | Conflicting | NoTarget | TargetNotActive | TargetOfOtherSubject

  datatype Plan = InsertNew | Supersede(target: nat) | Reject(reason: Reason)

  // ----- Scanning and planning -----------------------------------------------------------------------

  predicate IsActiveOf(rows: seq<Artifact>, subject: string, id: nat) {
    id < |rows| && rows[id].status.Active? && rows[id].subject == subject
  }

  /** The newest active artifacts of a subject among the first `n`, newest first. */
  function Scan(rows: seq<Artifact>, subject: string, n: nat, limit: nat): seq<nat>
    requires n <= |rows|
  {
    if n == 0 || limit == 0 then []
    else if IsActiveOf(rows, subject, n - 1) then [n - 1] + Scan(rows, subject, n - 1, limit - 1)
    else Scan(rows, subject, n - 1, limit)
  }

  /** How many active artifacts of the subject lie in `from..n`. */
  function ActiveBetween(rows: seq<Artifact>, subject: string, from: nat, n: nat): nat
    requires from <= n <= |rows|
  {
    if n == from then 0
    else ActiveBetween(rows, subject, from, n - 1) + if IsActiveOf(rows, subject, n - 1) then 1 else 0
  }

  function ActiveCount(rows: seq<Artifact>, subject: string): nat {
    ActiveBetween(rows, subject, 0, |rows|)
  }

  /** The scan sees an active artifact exactly when fewer than `limit` of its subject are newer. */
  lemma {:induction false} ScanSeesTheNewest(rows: seq<Artifact>, subject: string, n: nat, limit: nat, id: nat)
    requires n <= |rows|
    ensures id in Scan(rows, subject, n, limit) <==>
            id < n && IsActiveOf(rows, subject, id) && ActiveBetween(rows, subject, id + 1, n) < limit
  {
    if n > 0 && limit > 0 {
      if IsActiveOf(rows, subject, n - 1) {
        ScanSeesTheNewest(rows, subject, n - 1, limit - 1, id);
      } else {
        ScanSeesTheNewest(rows, subject, n - 1, limit, id);
      }
    }
  }

  function ActiveArtifacts(rows: seq<Artifact>, subject: string): seq<nat> {
    Scan(rows, subject, |rows|, SCAN_LIMIT)
  }

  predicate PostureIsValid(p: Proposal) {
    match p.posture
    case Independent => p.supersedes.None?
    case Conflicts => p.supersedes.None?
    case Revises => p.supersedes.Some?
    case Supersedes => p.supersedes.Some?
  }

  /** The validation of a proposal, up to `passesOtherChecks`. */
  predicate IsValid(p: Proposal) {
    && p.passesOtherChecks && PostureIsValid(p) && Trim(p.subject) != ""
    && (p.isMemoryProposal ==>
          p.payload.Some? && Trim(p.payload.value.kind) != "" && Trim(p.payload.value.content) != "")
  }

  predicate IsCopy(rows: seq<Artifact>, p: Proposal, id: nat)
    requires id < |rows|
  {
    p.payload.Some? && rows[id].kind == p.payload.value.kind && rows[id].subject == p.subject
    && rows[id].content == p.payload.value.content
  }

  predicate Sees(rows: seq<Artifact>, active: seq<nat>) {
    forall i | 0 <= i < |active| :: active[i] < |rows|
  }

  function PlanMerge(rows: seq<Artifact>, active: seq<nat>, p: Proposal): Plan
    requires Sees(rows, active)
  {
    if !p.isMemoryProposal then Reject(NotMemory)
    else if p.payload.None? then Reject(WrongPayload)
    else if exists i :: 0 <= i < |active| && IsCopy(rows, p, active[i]) then Reject(Duplicate)
    else
      match p.posture
      case Independent => InsertNew
      case Conflicts => Reject(Conflicting)
      case _ =>
        match p.supersedes
        case None => Reject(NoTarget)
        case Some(target) =>
          if target !in active then Reject(TargetNotActive)
          else if rows[target].subject != p.subject then Reject(TargetOfOtherSubject)
          else Supersede(target)
  }

  lemma {:induction false} ScanIsInRange(rows: seq<Artifact>, subject: string)
    ensures Sees(rows, ActiveArtifacts(rows, subject))
  {
    forall i | 0 <= i < |ActiveArtifacts(rows, subject)| ensures ActiveArtifacts(rows, subject)[i] < |rows| {
      ScanSeesTheNewest(rows, subject, |rows|, SCAN_LIMIT, ActiveArtifacts(rows, subject)[i]);
      assert ActiveArtifacts(rows, subject)[i] in ActiveArtifacts(rows, subject);
    }
  }

  /** Validation, the scan, and the plan. */
  function PlanFor(rows: seq<Artifact>, p: Proposal): Plan {
    if !IsValid(p) then Reject(Invalid)
    else
      ScanIsInRange(rows, p.subject);
      PlanMerge(rows, ActiveArtifacts(rows, p.subject), p)
  }

  // ----- The transaction -----------------------------------------------------------------------------------

  function NewArtifact(p: Proposal): Artifact
    requires p.payload.Some?
  {
    Artifact(p.payload.value.kind, p.subject, p.payload.value.content, Active, None, p.supersedes)
  }

  function MarkSuperseded(rows: seq<Artifact>, target: nat, successor: nat): seq<Artifact> {
    if target < |rows| then rows[target := rows[target].(status := Superseded, supersededBy := Some(successor))] else rows
  }

  /** What the transaction of this plan leaves, also when the rows have changed since the scan. */
  function Commit(rows: seq<Artifact>, p: Proposal, plan: Plan): seq<Artifact>
    requires p.payload.Some?
  {
    match plan
    case Reject(_) => rows
    case InsertNew => rows + [NewArtifact(p)]
    case Supersede(target) => MarkSuperseded(rows + [NewArtifact(p)], target, |rows|)
  }

  function Merge(rows: seq<Artifact>, p: Proposal): seq<Artifact> {
    var plan := PlanFor(rows, p);
    if plan.Reject? then rows else Commit(rows, p, plan)
  }

  function AfterMerges(rows: seq<Artifact>, proposals: seq<Proposal>): seq<Artifact> {
    if proposals == [] then rows
    else Merge(AfterMerges(rows, proposals[..|proposals| - 1]), proposals[|proposals| - 1])
  }

  // ----- Chains --------------------------------------------------------------------------------------------------

  /** An artifact and its successor point at each other, within one subject and forward in time. */
  predicate LinkOk(rows: seq<Artifact>, r: nat)
    requires r < |rows|
  {
    && (rows[r].status.Superseded? <==> rows[r].supersededBy.Some?)
    && (rows[r].supersededBy.Some? ==>
          var s := rows[r].supersededBy.value;
          r < s < |rows| && rows[s].supersedes == Some(r) && rows[s].subject == rows[r].subject)
    && (rows[r].supersedes.Some? ==>
          var q := rows[r].supersedes.value;
          q < r && rows[q].supersededBy == Some(r))
  }

  predicate ChainsOk(rows: seq<Artifact>) {
    forall r | 0 <= r < |rows| :: LinkOk(rows, r)
  }

  /** What following successors ends at. */
  function Latest(rows: seq<Artifact>, r: nat): (last: nat)
    requires ChainsOk(rows) && r < |rows|
    ensures r <= last < |rows| && rows[last].status.Active? && rows[last].subject == rows[r].subject
    decreases |rows| - r
  {
    assert LinkOk(rows, r);
    if rows[r].supersededBy.None? then r else Latest(rows, rows[r].supersededBy.value)
  }

  predicate Reaches(rows: seq<Artifact>, r: nat, q: nat)
    requires ChainsOk(rows) && r < |rows|
    decreases |rows| - r
  {
    assert LinkOk(rows, r);
    r == q || (rows[r].supersededBy.Some? && Reaches(rows, rows[r].supersededBy.value, q))
  }

  lemma {:induction false} ReachingIsForward(rows: seq<Artifact>, r: nat, q: nat)
    requires ChainsOk(rows) && r < |rows| && Reaches(rows, r, q)
    ensures r <= q < |rows| && Latest(rows, r) == Latest(rows, q)
    decreases |rows| - r
  {
    assert LinkOk(rows, r);
    if r != q { ReachingIsForward(rows, rows[r].supersededBy.value, q); }
  }

  lemma {:induction false} ReachesItsLatest(rows: seq<Artifact>, r: nat)
    requires ChainsOk(rows) && r < |rows|
    ensures Reaches(rows, r, Latest(rows, r))
    decreases |rows| - r
  {
    assert LinkOk(rows, r);
    if rows[r].supersededBy.Some? { ReachesItsLatest(rows, rows[r].supersededBy.value); }
  }

  /** No two artifacts have the same successor, so what reaches the same artifact lies on one line. */
  lemma {:induction false} CommonDescendantsAreComparable(rows: seq<Artifact>, r: nat, q: nat, end: nat)
    requires ChainsOk(rows) && r < |rows| && q < |rows| && Reaches(rows, r, end) && Reaches(rows, q, end)
    ensures Reaches(rows, r, q) || Reaches(rows, q, r)
    decreases end
  {
    ReachingIsForward(rows, r, end);
    ReachingIsForward(rows, q, end);
    if r != end && q != end {
      var before := PredecessorOf(rows, r, end);
      var other := PredecessorOf(rows, q, end);
      assert LinkOk(rows, before) && LinkOk(rows, other);
      CommonDescendantsAreComparable(rows, r, q, before);
    }
  }

  lemma {:induction false} PredecessorOf(rows: seq<Artifact>, r: nat, end: nat) returns (before: nat)
    requires ChainsOk(rows) && r < |rows| && Reaches(rows, r, end) && r != end
    ensures before < |rows| && before < end && Reaches(rows, r, before) && rows[before].supersededBy == Some(end)
    decreases |rows| - r
  {
    assert LinkOk(rows, r);
    var next := rows[r].supersededBy.value;
    if next == end {
      before := r;
    } else {
      before := PredecessorOf(rows, next, end);
    }
  }

  /** Chains are disjoint lines: two artifacts end at the same active one exactly when one supersedes the other, step by step. */
  lemma {:induction false} SameChainIffComparable(rows: seq<Artifact>, r: nat, q: nat)
    requires ChainsOk(rows) && r < |rows| && q < |rows|
    ensures Latest(rows, r) == Latest(rows, q) <==> Reaches(rows, r, q) || Reaches(rows, q, r)
  {
    if Reaches(rows, r, q) { ReachingIsForward(rows, r, q); }
    if Reaches(rows, q, r) { ReachingIsForward(rows, q, r); }
    if Latest(rows, r) == Latest(rows, q) {
      ReachesItsLatest(rows, r);
      ReachesItsLatest(rows, q);
      CommonDescendantsAreComparable(rows, r, q, Latest(rows, r));
    }
  }

  // ----- Merges and chains -----------------------------------------------------------------------------------------

  /** The plan of an accepted proposal fits its posture, and a target was active in its subject. */
  lemma {:induction false} AcceptedPlans(rows: seq<Artifact>, p: Proposal)
    requires !PlanFor(rows, p).Reject?
    ensures p.payload.Some?
    ensures PlanFor(rows, p).InsertNew? ==> p.supersedes.None?
    ensures PlanFor(rows, p).Supersede? ==>
              p.supersedes == Some(PlanFor(rows, p).target) && IsActiveOf(rows, p.subject, PlanFor(rows, p).target)
  {
    if PlanFor(rows, p).Supersede? {
      ScanSeesTheNewest(rows, p.subject, |rows|, SCAN_LIMIT, PlanFor(rows, p).target);
    }
  }

  /** The scan sees the artifact: fewer than its limit are newer. */
  predicate IsVisible(rows: seq<Artifact>, subject: string, id: nat) {
    IsActiveOf(rows, subject, id) && ActiveBetween(rows, subject, id + 1, |rows|) < SCAN_LIMIT
  }

  /** A memory with nothing blank in it, of which the scan sees no copy. */
  predicate IsNewMemory(rows: seq<Artifact>, p: Proposal) {
    && p.passesOtherChecks && Trim(p.subject) != "" && p.isMemoryProposal
    && p.payload.Some? && Trim(p.payload.value.kind) != "" && Trim(p.payload.value.content) != ""
    && forall r | 0 <= r < |rows| && IsVisible(rows, p.subject, r) ::
         rows[r].kind != p.payload.value.kind || rows[r].content != p.payload.value.content
  }

  lemma {:induction false} NoCopyIff(rows: seq<Artifact>, p: Proposal)
    requires p.payload.Some?
    ensures Sees(rows, ActiveArtifacts(rows, p.subject))
    ensures (exists i :: 0 <= i < |ActiveArtifacts(rows, p.subject)| && IsCopy(rows, p, ActiveArtifacts(rows, p.subject)[i]))
            <==> exists r :: 0 <= r < |rows| && IsVisible(rows, p.subject, r) && IsCopy(rows, p, r)
  {
    var active := ActiveArtifacts(rows, p.subject);
    ScanIsInRange(rows, p.subject);
    if i :| 0 <= i < |active| && IsCopy(rows, p, active[i]) {
      ScanSeesTheNewest(rows, p.subject, |rows|, SCAN_LIMIT, active[i]);
      assert active[i] in active && IsVisible(rows, p.subject, active[i]);
    }
    if r :| 0 <= r < |rows| && IsVisible(rows, p.subject, r) && IsCopy(rows, p, r) {
      ScanSeesTheNewest(rows, p.subject, |rows|, SCAN_LIMIT, r);
      assert r in active;
    }
  }

  lemma {:induction false} NewMemoryIff(rows: seq<Artifact>, p: Proposal)
    requires PostureIsValid(p) && p.payload.Some?
    ensures IsNewMemory(rows, p) <==>
            IsValid(p) && p.isMemoryProposal
            && !exists r :: 0 <= r < |rows| && IsVisible(rows, p.subject, r) && IsCopy(rows, p, r)
  {
    assert forall r | 0 <= r < |rows| && IsVisible(rows, p.subject, r) :: rows[r].subject == p.subject;
  }

  /**
   A new memory is accepted exactly if it is independent and names no target, or revises or supersedes one that the scan
   sees; the first is inserted, the others supersede their target.
   */
  lemma {:induction false} AcceptedIff(rows: seq<Artifact>, p: Proposal)
    ensures PlanFor(rows, p).InsertNew? <==> IsNewMemory(rows, p) && p.posture.Independent? && p.supersedes.None?
    ensures PlanFor(rows, p).Supersede? <==>
            && IsNewMemory(rows, p) && (p.posture.Revises? || p.posture.Supersedes?)
            && p.supersedes.Some? && IsVisible(rows, p.subject, p.supersedes.value)
    ensures PlanFor(rows, p).Supersede? ==> p.supersedes == Some(PlanFor(rows, p).target)
  {
    if p.payload.Some? && PostureIsValid(p) {
      NewMemoryIff(rows, p);
      NoCopyIff(rows, p);
      if p.supersedes.Some? {
        ScanSeesTheNewest(rows, p.subject, |rows|, SCAN_LIMIT, p.supersedes.value);
      }
    }
  }

  /** A proposal names a target exactly if it revises or supersedes one, and a memory proposal has a memory in it. */
  predicate IsWellFormed(p: Proposal) {
    && p.passesOtherChecks && Trim(p.subject) != ""
    && (p.supersedes.Some? <==> p.posture.Revises? || p.posture.Supersedes?)
    && (p.isMemoryProposal ==>
          p.payload.Some? && Trim(p.payload.value.kind) != "" && Trim(p.payload.value.content) != "")
  }

  /** Every refusal says why, and nothing but these reasons leads to one. */
  lemma {:induction false} RefusalsSayWhy(rows: seq<Artifact>, p: Proposal)
    ensures PlanFor(rows, p) == Reject(Invalid) <==> !IsWellFormed(p)
    ensures PlanFor(rows, p) == Reject(NotMemory) <==> IsWellFormed(p) && !p.isMemoryProposal
    ensures PlanFor(rows, p) == Reject(Duplicate) <==> IsWellFormed(p) && p.isMemoryProposal && !IsNewMemory(rows, p)
    ensures PlanFor(rows, p) == Reject(Conflicting) <==> IsNewMemory(rows, p) && p.posture.Conflicts? && p.supersedes.None?
    ensures PlanFor(rows, p) == Reject(TargetNotActive) <==>
            && IsNewMemory(rows, p) && (p.posture.Revises? || p.posture.Supersedes?)
            && p.supersedes.Some? && !IsVisible(rows, p.subject, p.supersedes.value)
    ensures PlanFor(rows, p).Reject? ==> PlanFor(rows, p).reason in {Invalid, NotMemory, Duplicate, Conflicting, TargetNotActive}
  {
    if p.payload.Some? && PostureIsValid(p) {
      NewMemoryIff(rows, p);
      NoCopyIff(rows, p);
      if p.supersedes.Some? {
        ScanSeesTheNewest(rows, p.subject, |rows|, SCAN_LIMIT, p.supersedes.value);
      }
    }
  }

  lemma {:induction false} InsertKeepsChains(rows: seq<Artifact>, p: Proposal)
    requires ChainsOk(rows) && p.payload.Some? && p.supersedes.None?
    ensures ChainsOk(Commit(rows, p, InsertNew))
  {
    var rows' := Commit(rows, p, InsertNew);
    forall r | 0 <= r < |rows'| ensures LinkOk(rows', r) {
      assert r < |rows| ==> LinkOk(rows, r);
    }
  }

  /**
   The update that marks the target is not conditional on its status. Committing a plan keeps the
   chains exactly when the target, in the same subject, is still active at that moment.
   */
  lemma {:induction false} SupersedeKeepsChainsIff(rows: seq<Artifact>, p: Proposal, target: nat)
    requires ChainsOk(rows) && p.payload.Some? && p.supersedes == Some(target)
    requires target < |rows| && rows[target].subject == p.subject
    ensures ChainsOk(Commit(rows, p, Supersede(target))) <==> rows[target].status.Active?
  {
    var rows', n := Commit(rows, p, Supersede(target)), |rows|;
    assert LinkOk(rows, target);
    if rows[target].status.Active? {
      forall r | 0 <= r < |rows'| ensures LinkOk(rows', r) {
        assert r < n ==> LinkOk(rows, r);
      }
    } else {
      var s := rows[target].supersededBy.value;
      assert LinkOk(rows, s);
      assert rows'[s].supersedes == Some(target) && rows'[target].supersededBy == Some(n);
      assert !LinkOk(rows', s);
    }
  }

  lemma {:induction false} MergeKeepsChains(rows: seq<Artifact>, p: Proposal)
    requires ChainsOk(rows)
    ensures ChainsOk(Merge(rows, p))
  {
    var plan := PlanFor(rows, p);
    if !plan.Reject? {
      AcceptedPlans(rows, p);
      match plan
      case InsertNew => InsertKeepsChains(rows, p);
      case Supersede(target) => SupersedeKeepsChainsIff(rows, p, target);
    }
  }

  /** Serial merges keep supersession a set of disjoint chains, whatever is proposed. */
  lemma {:induction false} SerialMergesKeepChains(proposals: seq<Proposal>)
    ensures ChainsOk(AfterMerges([], proposals))
  {
    if proposals != [] {
      SerialMergesKeepChains(proposals[..|proposals| - 1]);
      MergeKeepsChains(AfterMerges([], proposals[..|proposals| - 1]), proposals[|proposals| - 1]);
    }
  }

  // ----- Duplicates -------------------------------------------------------------------------------------------------

  predicate SameMemory(a: Artifact, b: Artifact) {
    a.subject == b.subject && a.kind == b.kind && a.content == b.content
  }

  predicate UniqueActive(rows: seq<Artifact>) {
    forall r, q | 0 <= r < q < |rows| && rows[r].status.Active? && rows[q].status.Active? :: !SameMemory(rows[r], rows[q])
  }

  /** An active copy that more newer active artifacts of the subject hide than the scan looks at. */
  predicate IsHiddenCopy(rows: seq<Artifact>, p: Proposal, r: nat) {
    && r < |rows| && rows[r].status.Active? && IsCopy(rows, p, r)
    && ActiveBetween(rows, p.subject, r + 1, |rows|) >= SCAN_LIMIT
  }

  /** An accepted proposal has no active copy but hidden ones. */
  lemma {:induction false} CopiesOfAcceptedAreHidden(rows: seq<Artifact>, p: Proposal, r: nat)
    requires !PlanFor(rows, p).Reject?
    requires r < |rows| && rows[r].status.Active? && IsCopy(rows, p, r)
    ensures IsHiddenCopy(rows, p, r)
  {
    var active := ActiveArtifacts(rows, p.subject);
    ScanIsInRange(rows, p.subject);
    ScanSeesTheNewest(rows, p.subject, |rows|, SCAN_LIMIT, r);
    assert forall i | 0 <= i < |active| :: !IsCopy(rows, p, active[i]);
  }

  /** A merge makes a duplicate exactly when it is accepted although a hidden copy exists. */
  lemma {:induction false} MergeDuplicatesIff(rows: seq<Artifact>, p: Proposal)
    requires UniqueActive(rows)
    ensures UniqueActive(Merge(rows, p)) <==>
            !(!PlanFor(rows, p).Reject? && exists r :: 0 <= r < |rows| && IsHiddenCopy(rows, p, r))
  {
    var plan := PlanFor(rows, p);
    if !plan.Reject? {
      AcceptedPlans(rows, p);
      var rows', n := Merge(rows, p), |rows|;
      assert rows'[n] == NewArtifact(p);
      forall r | 0 <= r < n && rows'[r].status.Active? && SameMemory(rows'[r], rows'[n]) ensures IsHiddenCopy(rows, p, r) {
        CopiesOfAcceptedAreHidden(rows, p, r);
      }
      if r :| 0 <= r < n && IsHiddenCopy(rows, p, r) {
        HiddenIsNotTarget(rows, p, r);
        assert rows'[r] == rows[r] && SameMemory(rows'[r], rows'[n]);
      }
    }
  }

  lemma {:induction false} HiddenIsNotTarget(rows: seq<Artifact>, p: Proposal, r: nat)
    requires IsHiddenCopy(rows, p, r)
    ensures PlanFor(rows, p) != Supersede(r)
  {
    ScanSeesTheNewest(rows, p.subject, |rows|, SCAN_LIMIT, r);
  }

  lemma {:induction false} CountSplits(rows: seq<Artifact>, subject: string, from: nat, n: nat)
    requires from < n <= |rows| && IsActiveOf(rows, subject, from)
    ensures ActiveBetween(rows, subject, from + 1, n) < ActiveBetween(rows, subject, 0, n)
  {
    if n > from + 1 {
      CountSplits(rows, subject, from, n - 1);
    }
  }

  /** While no subject has more than 32 active artifacts, active memories stay distinct. */
  lemma {:induction false} SmallSubjectsStayUnique(proposals: seq<Proposal>)
    requires forall k | 0 <= k < |proposals| :: ActiveCount(AfterMerges([], proposals[..k]), proposals[k].subject) <= SCAN_LIMIT
    ensures UniqueActive(AfterMerges([], proposals))
  {
    if proposals != [] {
      var before, p := proposals[..|proposals| - 1], proposals[|proposals| - 1];
      forall k | 0 <= k < |before| ensures ActiveCount(AfterMerges([], before[..k]), before[k].subject) <= SCAN_LIMIT {
        assert before[..k] == proposals[..k];
      }
      SmallSubjectsStayUnique(before);
      var rows := AfterMerges([], before);
      assert ActiveCount(rows, p.subject) <= SCAN_LIMIT;
      forall r | 0 <= r < |rows| ensures !IsHiddenCopy(rows, p, r) {
        if IsActiveOf(rows, p.subject, r) { CountSplits(rows, p.subject, r, |rows|); }
      }
      MergeDuplicatesIff(rows, p);
    }
  }

  // ----- What the limits and the missing lock allow ---------------------------------------------------------------

  /** Independent memories of one subject with contents of different lengths. */
  function Note(i: nat): Proposal {
    Proposal(true, Some(Payload("note", seq(i + 1, _ => 'x'))), "subject", Independent, None, true)
  }

  lemma {:induction false} TrimmedTextIsNotBlank(text: string)
    requires text != "" && IsTrimmed(text)
    ensures Trim(text) != ""
  {
    TrimIsIdempotent(text);
  }

  lemma {:induction false} NotesAreValid(i: nat)
    ensures IsValid(Note(i))
  {
    TrimmedTextIsNotBlank(Note(i).subject);
    TrimmedTextIsNotBlank(Note(i).payload.value.kind);
    TrimmedTextIsNotBlank(Note(i).payload.value.content);
  }

  function Notes(n: nat): (notes: seq<Proposal>)
    ensures |notes| == n && forall i | 0 <= i < n :: notes[i] == Note(i)
  {
    seq(n, i requires 0 <= i < n => Note(i))
  }

  predicate AreNotes(rows: seq<Artifact>) {
    forall i | 0 <= i < |rows| :: rows[i] == NewArtifact(Note(i))
  }

  lemma {:induction false} NotesNotSeenAreAccepted(rows: seq<Artifact>, i: nat)
    requires forall r | 0 <= r < |rows| && r in ActiveArtifacts(rows, "subject") :: rows[r].content != Note(i).payload.value.content
    ensures PlanFor(rows, Note(i)) == InsertNew
  {
    var active := ActiveArtifacts(rows, "subject");
    NotesAreValid(i);
    ScanIsInRange(rows, "subject");
    forall k | 0 <= k < |active| ensures !IsCopy(rows, Note(i), active[k]) {
      assert active[k] in active;
    }
  }

  lemma {:induction false} NotesAreInserted(n: nat)
    ensures |AfterMerges([], Notes(n))| == n && AreNotes(AfterMerges([], Notes(n)))
  {
    if n > 0 {
      NotesAreInserted(n - 1);
      assert Notes(n)[..n - 1] == Notes(n - 1);
      var rows := AfterMerges([], Notes(n - 1));
      forall r | 0 <= r < |rows| ensures rows[r].content != Note(n - 1).payload.value.content {
        assert |rows[r].content| == r + 1;
      }
      NotesNotSeenAreAccepted(rows, n - 1);
      assert AfterMerges([], Notes(n)) == Merge(rows, Note(n - 1));
    }
  }

  lemma {:induction false} NotesAreActive(rows: seq<Artifact>, from: nat, n: nat)
    requires AreNotes(rows) && from <= n <= |rows|
    ensures ActiveBetween(rows, "subject", from, n) == n - from
  {
    if from < n {
      NotesAreActive(rows, from, n - 1);
      assert rows[n - 1] == NewArtifact(Note(n - 1));
    }
  }

  lemma {:induction false} NotesAreDistinct(rows: seq<Artifact>)
    requires AreNotes(rows)
    ensures UniqueActive(rows)
  {
    forall r, q | 0 <= r < q < |rows| ensures !SameMemory(rows[r], rows[q]) {
      assert |rows[r].content| == r + 1 && |rows[q].content| == q + 1;
    }
  }

  lemma {:induction false} FirstNoteIsForgotten(rows: seq<Artifact>)
    requires AreNotes(rows) && |rows| == SCAN_LIMIT + 1
    ensures IsHiddenCopy(rows, Note(0), 0) && PlanFor(rows, Note(0)) == InsertNew
  {
    NotesAreActive(rows, 1, |rows|);
    assert rows[0] == NewArtifact(Note(0));
    ScanSeesTheNewest(rows, "subject", |rows|, SCAN_LIMIT, 0);
    forall r | 0 <= r < |rows| && r in ActiveArtifacts(rows, "subject") ensures rows[r].content != Note(0).payload.value.content {
      assert |rows[r].content| == r + 1;
    }
    NotesNotSeenAreAccepted(rows, 0);
  }

  /** After 33 memories of a subject the oldest is out of the scan's sight, and is accepted a second time. */
  lemma {:induction false} ForgottenMemoryIsDuplicated()
    ensures UniqueActive(AfterMerges([], Notes(SCAN_LIMIT + 1)))
    ensures !UniqueActive(Merge(AfterMerges([], Notes(SCAN_LIMIT + 1)), Note(0)))
  {
    var rows := AfterMerges([], Notes(SCAN_LIMIT + 1));
    NotesAreInserted(SCAN_LIMIT + 1);
    NotesAreDistinct(rows);
    FirstNoteIsForgotten(rows);
    MergeDuplicatesIff(rows, Note(0));
  }

  datatype Pending = Pending(proposal: Proposal, plan: Plan)

  /** Merges that overlap: the scan and the plan are one step, the transaction another. */
  datatype World = World(rows: seq<Artifact>, threads: map<nat, Pending>)

  datatype Move = ScanAndPlan(thread: nat, proposal: Proposal) | CommitPlan(thread: nat)

  function Apply(w: World, move: Move): World {
    match move
    case ScanAndPlan(t, p) =>
      if PlanFor(w.rows, p).Reject? then w else w.(threads := w.threads[t := Pending(p, PlanFor(w.rows, p))])
    case CommitPlan(t) =>
      if t in w.threads && w.threads[t].proposal.payload.Some? then
        World(Commit(w.rows, w.threads[t].proposal, w.threads[t].plan), w.threads - {t})
      else w
  }

  function After(moves: seq<Move>): World {
    if moves == [] then World([], map[]) else Apply(After(moves[..|moves| - 1]), moves[|moves| - 1])
  }

  /** A pending plan fits its proposal, and its target exists in the same subject, active or not. */
  predicate PendingOk(rows: seq<Artifact>, pending: Pending) {
    && pending.proposal.payload.Some?
    && match pending.plan
       case Reject(_) => false
       case InsertNew => pending.proposal.supersedes.None?
       case Supersede(target) =>
         pending.proposal.supersedes == Some(target) && target < |rows| && rows[target].subject == pending.proposal.subject
  }

  predicate AllPendingOk(w: World) {
    forall t | t in w.threads :: PendingOk(w.rows, w.threads[t])
  }

  lemma {:induction false} ApplyKeepsPendingOk(w: World, move: Move)
    requires AllPendingOk(w)
    ensures AllPendingOk(Apply(w, move))
  {
    if move.ScanAndPlan? && !PlanFor(w.rows, move.proposal).Reject? {
      AcceptedPlans(w.rows, move.proposal);
    }
  }

  lemma {:induction false} EveryRunKeepsPendingOk(moves: seq<Move>)
    ensures AllPendingOk(After(moves))
  {
    if moves != [] {
      EveryRunKeepsPendingOk(moves[..|moves| - 1]);
      ApplyKeepsPendingOk(After(moves[..|moves| - 1]), moves[|moves| - 1]);
    }
  }

  /** The move commits nothing that was superseded since its scan. */
  predicate FindsTargetActive(w: World, move: Move) {
    match move
    case ScanAndPlan(_, _) => true
    case CommitPlan(t) =>
      t in w.threads && w.threads[t].plan.Supersede? ==>
        var target := w.threads[t].plan.target;
        target < |w.rows| && w.rows[target].status.Active?
  }

  /** In any run, a move keeps the chains exactly when it finds its target active. */
  lemma {:induction false} MoveKeepsChainsIff(moves: seq<Move>, move: Move)
    requires ChainsOk(After(moves).rows)
    ensures ChainsOk(Apply(After(moves), move).rows) <==> FindsTargetActive(After(moves), move)
  {
    EveryRunKeepsPendingOk(moves);
    var w := After(moves);
    if move.CommitPlan? && move.thread in w.threads {
      var pending := w.threads[move.thread];
      assert PendingOk(w.rows, pending);
      match pending.plan
      case InsertNew => InsertKeepsChains(w.rows, pending.proposal);
      case Supersede(target) => SupersedeKeepsChainsIff(w.rows, pending.proposal, target);
    }
  }

  lemma {:induction false} AfterNext(moves: seq<Move>, k: nat)
    requires k < |moves|
    ensures After(moves[..k + 1]) == Apply(After(moves[..k]), moves[k])
  {
    assert moves[..k + 1][..k] == moves[..k];
  }

  predicate TargetsActiveThroughout(moves: seq<Move>) {
    forall k | 0 <= k < |moves| :: FindsTargetActive(After(moves[..k]), moves[k])
  }

  predicate ChainsThroughout(moves: seq<Move>) {
    forall k | 0 <= k <= |moves| :: ChainsOk(After(moves[..k]).rows)
  }

  lemma {:induction false} ActiveTargetsKeepChains(moves: seq<Move>, k: nat)
    requires TargetsActiveThroughout(moves) && k <= |moves|
    ensures ChainsOk(After(moves[..k]).rows)
  {
    if k == 0 {
      assert moves[..0] == [];
    } else {
      ActiveTargetsKeepChains(moves, k - 1);
      MoveKeepsChainsIff(moves[..k - 1], moves[k - 1]);
      AfterNext(moves, k - 1);
    }
  }

  /** Overlapping merges keep the chains throughout exactly when no transaction supersedes what is superseded already. */
  lemma {:induction false} ChainsHoldIffTargetsAreActive(moves: seq<Move>)
    ensures ChainsThroughout(moves) <==> TargetsActiveThroughout(moves)
  {
    if TargetsActiveThroughout(moves) {
      forall k | 0 <= k <= |moves| ensures ChainsOk(After(moves[..k]).rows) {
        ActiveTargetsKeepChains(moves, k);
      }
    }
    if ChainsThroughout(moves) {
      forall k | 0 <= k < |moves| ensures FindsTargetActive(After(moves[..k]), moves[k]) {
        assert ChainsOk(After(moves[..k]).rows) && ChainsOk(After(moves[..k + 1]).rows);
        AfterNext(moves, k);
        MoveKeepsChainsIff(moves[..k], moves[k]);
      }
    }
  }

  /** An active copy of what the plan is about to insert that the plan itself does not supersede. */
  predicate LeavesCopy(rows: seq<Artifact>, p: Proposal, plan: Plan) {
    exists r :: 0 <= r < |rows| && rows[r].status.Active? && IsCopy(rows, p, r) && plan != Supersede(r)
  }

  /** Whatever was scanned before, a transaction makes an active duplicate exactly when it leaves an active copy standing. */
  lemma {:induction false} CommitDuplicatesIff(rows: seq<Artifact>, p: Proposal, plan: Plan)
    requires UniqueActive(rows) && p.payload.Some? && !plan.Reject?
    requires plan.Supersede? ==> plan.target < |rows|
    ensures UniqueActive(Commit(rows, p, plan)) <==> !LeavesCopy(rows, p, plan)
  {
    var rows', n := Commit(rows, p, plan), |rows|;
    assert rows'[n] == NewArtifact(p);
    if r :| 0 <= r < n && rows[r].status.Active? && IsCopy(rows, p, r) && plan != Supersede(r) {
      assert rows'[r] == rows[r] && SameMemory(rows'[r], rows'[n]);
    } else {
      forall r | 0 <= r < n && rows'[r].status.Active? ensures !SameMemory(rows'[r], NewArtifact(p)) {
        assert rows'[r] == rows[r] && plan != Supersede(r);
      }
    }
  }

  /** The move commits nothing of which another active copy has appeared, or lies out of the scan's sight. */
  predicate FindsNoCopy(w: World, move: Move) {
    match move
    case ScanAndPlan(_, _) => true
    case CommitPlan(t) => t in w.threads ==> !LeavesCopy(w.rows, w.threads[t].proposal, w.threads[t].plan)
  }

  /** In any run, a move keeps active memories distinct exactly when it finds no other active copy at its commit. */
  lemma {:induction false} MoveKeepsMemoriesDistinctIff(moves: seq<Move>, move: Move)
    requires UniqueActive(After(moves).rows)
    ensures UniqueActive(Apply(After(moves), move).rows) <==> FindsNoCopy(After(moves), move)
  {
    EveryRunKeepsPendingOk(moves);
    var w := After(moves);
    if move.CommitPlan? && move.thread in w.threads {
      var pending := w.threads[move.thread];
      assert PendingOk(w.rows, pending);
      CommitDuplicatesIff(w.rows, pending.proposal, pending.plan);
    }
  }

  /** Two merges that revise the same artifact after both have scanned leave a chain broken. */
  lemma {:induction false} OverlappingRevisionsBreakChains(w: World, a: Proposal, b: Proposal)
    requires ChainsOk(w.rows) && 0 !in w.threads && 1 !in w.threads
    requires PlanFor(w.rows, a).Supersede? && PlanFor(w.rows, b) == PlanFor(w.rows, a)
    ensures !ChainsOk(Apply(Apply(Apply(Apply(w, ScanAndPlan(0, a)), ScanAndPlan(1, b)), CommitPlan(0)), CommitPlan(1)).rows)
  {
    AcceptedPlans(w.rows, a);
    AcceptedPlans(w.rows, b);
    var target := PlanFor(w.rows, a).target;
    var w2 := Apply(Apply(w, ScanAndPlan(0, a)), ScanAndPlan(1, b));
    assert w2.rows == w.rows && w2.threads[0] == Pending(a, Supersede(target)) && w2.threads[1] == Pending(b, Supersede(target));
    SupersedeKeepsChainsIff(w.rows, a, target);
    var rows3 := Commit(w.rows, a, Supersede(target));
    assert Apply(w2, CommitPlan(0)).rows == rows3 && Apply(w2, CommitPlan(0)).threads[1] == Pending(b, Supersede(target));
    SupersedeKeepsChainsIff(rows3, b, target);
  }

  function Revision(content: string): Proposal {
    Proposal(true, Some(Payload("note", content)), "subject", Revises, Some(0), true)
  }

  /** For example two revisions of the first memory of a subject, with any new texts. */
  lemma {:induction false} RacingRevisionsOfOneNote(first: string, second: string)
    requires Trim(first) != "" && Trim(second) != ""
    requires first != Note(0).payload.value.content && second != Note(0).payload.value.content
    ensures ChainsOk(AfterMerges([], Notes(1)))
    ensures var w := World(AfterMerges([], Notes(1)), map[]);
            !ChainsOk(Apply(Apply(Apply(Apply(w, ScanAndPlan(0, Revision(first))), ScanAndPlan(1, Revision(second))),
                                  CommitPlan(0)), CommitPlan(1)).rows)
  {
    NotesAreInserted(1);
    SerialMergesKeepChains(Notes(1));
    RevisionSupersedes(AfterMerges([], Notes(1)), first);
    RevisionSupersedes(AfterMerges([], Notes(1)), second);
    OverlappingRevisionsBreakChains(World(AfterMerges([], Notes(1)), map[]), Revision(first), Revision(second));
  }

  lemma {:induction false} RevisionSupersedes(rows: seq<Artifact>, content: string)
    requires AreNotes(rows) && |rows| == 1 && Trim(content) != "" && content != Note(0).payload.value.content
    ensures PlanFor(rows, Revision(content)) == Supersede(0)
  {
    assert rows[0] == NewArtifact(Note(0));
    TrimmedTextIsNotBlank(Revision(content).subject);
    TrimmedTextIsNotBlank(Revision(content).payload.value.kind);
    ScanIsInRange(rows, "subject");
    ScanSeesTheNewest(rows, "subject", |rows|, SCAN_LIMIT, 0);
  }

  // ----- The table as the program updates it --------------------------------------------------------------------------

  class MemoryArtifacts {
    var rows: seq<Artifact>

    constructor ()
      ensures rows == []
    {
      rows := [];
    }

    method ListActiveBySubject(subject: string, limit: nat) returns (active: seq<nat>)
      ensures active == Scan(rows, subject, |rows|, limit)
    {
      active := [];
      var n, left := |rows|, limit;
      while n > 0 && left > 0
        invariant 0 <= n <= |rows| && 0 <= left
        invariant active + Scan(rows, subject, n, left) == Scan(rows, subject, |rows|, limit)
        decreases n
      {
        n := n - 1;
        if IsActiveOf(rows, subject, n) {
          ConcatIsAssociative(active, [n], Scan(rows, subject, n, left - 1));
          active := active + [n];
          left := left - 1;
        }
      }
      ConcatWithEmpty(active);
    }

    method InsertMemoryArtifact(artifact: Artifact) returns (id: nat)
      modifies this
      ensures id == |old(rows)| && rows == old(rows) + [artifact]
    {
      id := |rows|;
      rows := rows + [artifact];
    }

    method MarkMemoryArtifactSuperseded(id: nat, successor: nat)
      modifies this
      ensures rows == MarkSuperseded(old(rows), id, successor)
    {
      if id < |rows| {
        rows := rows[id := rows[id].(status := Superseded, supersededBy := Some(successor))];
      }
    }

    method ApplyMemoryProposalMerge(p: Proposal) returns (r: Result<nat, Reason>)
      modifies this
      ensures rows == Merge(old(rows), p)
      ensures match r
              case Ok(id) => id == |old(rows)| && |rows| == id + 1 && rows[id] == NewArtifact(p)
              case Err(reason) => PlanFor(old(rows), p) == Reject(reason) && rows == old(rows)
    {
      if !IsValid(p) {
        return Err(Invalid);
      }
      ScanIsInRange(rows, p.subject);
      var active := ListActiveBySubject(p.subject, SCAN_LIMIT);
      var plan := PlanMerge(rows, active, p);
      match plan
      case Reject(reason) => return Err(reason);
      case InsertNew =>
        var id := InsertMemoryArtifact(NewArtifact(p));
        return Ok(id);
      case Supersede(target) =>
        AcceptedPlans(rows, p);
        var id := InsertMemoryArtifact(NewArtifact(p));
        MarkMemoryArtifactSuperseded(target, id);
        return Ok(id);
    }
  }
}
