/** Deduplication keys of background jobs. */
module DedupKeys {
  import opened Text

  datatype JobKind = MemoryConsolidation | RetrievalMaintenance | ContradictionAndDriftScan | SelfModelReflection

  datatype TriggerKind =
    | TimeSchedule | VolumeThreshold | DriftOrAnomalySignal
    | ForegroundDelegation | ExternalPassiveEvent | MaintenanceTrigger

  datatype Trigger = Trigger(kind: TriggerKind, payloadRef: Option<string>, reasonSummary: string)

  function JobKindName(kind: JobKind): string {
    match kind
    case MemoryConsolidation => "memory_consolidation"
    case RetrievalMaintenance => "retrieval_maintenance"
    case ContradictionAndDriftScan => "contradiction_and_drift_scan"
    case SelfModelReflection => "self_model_reflection"
  }

  function TriggerKindName(kind: TriggerKind): string {
    match kind
    case TimeSchedule => "time_schedule"
    case VolumeThreshold => "volume_threshold"
    case DriftOrAnomalySignal => "drift_or_anomaly_signal"
    case ForegroundDelegation => "foreground_delegation"
    case ExternalPassiveEvent => "external_passive_event"
    case MaintenanceTrigger => "maintenance_trigger"
  }

  const DASH := '-'
  const COLON := ':'

  predicate IsLowerAlphanumeric(c: char) {
    'a' <= c <= 'z' || '0' <= c <= '9'
  }

  function NormalizedChar(c: char): char {
    if IsLowerAlphanumeric(c) then c
    else if 'A' <= c <= 'Z' then c + 32 as char
    else DASH
  }

  function MapChars(s: string): (r: string)
    ensures |r| == |s| && forall i | 0 <= i < |s| :: r[i] == NormalizedChar(s[i])
  {
    if s == [] then [] else [NormalizedChar(s[0])] + MapChars(s[1..])
  }

  function NonEmpty(segments: seq<string>): seq<string> {
    if segments == [] then []
    else (if segments[0] == "" then [] else [segments[0]]) + NonEmpty(segments[1..])
  }

  function NormalizeDedupComponent(value: string): string {
    var collapsed := Join(NonEmpty(Split(MapChars(value), DASH)), DASH);
    if collapsed == "" then "unspecified" else collapsed
  }

  predicate IsSegment(segment: string) {
    segment != "" && forall c | c in segment :: IsLowerAlphanumeric(c)
  }

  /** Lowercase alphanumeric segments with a single dash between two of them. */
  predicate IsComponent(s: string) {
    forall segment | segment in Split(s, DASH) :: IsSegment(segment)
  }

  lemma {:induction false} SplitTakesCharactersFrom(s: string, separator: char)
    ensures forall piece, c | piece in Split(s, separator) && c in piece :: c in s
  {
    if s != [] {
      SplitTakesCharactersFrom(s[1..], separator);
      var rest := Split(s[1..], separator);
      forall piece, c | piece in Split(s, separator) && c in piece ensures c in s {
        if s[0] == separator {
          assert piece == "" || piece in rest;
        } else {
          assert piece == [s[0]] + rest[0] || piece in rest[1..];
          assert piece in rest[1..] ==> piece in rest;
        }
      }
    }
  }

  lemma {:induction false} NonEmptyKeepsSegments(segments: seq<string>)
    requires forall segment | segment in segments :: segment == "" || IsSegment(segment)
    ensures forall segment | segment in NonEmpty(segments) :: IsSegment(segment)
  {
    if segments != [] {
      assert segments[0] in segments;
      NonEmptyKeepsSegments(segments[1..]);
    }
  }

  lemma {:induction false} NonEmptyOfSegments(segments: seq<string>)
    requires forall segment | segment in segments :: IsSegment(segment)
    ensures NonEmpty(segments) == segments
  {
    if segments != [] {
      assert segments[0] in segments;
      NonEmptyOfSegments(segments[1..]);
      assert segments == [segments[0]] + segments[1..];
    }
  }

  lemma {:induction false} JoinOfSegmentsIsComponent(segments: seq<string>)
    requires segments != [] && forall segment | segment in segments :: IsSegment(segment)
    ensures IsComponent(Join(segments, DASH)) && Join(segments, DASH) != ""
  {
    SplitOfJoin(segments, DASH);
    assert segments[0] in segments;
  }

  /** The normaliser always yields a component, and components are exactly what it leaves alone. */
  lemma {:induction false} NormalizerFixesComponents(value: string)
    ensures IsComponent(NormalizeDedupComponent(value)) && NormalizeDedupComponent(value) != ""
    ensures NormalizeDedupComponent(value) == value <==> IsComponent(value)
    ensures NormalizeDedupComponent(NormalizeDedupComponent(value)) == NormalizeDedupComponent(value)
  {
    NormalizerYieldsComponents(value);
    if IsComponent(value) {
      ComponentsAreFixed(value);
    }
    ComponentsAreFixed(NormalizeDedupComponent(value));
  }

  lemma {:induction false} NormalizerYieldsComponents(value: string)
    ensures IsComponent(NormalizeDedupComponent(value)) && NormalizeDedupComponent(value) != ""
  {
    var mapped := MapChars(value);
    var pieces := Split(mapped, DASH);
    SplitTakesCharactersFrom(mapped, DASH);
    forall piece | piece in pieces ensures piece == "" || IsSegment(piece) {
      forall c | c in piece ensures IsLowerAlphanumeric(c) {
        assert c in mapped;
        var i :| 0 <= i < |mapped| && mapped[i] == c;
      }
    }
    NonEmptyKeepsSegments(pieces);
    var segments := NonEmpty(pieces);
    if segments != [] {
      JoinOfSegmentsIsComponent(segments);
    } else {
      FallbackIsComponent();
    }
  }

  lemma {:induction false} FallbackIsComponent()
    ensures IsComponent("unspecified")
  {
    assert forall c | c in "unspecified" :: IsLowerAlphanumeric(c);
    SplitOfPiece("unspecified", DASH);
  }

  lemma {:induction false} ComponentsAreFixed(s: string)
    requires IsComponent(s)
    ensures NormalizeDedupComponent(s) == s
  {
    var pieces := Split(s, DASH);
    JoinOfSplit(s, DASH);
    ComponentCharacters(pieces);
    forall i | 0 <= i < |s| ensures NormalizedChar(s[i]) == s[i] {
      assert s[i] in s;
    }
    assert MapChars(s) == s;
    NonEmptyOfSegments(pieces);
    JoinOfSegmentsIsComponent(pieces);
  }

  /** The letters and digits of a text, in order, in lower case. */
  function Letters(s: string): string {
    if s == [] then [] else LetterOf(s[0]) + Letters(s[1..])
  }

  function LetterOf(c: char): string {
    if IsLowerAlphanumeric(c) then [c]
    else if 'A' <= c <= 'Z' then ['a' + (c - 'A')]
    else []
  }

  lemma {:induction false} MappingKeepsLetter(c: char)
    ensures LetterOf(NormalizedChar(c)) == LetterOf(c)
  {
  }

  lemma {:induction false} LettersOfConcat(a: string, b: string)
    ensures Letters(a + b) == Letters(a) + Letters(b)
  {
    if a == [] {
      ConcatWithEmpty(b);
      ConcatWithEmpty(Letters(b));
    } else {
      var rest := a[1..];
      LettersOfConcat(rest, b);
      assert (a + b)[0] == a[0] && (a + b)[1..] == rest + b;
      ConcatIsAssociative(LetterOf(a[0]), Letters(rest), Letters(b));
    }
  }

  lemma {:induction false} LettersAfterDash(s: string)
    ensures Letters([DASH] + s) == Letters(s)
  {
    var all := [DASH] + s;
    assert all[0] == DASH && all[1..] == s;
    assert LetterOf(DASH) == [];
    ConcatWithEmpty(Letters(s));
  }

  lemma {:induction false} JoiningKeepsLetters(segments: seq<string>)
    ensures Letters(Join(NonEmpty(segments), DASH)) == Letters(Join(segments, DASH))
  {
    if segments != [] {
      var first, rest := segments[0], segments[1..];
      JoiningKeepsLetters(rest);
      LettersOfJoin(first, rest);
      assert segments == [first] + rest;
      if first == "" {
        assert Letters(first) == [];
        assert NonEmpty(segments) == NonEmpty(rest);
      } else {
        LettersOfJoin(first, NonEmpty(rest));
        assert NonEmpty(segments) == [first] + NonEmpty(rest);
      }
    }
  }

  lemma {:induction false} LettersOfJoin(first: string, rest: seq<string>)
    ensures Letters(Join([first] + rest, DASH)) == Letters(first) + Letters(Join(rest, DASH))
  {
    var all := [first] + rest;
    assert all[1..] == rest;
    if rest != [] {
      LettersOfConcat(first, [DASH] + Join(rest, DASH));
      LettersAfterDash(Join(rest, DASH));
      ConcatIsAssociative(first, [DASH], Join(rest, DASH));
    } else {
      ConcatWithEmpty(Letters(first));
    }
  }

  lemma {:induction false} MappingKeepsLetters(value: string)
    ensures Letters(MapChars(value)) == Letters(value)
  {
    if value != [] {
      MappingKeepsLetter(value[0]);
      MappingKeepsLetters(value[1..]);
    }
  }

  /**
   The normaliser keeps the letters and digits, in order, and the words they form between other characters; a text
   without any is called unspecified.
   */
  lemma {:induction false} NormalizerKeepsLetters(value: string)
    ensures Letters(value) != [] ==>
              && Letters(NormalizeDedupComponent(value)) == Letters(value)
              && Split(NormalizeDedupComponent(value), DASH) == NonEmpty(Split(MapChars(value), DASH))
    ensures Letters(value) == [] ==> NormalizeDedupComponent(value) == "unspecified"
  {
    var mapped := MapChars(value);
    var pieces := Split(mapped, DASH);
    var collapsed := Join(NonEmpty(pieces), DASH);
    MappingKeepsLetters(value);
    JoiningKeepsLetters(pieces);
    JoinOfSplit(mapped, DASH);
    assert Letters(collapsed) == Letters(value);
    if collapsed != "" {
      NormalizerYieldsComponents(value);
      ComponentStartsWithLetter(collapsed);
      NonEmptyAreFree(pieces);
      SplitOfJoin(NonEmpty(pieces), DASH);
    }
  }

  lemma {:induction false} NonEmptyAreFree(segments: seq<string>)
    requires forall segment | segment in segments :: DASH !in segment
    ensures forall segment | segment in NonEmpty(segments) :: DASH !in segment
  {
    if segments != [] {
      assert segments[0] in segments;
      NonEmptyAreFree(segments[1..]);
    }
  }

  lemma {:induction false} ComponentStartsWithLetter(s: string)
    requires IsComponent(s) && s != ""
    ensures Letters(s) != []
  {
    JoinOfSplit(s, DASH);
    var pieces := Split(s, DASH);
    assert pieces[0] in pieces;
    assert pieces[0] != "" && IsLowerAlphanumeric(pieces[0][0]);
    assert s[0] == pieces[0][0];
  }

  lemma {:induction false} ComponentCharacters(segments: seq<string>)
    requires forall segment | segment in segments :: IsSegment(segment)
    ensures forall c | c in Join(segments, DASH) :: c == DASH || IsLowerAlphanumeric(c)
  {
    if segments != [] {
      assert segments[0] in segments;
      ComponentCharacters(segments[1..]);
    }
  }

  function Discriminator(trigger: Trigger, conversation: Option<string>): string {
    match trigger.kind
    case TimeSchedule | VolumeThreshold => conversation.GetOr("global")
    case ForegroundDelegation | MaintenanceTrigger | DriftOrAnomalySignal | ExternalPassiveEvent =>
      trigger.payloadRef.GetOr(conversation.GetOr(trigger.reasonSummary))
  }

  function BuildDeduplicationKey(kind: JobKind, trigger: Trigger, conversation: Option<string>): string {
    "background" + [COLON] + (JobKindName(kind) + [COLON] + (TriggerKindName(trigger.kind) + [COLON]
      + NormalizeDedupComponent(Discriminator(trigger, conversation))))
  }

  lemma {:induction false} ComponentHasNoColon(s: string)
    requires IsComponent(s)
    ensures COLON !in s
  {
    JoinOfSplit(s, DASH);
    ComponentCharacters(Split(s, DASH));
  }

  predicate IsScheduled(kind: TriggerKind) {
    kind.TimeSchedule? || kind.VolumeThreshold?
  }

  /**
   What a trigger is about: of a scheduled one its conversation, or everything; of another its payload, or
   without one its conversation, or without that its reason.
   */
  predicate IsSubject(trigger: Trigger, conversation: Option<string>, subject: string) {
    if IsScheduled(trigger.kind) then conversation == Some(subject) || (conversation.None? && subject == "global")
    else
      || trigger.payloadRef == Some(subject)
      || (trigger.payloadRef.None? && conversation == Some(subject))
      || (trigger.payloadRef.None? && conversation.None? && subject == trigger.reasonSummary)
  }

  /** The key splits into its four parts. */
  lemma {:induction false} KeyFields(kind: JobKind, trigger: Trigger, conversation: Option<string>, subject: string)
    requires IsSubject(trigger, conversation, subject)
    ensures Split(BuildDeduplicationKey(kind, trigger, conversation), COLON)
         == ["background", JobKindName(kind), TriggerKindName(trigger.kind), NormalizeDedupComponent(subject)]
  {
    JobNameHasNoColon(kind);
    TriggerNameHasNoColon(trigger.kind);
    var component := NormalizeDedupComponent(subject);
    assert Discriminator(trigger, conversation) == subject;
    NormalizerYieldsComponents(subject);
    ComponentHasNoColon(component);
    SplitOfPiece(component, COLON);
    FieldsOfJoined("background", JobKindName(kind), TriggerKindName(trigger.kind), component);
  }

  lemma {:induction false} FieldsOfJoined(a: string, b: string, c: string, d: string)
    requires COLON !in a && COLON !in b && COLON !in c && COLON !in d
    ensures Split(a + [COLON] + (b + [COLON] + (c + [COLON] + d)), COLON) == [a, b, c, d]
  {
    SplitOfPiece(d, COLON);
    SplitAtSeparator(c, COLON, d);
    SplitAtSeparator(b, COLON, c + [COLON] + d);
    SplitAtSeparator(a, COLON, b + [COLON] + (c + [COLON] + d));
  }

  lemma {:induction false} JobNameHasNoColon(kind: JobKind)
    ensures COLON !in JobKindName(kind)
  {
    match kind
    case MemoryConsolidation =>
    case RetrievalMaintenance =>
    case ContradictionAndDriftScan =>
    case SelfModelReflection =>
  }

  lemma {:induction false} TriggerNameHasNoColon(kind: TriggerKind)
    ensures COLON !in TriggerKindName(kind)
  {
    match kind
    case TimeSchedule =>
    case VolumeThreshold =>
    case DriftOrAnomalySignal =>
    case ForegroundDelegation =>
    case ExternalPassiveEvent =>
    case MaintenanceTrigger =>
  }

  lemma {:induction false} TriggersHaveOneSubject(trigger: Trigger, conversation: Option<string>, subject: string, subject': string)
    requires IsSubject(trigger, conversation, subject) && IsSubject(trigger, conversation, subject')
    ensures subject == subject' == Discriminator(trigger, conversation)
  {
  }

  /** Two keys are equal exactly when the kinds of job and trigger are, and what the triggers are about normalises alike. */
  lemma {:induction false} KeysIdentifyTheirParts(
      kind: JobKind, trigger: Trigger, conversation: Option<string>, subject: string,
      kind': JobKind, trigger': Trigger, conversation': Option<string>, subject': string)
    requires IsSubject(trigger, conversation, subject) && IsSubject(trigger', conversation', subject')
    ensures BuildDeduplicationKey(kind, trigger, conversation) == BuildDeduplicationKey(kind', trigger', conversation') <==>
            && kind == kind' && trigger.kind == trigger'.kind
            && NormalizeDedupComponent(subject) == NormalizeDedupComponent(subject')
  {
    TriggersHaveOneSubject(trigger, conversation, subject, subject);
    TriggersHaveOneSubject(trigger', conversation', subject', subject');
    if BuildDeduplicationKey(kind, trigger, conversation) == BuildDeduplicationKey(kind', trigger', conversation') {
      KeyFields(kind, trigger, conversation, subject);
      KeyFields(kind', trigger', conversation', subject');
      var fields := Split(BuildDeduplicationKey(kind, trigger, conversation), COLON);
      assert fields[1] == JobKindName(kind) == JobKindName(kind');
      assert fields[2] == TriggerKindName(trigger.kind) == TriggerKindName(trigger'.kind);
      assert fields[3] == NormalizeDedupComponent(subject) == NormalizeDedupComponent(subject');
      NamesAreDistinct(kind, kind', trigger.kind, trigger'.kind);
    }
  }

  lemma {:induction false} NamesAreDistinct(kind: JobKind, kind': JobKind, trigger: TriggerKind, trigger': TriggerKind)
    ensures JobKindName(kind) == JobKindName(kind') ==> kind == kind'
    ensures TriggerKindName(trigger) == TriggerKindName(trigger') ==> trigger == trigger'
  {
    assert JobKindName(kind)[0] == JobKindName(kind')[0] || JobKindName(kind) != JobKindName(kind');
    assert TriggerKindName(trigger)[0] == TriggerKindName(trigger')[0] || TriggerKindName(trigger) != TriggerKindName(trigger');
  }
}
