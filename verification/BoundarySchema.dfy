/** The boundary's own wire types, as a schema of the codec: the closed unions of
    slots, tool arguments and commands, and the records that hold them. Fields
    are listed by name, as the canonical text sorts them. */
module BoundarySchema {
  import opened Options
  import opened Text
  import opened JsonText
  import opened WireCodec
  import opened WireRoundTrip

  // ----------------------------------------------------------------- types

  function Sent(name: string, t: Type): Field {
    Field(name, t, true)
  }

  function Unsent(name: string, t: Type): Field {
    Field(name, t, false)
  }

  function Optional(t: Type): Type {
    TUnion([t, TNone])
  }

  function Records(classes: seq<string>): seq<Type> {
    seq(|classes|, i requires 0 <= i < |classes| => TRecord(classes[i]))
  }

  const SLOT_CLASSES: seq<string> := [
    "StringSlot", "IntegerSlot", "DecimalSlot", "DateSlot", "DateTimeSlot", "BooleanSlot"]

  const SLOT_VALUE: Type := TUnion(Records(SLOT_CLASSES))

  const TOOL_CLASSES: seq<string> := [
    "FaqReadArguments", "LodgingReadArguments", "RoomDescriptionArguments", "ActivityReadArguments",
    "ActivityDescriptionArguments", "LodgingReservationArguments", "ActivityReservationArguments",
    "LodgingPaymentArguments", "ActivityPaymentArguments", "WiseVerificationArguments", "StripeLinkArguments",
    "StateCommitArguments"]

  const TOOL_ARGUMENTS: Type := TUnion(Records(TOOL_CLASSES))

  const BOUNDARY_COMMAND: Type := TUnion([
    TForeign("reservation_domain_command"), TForeign("phase6_payment_settlement_command")])

  const FACTS: Type := TTuple(TRecord("TypedFact"))
  const COMMANDS: Type := TTuple(BOUNDARY_COMMAND)
  const OUTBOX: Type := TTuple(TRecord("OutboxMessage"))
  const STATE: Type := TRecord("BoundaryState")
  const MESSAGE: Type := TRecord("NormalizedMessage")

  // --------------------------------------------------------------- records

  const SLOTS: set<string> := {"BooleanSlot", "DateSlot", "DateTimeSlot", "DecimalSlot", "IntegerSlot", "StringSlot"}

  const ARGUMENTS: set<string> := {"ActivityDescriptionArguments", "ActivityPaymentArguments",
    "ActivityReadArguments", "ActivityReservationArguments", "FaqReadArguments", "LodgingPaymentArguments",
    "LodgingReadArguments", "LodgingReservationArguments", "RoomDescriptionArguments", "StateCommitArguments",
    "StripeLinkArguments", "WiseVerificationArguments"}

  const PARTS: set<string> := {"NormalizedMessage", "OutboxMessage", "TypedFact"}

  const ENVELOPES: set<string> := {"BoundaryCommit", "BoundaryState", "ConversationIntent", "ImportResult",
    "IntentRequest", "KernelDecision", "LegacyLeadSnapshot", "ToolDispatchRequest", "TurnEnvelope", "TurnLease",
    "TurnPlan", "VersionedBoundaryState"}

  const PAYMENT: seq<Field> := [Sent("amount", TRecord("DecimalSlot")), Sent("anchor_id", TStr),
    Sent("currency", TStr), Sent("evidence_id", TStr), Sent("proof_status", TStr), Sent("receiver_profile_id", TStr)]

  const RESERVATION: seq<Field> := [Sent("confirmation_signature", TStr), Sent("offer_id", TStr),
    Sent("summary_version", TInt)]

  const ACTIVITY_READ: seq<Field> := [Sent("activity_date", TMoment(DateText)), Sent("activity_id", TStr),
    Sent("participants", TInt)]

  const FAQ_READ: seq<Field> := [Sent("locale", TStr), Sent("query", TStr)]

  const LODGING_READ: seq<Field> := [Sent("adults", TInt), Sent("check_in", TMoment(DateText)),
    Sent("check_out", TMoment(DateText)), Sent("children", TInt)]

  const STRIPE_LINK: seq<Field> := [Sent("amount", TRecord("DecimalSlot")), Sent("anchor_id", TStr),
    Sent("currency", TStr)]

  const WISE_VERIFICATION: seq<Field> := [Sent("anchor_id", TStr), Sent("evidence_id", TStr)]

  const NORMALIZED_MESSAGE: seq<Field> := [Sent("locale", TStr), Sent("text", TStr)]

  const OUTBOX_MESSAGE: seq<Field> := [Sent("canonical_payload", TStr), Sent("command_id", Optional(TStr)),
    Sent("created_at", TMoment(DateTimeText)), Sent("idempotency_key", TStr), Sent("kind", TEnum("OutboxKind")),
    Sent("message_id", TStr), Sent("payload_hash", TStr), Sent("template_id", TStr), Sent("workflow_id", TStr)]

  const TYPED_FACT: seq<Field> := [Unsent("frame_commitment_hash", Optional(TStr)), Sent("name", TStr),
    Sent("value", SLOT_VALUE)]

  const BOUNDARY_COMMIT: seq<Field> := [Sent("commands", COMMANDS), Sent("facts", FACTS), Sent("outbox", OUTBOX),
    Sent("state", STATE)]

  const BOUNDARY_STATE: seq<Field> := [Sent("handoff", Optional(TForeign("phase6_handoff_workflow"))),
    Sent("lead_key", TStr), Sent("payments", TTuple(TForeign("phase6_payment_workflow"))),
    Sent("processed_event_ids", TTuple(TStr)), Sent("schema_version", TInt), Sent("version", TInt),
    Sent("workflow", Optional(TForeign("reservation_domain_state")))]

  const CONVERSATION_INTENT: seq<Field> := [Sent("confirmed_summary_version", Optional(TInt)), Sent("facts", FACTS),
    Sent("kind", TEnum("ConversationIntentKind")), Sent("source_event_id", TStr),
    Sent("target_offer_id", Optional(TStr)), Sent("tool_name", Optional(TStr))]

  const IMPORT_RESULT: seq<Field> := [Sent("disposition", TEnum("ImportDisposition")),
    Sent("reason", TEnum("ImportReason")), Sent("state", Optional(STATE))]

  const INTENT_REQUEST: seq<Field> := [Sent("deadline", TMoment(DateTimeText)), Sent("message", MESSAGE),
    Sent("source_event_id", TStr), Sent("state", STATE)]

  const KERNEL_DECISION: seq<Field> := [Sent("commands", COMMANDS), Sent("facts", FACTS), Sent("outbox", OUTBOX),
    Sent("read_requests", TTuple(TRecord("ToolDispatchRequest"))), Sent("state", STATE)]

  const LEAD_SNAPSHOT: seq<Field> := [Sent("canonical_json", TStr), Sent("raw_fields", TMapping(TObject)),
    Sent("schema_version", TInt), Sent("snapshot_hash", TStr), Sent("source", TStr)]

  const DISPATCH_REQUEST: seq<Field> := [Sent("alias_depth", TInt), Sent("arguments", TOOL_ARGUMENTS),
    Sent("deadline", TMoment(DateTimeText)), Sent("event_id", TStr), Sent("lead_key", TStr), Sent("tool_name", TStr)]

  const TURN_ENVELOPE: seq<Field> := [Sent("deadline", TMoment(DateTimeText)), Sent("event_id", TStr),
    Sent("lead_key", TStr), Sent("message", MESSAGE), Sent("received_at", TMoment(DateTimeText))]

  const TURN_LEASE: seq<Field> := [Sent("expires_at", TMoment(DateTimeText)), Sent("lead_key", TStr),
    Sent("token", TInt)]

  const TURN_PLAN: seq<Field> := [Sent("commands", COMMANDS), Sent("deduplicated", TBool), Sent("outbox", OUTBOX),
    Sent("public_messages", TTuple(MESSAGE)), Sent("reason", TEnum("TurnPlanReason")), Sent("state", STATE)]

  const VERSIONED_STATE: seq<Field> := [Sent("semantic_hash", TStr), Sent("state", STATE), Sent("version", TInt)]

  function SlotFields(cls: string): seq<Field>
    requires cls in SLOTS
  {
    if cls == "BooleanSlot" then [Sent("value", TBool)]
    else if cls == "DateSlot" then [Sent("value", TMoment(DateText))]
    else if cls == "DateTimeSlot" then [Sent("value", TMoment(DateTimeText))]
    else if cls == "DecimalSlot" then [Sent("value", TStr)]
    else if cls == "IntegerSlot" then [Sent("value", TInt)]
    else [Sent("value", TStr)]
  }

  function ArgumentFields(cls: string): seq<Field>
    requires cls in ARGUMENTS
  {
    if cls == "ActivityDescriptionArguments" then [Sent("activity_id", TStr)]
    else if cls == "ActivityPaymentArguments" then PAYMENT
    else if cls == "ActivityReadArguments" then ACTIVITY_READ
    else if cls == "ActivityReservationArguments" then RESERVATION
    else if cls == "FaqReadArguments" then FAQ_READ
    else if cls == "LodgingPaymentArguments" then PAYMENT
    else if cls == "LodgingReadArguments" then LODGING_READ
    else if cls == "LodgingReservationArguments" then RESERVATION
    else if cls == "RoomDescriptionArguments" then [Sent("room_offer_id", TStr)]
    else if cls == "StateCommitArguments" then [Sent("facts", FACTS)]
    else if cls == "StripeLinkArguments" then STRIPE_LINK
    else WISE_VERIFICATION
  }

  function PartFields(cls: string): seq<Field>
    requires cls in PARTS
  {
    if cls == "NormalizedMessage" then NORMALIZED_MESSAGE
    else if cls == "OutboxMessage" then OUTBOX_MESSAGE
    else TYPED_FACT
  }

  function EnvelopeFields(cls: string): seq<Field>
    requires cls in ENVELOPES
  {
    if cls == "BoundaryCommit" then BOUNDARY_COMMIT
    else if cls == "BoundaryState" then BOUNDARY_STATE
    else if cls == "ConversationIntent" then CONVERSATION_INTENT
    else if cls == "ImportResult" then IMPORT_RESULT
    else if cls == "IntentRequest" then INTENT_REQUEST
    else if cls == "KernelDecision" then KERNEL_DECISION
    else if cls == "LegacyLeadSnapshot" then LEAD_SNAPSHOT
    else if cls == "ToolDispatchRequest" then DISPATCH_REQUEST
    else if cls == "TurnEnvelope" then TURN_ENVELOPE
    else if cls == "TurnLease" then TURN_LEASE
    else if cls == "TurnPlan" then TURN_PLAN
    else VERSIONED_STATE
  }

  const CLASSES: set<string> := SLOTS + ARGUMENTS + PARTS + ENVELOPES

  function FieldsOf(cls: string): seq<Field>
    requires cls in CLASSES
  {
    if cls in SLOTS then SlotFields(cls)
    else if cls in ARGUMENTS then ArgumentFields(cls)
    else if cls in PARTS then PartFields(cls)
    else EnvelopeFields(cls)
  }

  /** A nested record is tagged with its class name; a message belongs to an older phase. */
  function TagOf(cls: string): string {
    if cls == "OutboxMessage" then "phase5_outbox_message" else cls
  }

  const ENUMS: map<string, set<string>> := map[
    "ConversationIntentKind" := {"inform", "select", "adjust", "confirm", "request_handoff", "tool_request"},
    "ImportDisposition" := {"migrated", "manual_review", "rejected"},
    "ImportReason" := {
      "none", "malformed", "missing_identity", "ambiguous_identity", "conflicting_identity", "missing_provenance",
      "unsupported_stage", "inconsistent_selection", "inconsistent_confirmation", "unverified_payment",
      "unknown_historical_outcome", "unsupported_schema"},
    "OutboxKind" := {
      "summary_presented", "execution_succeeded", "execution_failed_no_effect", "execution_not_called",
      "execution_manual_review"},
    "TurnPlanReason" := {"completed", "duplicate", "deadline_exceeded", "manual_review"}]

  /** The schema, given what the field validators and the older phases' wires accept. */
  function Boundary(valid: (string, seq<Value>) -> bool, foreign: (string, string) -> Option<string>,
                    momentText: (Moment, string) -> bool, floats: FloatTexts): Schema
  {
    Schema(map cls | cls in CLASSES :: Record(TagOf(cls), FieldsOf(cls)), ENUMS, valid, foreign, momentText, floats)
  }

  const PUBLIC: Public := map[
    "BoundaryCommit" := "boundary_commit",
    "BoundaryState" := "boundary_state",
    "ConversationIntent" := "conversation_intent",
    "ImportResult" := "import_result",
    "IntentRequest" := "intent_request",
    "KernelDecision" := "kernel_decision",
    "LegacyLeadSnapshot" := "legacy_lead_snapshot",
    "ToolDispatchRequest" := "tool_dispatch_request",
    "TurnEnvelope" := "turn_envelope",
    "TurnLease" := "turn_lease",
    "TurnPlan" := "turn_plan",
    "VersionedBoundaryState" := "versioned_boundary_state"]

  ghost predicate IsBoundary(s: Schema) {
    s == Boundary(s.valid, s.foreign, s.momentText, s.floats)
  }

  // --------------------------------------------------------- closed unions

  /** A record of the schema looks like its tag. */
  lemma RecordHead(s: Schema, cls: string)
    requires IsBoundary(s) && cls in CLASSES
    ensures Closed(s, TRecord(cls)) && HeadOf(s, TRecord(cls)) == HTag(TagOf(cls))
  {
  }

  lemma OptionalClosed(s: Schema, t: Type)
    requires Closed(s, t) && !HeadOf(s, t).HOther?
    ensures Closed(s, Optional(t))
  {
  }

  predicate DistinctClasses(classes: seq<string>) {
    && (forall i :: 0 <= i < |classes| ==> classes[i] in CLASSES && classes[i] != "OutboxMessage")
    && (forall i, k :: 0 <= i < k < |classes| ==> classes[i] != classes[k])
  }

  /** Different classes have different tags, so they form a closed union. */
  lemma RecordUnionClosed(s: Schema, classes: seq<string>)
    requires IsBoundary(s) && DistinctClasses(classes)
    ensures Closed(s, TUnion(Records(classes)))
  {
    var options := Records(classes);
    forall i | 0 <= i < |options| ensures Closed(s, options[i]) && HeadOf(s, options[i]) == HTag(classes[i]) {
      RecordHead(s, classes[i]);
    }
  }

  lemma SlotClassesDistinct()
    ensures DistinctClasses(SLOT_CLASSES)
  {
    assert "IntegerSlot"[0] == 'I' && "DecimalSlot"[0] == 'D' && "BooleanSlot"[0] == 'B';
  }

  lemma ToolClassesKnown()
    ensures forall i :: 0 <= i < |TOOL_CLASSES| ==> TOOL_CLASSES[i] in ARGUMENTS && TOOL_CLASSES[i] != "OutboxMessage"
  {
  }

  /** The length and the ninth letter of each name tell the names apart. */
  const TOOL_KEYS: seq<(int, char)> := [
    (16, 'r'), (20, 'e'), (24, 'r'), (21, 'R'), (28, 'D'), (27, 'e'), (28, 'R'), (23, 'a'), (24, 'P'), (25, 'f'), (19, 'n'),
    (20, 'm')]

  lemma ToolKey(i: nat)
    requires i < |TOOL_CLASSES|
    ensures |TOOL_CLASSES[i]| > 8 && (|TOOL_CLASSES[i]|, TOOL_CLASSES[i][8]) == TOOL_KEYS[i]
  {
  }

  lemma ToolClassesDistinct()
    ensures DistinctClasses(TOOL_CLASSES)
  {
    ToolClassesKnown();
    forall i: nat, k: nat | i < k < |TOOL_CLASSES| ensures TOOL_CLASSES[i] != TOOL_CLASSES[k] {
      ToolKey(i);
      ToolKey(k);
      assert TOOL_KEYS[i] != TOOL_KEYS[k];
    }
  }

  lemma CommandClosed(s: Schema)
    ensures Closed(s, BOUNDARY_COMMAND)
  {
    var a, b := "reservation_domain_command", "phase6_payment_settlement_command";
    assert a[0] != b[0];
    assert BOUNDARY_COMMAND == TUnion([TForeign(a), TForeign(b)]);
    ForeignPairClosed(s, a, b);
  }

  lemma ForeignPairClosed(s: Schema, a: string, b: string)
    requires a != b
    ensures Closed(s, TUnion([TForeign(a), TForeign(b)]))
  {
    TaggedUnionIsClosed(s, [TForeign(a), TForeign(b)]);
  }

  // ---------------------------------------------------------------- records

  ghost predicate FieldsOk(s: Schema, fields: seq<Field>) {
    && SortedNames(OnWire(fields))
    && forall i :: 0 <= i < |OnWire(fields)| ==> Closed(s, OnWire(fields)[i].annotation)
  }

  lemma UnionsClosed(s: Schema)
    requires IsBoundary(s)
    ensures Closed(s, SLOT_VALUE) && Closed(s, TOOL_ARGUMENTS)
  {
    SlotClassesDistinct();
    RecordUnionClosed(s, SLOT_CLASSES);
    ToolClassesDistinct();
    RecordUnionClosed(s, TOOL_CLASSES);
  }

  /** The annotations of the records' fields: the simple ones, and those that hold records. */
  predicate Simple(t: Type) {
    || t.TStr? || t.TInt? || t.TBool? || t.TMoment? || t.TEnum? || t.TRecord?
    || t in {Optional(TStr), Optional(TInt), TTuple(TStr), TMapping(TObject)}
    || t in {Optional(TForeign("phase6_handoff_workflow")), Optional(TForeign("reservation_domain_state")),
             TTuple(TForeign("phase6_payment_workflow"))}
  }

  predicate Nested(t: Type) {
    t in {FACTS, OUTBOX, Optional(STATE), TTuple(MESSAGE), TTuple(TRecord("ToolDispatchRequest"))}
  }

  predicate Known(t: Type) {
    Simple(t) || Nested(t) || t in {SLOT_VALUE, TOOL_ARGUMENTS, COMMANDS}
  }

  lemma SimpleClosed(s: Schema, t: Type)
    requires Simple(t)
    ensures Closed(s, t)
  {
    if t.TUnion? {
      assert t == Optional(t.options[0]);
      OptionalClosed(s, t.options[0]);
    }
  }

  lemma NestedClosed(s: Schema, t: Type)
    requires IsBoundary(s) && Nested(t)
    ensures Closed(s, t)
  {
    if t == Optional(STATE) {
      RecordHead(s, "BoundaryState");
      OptionalClosed(s, STATE);
    } else {
      assert t.TTuple? && t.item.TRecord?;
    }
  }

  lemma KnownClosed(s: Schema, t: Type)
    requires IsBoundary(s) && Known(t)
    ensures Closed(s, t)
  {
    if Simple(t) {
      SimpleClosed(s, t);
    } else if Nested(t) {
      NestedClosed(s, t);
    } else if t == COMMANDS {
      CommandClosed(s);
    } else {
      UnionsClosed(s);
    }
  }

  lemma {:induction false} AllOnWire(fields: seq<Field>)
    requires forall i :: 0 <= i < |fields| ==> fields[i].onWire
    ensures OnWire(fields) == fields
  {
    if fields != [] {
      AllOnWire(fields[1..]);
      assert fields == [fields[0]] + fields[1..];
    }
  }

  /** Fields that are all sent, by name, of known types. */
  predicate ListOk(fields: seq<Field>) {
    SortedNames(fields) && forall i :: 0 <= i < |fields| ==> fields[i].onWire && Known(fields[i].annotation)
  }

  lemma ListIsFieldsOk(s: Schema, fields: seq<Field>)
    requires IsBoundary(s) && ListOk(fields)
    ensures FieldsOk(s, fields)
  {
    AllOnWire(fields);
    forall i | 0 <= i < |fields| ensures Closed(s, fields[i].annotation) { KnownClosed(s, fields[i].annotation); }
  }

  /** Two names compare at the first letter that differs. */
  lemma Before(a: string, b: string, k: nat)
    requires k < |a| && k < |b| && a[..k] == b[..k] && a[k] < b[k]
    ensures Less(a, b)
  {
    assert a == a[..k] + a[k..] && b == b[..k] + b[k..];
    LessAfterPrefix(a[..k], a[k..], b[k..]);
  }

  lemma PaymentOk()
    ensures ListOk(PAYMENT)
  {
    Before("amount", "anchor_id", 1);
  }

  lemma DateBeforeId()
    ensures Less("activity_date", "activity_id")
  {
    var p, a, b := "activity_", "date", "id";
    LessAfterPrefix(p, a, b);
    assert p + a == "activity_date";
    assert p + b == "activity_id";
  }

  lemma ThreeSorted(a: Field, b: Field, c: Field)
    requires Less(a.name, b.name) && Less(b.name, c.name)
    ensures SortedNames([a, b, c])
  {
  }

  lemma ActivityReadSorted()
    ensures SortedNames(ACTIVITY_READ)
  {
    DateBeforeId();
    ThreeSorted(ACTIVITY_READ[0], ACTIVITY_READ[1], ACTIVITY_READ[2]);
    assert ACTIVITY_READ == [ACTIVITY_READ[0], ACTIVITY_READ[1], ACTIVITY_READ[2]];
  }

  lemma ActivityReadOk()
    ensures ListOk(ACTIVITY_READ)
  {
    ActivityReadSorted();
  }

  lemma LodgingReadOk()
    ensures ListOk(LODGING_READ)
  {
    Before("check_in", "check_out", 6);
    Before("check_out", "children", 2);
  }

  lemma StripeLinkOk()
    ensures ListOk(STRIPE_LINK)
  {
    Before("amount", "anchor_id", 1);
  }

  lemma OutboxMessageOk()
    ensures ListOk(OUTBOX_MESSAGE)
  {
    Before("canonical_payload", "command_id", 1);
    Before("command_id", "created_at", 1);
  }

  lemma BoundaryStateOk()
    ensures ListOk(BOUNDARY_STATE)
  {
    Before("payments", "processed_event_ids", 1);
  }

  lemma ConversationIntentOk()
    ensures ListOk(CONVERSATION_INTENT)
  {
    Before("target_offer_id", "tool_name", 1);
  }

  lemma IntentRequestOk()
    ensures ListOk(INTENT_REQUEST)
  {
    Before("source_event_id", "state", 1);
  }

  lemma LeadSnapshotOk()
    ensures ListOk(LEAD_SNAPSHOT)
  {
    Before("schema_version", "snapshot_hash", 1);
    Before("snapshot_hash", "source", 1);
  }

  lemma DispatchRequestOk()
    ensures ListOk(DISPATCH_REQUEST)
  {
    Before("alias_depth", "arguments", 1);
  }

  lemma VersionedStateOk()
    ensures ListOk(VERSIONED_STATE)
  {
    Before("semantic_hash", "state", 1);
  }

  lemma TypedFactOk(s: Schema)
    requires IsBoundary(s)
    ensures FieldsOk(s, TYPED_FACT)
  {
    var sent := [Sent("name", TStr), Sent("value", SLOT_VALUE)];
    ListIsFieldsOk(s, sent);
    assert TYPED_FACT == [TYPED_FACT[0]] + sent;
    AllOnWire(sent);
    assert OnWire(TYPED_FACT) == sent;
  }

  lemma SlotFieldsOk(s: Schema, cls: string)
    requires IsBoundary(s) && cls in SLOTS
    ensures FieldsOk(s, SlotFields(cls))
  {
    ListIsFieldsOk(s, SlotFields(cls));
  }

  lemma ArgumentListOk(cls: string)
    requires cls in ARGUMENTS
    ensures ListOk(ArgumentFields(cls))
  {
    PaymentOk();
    ActivityReadOk();
    assert ListOk(RESERVATION);
    assert ListOk(FAQ_READ);
    LodgingReadOk();
    StripeLinkOk();
    assert ListOk(WISE_VERIFICATION);
  }

  lemma ArgumentFieldsOk(s: Schema, cls: string)
    requires IsBoundary(s) && cls in ARGUMENTS
    ensures FieldsOk(s, ArgumentFields(cls))
  {
    ArgumentListOk(cls);
    ListIsFieldsOk(s, ArgumentFields(cls));
  }

  lemma PartFieldsOk(s: Schema, cls: string)
    requires IsBoundary(s) && cls in PARTS
    ensures FieldsOk(s, PartFields(cls))
  {
    assert ListOk(NORMALIZED_MESSAGE);
    OutboxMessageOk();
    if cls == "TypedFact" { TypedFactOk(s); } else { ListIsFieldsOk(s, PartFields(cls)); }
  }

  lemma DecisionListsOk()
    ensures ListOk(BOUNDARY_COMMIT) && ListOk(IMPORT_RESULT) && ListOk(KERNEL_DECISION)
  {
  }

  lemma TurnListsOk()
    ensures ListOk(TURN_ENVELOPE) && ListOk(TURN_LEASE) && ListOk(TURN_PLAN)
  {
  }

  lemma EnvelopeListOk(cls: string)
    requires cls in ENVELOPES
    ensures ListOk(EnvelopeFields(cls))
  {
    DecisionListsOk();
    TurnListsOk();
    BoundaryStateOk();
    ConversationIntentOk();
    IntentRequestOk();
    LeadSnapshotOk();
    DispatchRequestOk();
    VersionedStateOk();
  }

  lemma EnvelopeFieldsOk(s: Schema, cls: string)
    requires IsBoundary(s) && cls in ENVELOPES
    ensures FieldsOk(s, EnvelopeFields(cls))
  {
    EnvelopeListOk(cls);
    ListIsFieldsOk(s, EnvelopeFields(cls));
  }

  // --------------------------------------------------------------- theorems

  /** The repository's own types form a schema of closed unions with sorted fields. */
  lemma BoundarySchemaOk(s: Schema)
    requires IsBoundary(s) && FloatsOk(s.floats)
    ensures SchemaOk(s)
  {
    forall cls | cls in s.records
      ensures FieldsOk(s, s.records[cls].fields)
    {
      if cls in SLOTS {
        SlotFieldsOk(s, cls);
      } else if cls in ARGUMENTS {
        ArgumentFieldsOk(s, cls);
      } else if cls in PARTS {
        PartFieldsOk(s, cls);
      } else {
        EnvelopeFieldsOk(s, cls);
      }
    }
  }

  /** So every well-typed value of the twelve public envelopes has a wire text,
      and reading that text gives the value back. */
  lemma PublicRoundTrip(s: Schema, cls: string, values: seq<Value>)
    requires IsBoundary(s) && FloatsOk(s.floats) && cls in PUBLIC
    ensures ToWire(s, PUBLIC, VRecord(cls, values)).Some? <==> RecordTyped(s, cls, values)
    ensures RecordTyped(s, cls, values) ==>
              FromWire(s, PUBLIC, cls, ToWire(s, PUBLIC, VRecord(cls, values)).value) == Some(VRecord(cls, values))
  {
    BoundarySchemaOk(s);
    EnvelopesAreTyped(s, PUBLIC, cls, values);
    if RecordTyped(s, cls, values) { EnvelopeRoundTrip(s, PUBLIC, cls, values); }
  }
}
