/** Field schemas per event type and the structural check of a decoded event. */
module Schemas {
  import opened Base

  datatype EventType =
    | SubscriberCreated
    | AirtimePurchase
    | BundlePurchase
    | VoiceCall
    | Sms
    | DataUsage
    | TowerStatus

  /** Topics in the order the batch processor visits them: subscribers first. */
  const TOPIC_ORDER: seq<EventType> :=
    [SubscriberCreated, AirtimePurchase, BundlePurchase, VoiceCall, Sms, DataUsage, TowerStatus]

  function TopicName(t: EventType): string {
    match t
    case SubscriberCreated => "subscriber-created"
    case AirtimePurchase => "airtime-purchases"
    case BundlePurchase => "bundle-purchases"
    case VoiceCall => "voice-calls"
    case Sms => "sms"
    case DataUsage => "data-usage"
    case TowerStatus => "tower-events"
  }

  datatype FieldType = StrField | IntField | FloatField | BoolField

  type Schema = seq<(string, FieldType)>

  const ENVELOPE: Schema :=
    [("event_id", StrField), ("event_type", StrField), ("timestamp", StrField), ("schema_version", IntField)]

  function EventFields(t: EventType): Schema {
    ENVELOPE + match t
    case SubscriberCreated =>
      [("subscriber_id", IntField), ("msisdn", StrField), ("plan", StrField), ("province", StrField)]
    case AirtimePurchase =>
      [("subscriber_id", IntField), ("amount", FloatField), ("payment_method", StrField)]
    case BundlePurchase =>
      [("subscriber_id", IntField), ("bundle_code", StrField), ("price", FloatField)]
    case VoiceCall =>
      [("caller_id", IntField), ("receiver_msisdn", StrField), ("duration_seconds", IntField),
       ("tower_id", StrField), ("dropped", BoolField)]
    case Sms =>
      [("sender_id", IntField), ("receiver_msisdn", StrField), ("length", IntField)]
    case DataUsage =>
      [("subscriber_id", IntField), ("mb_used", FloatField), ("session_seconds", IntField),
       ("tower_id", StrField), ("technology", StrField)]
    case TowerStatus =>
      [("tower_id", StrField), ("technology", StrField), ("signal_strength", IntField),
       ("connected_devices", IntField), ("status", StrField)]
  }

  const DLQ_FIELDS: Schema :=
    ENVELOPE + [("source_topic", StrField), ("rejection_reason", StrField), ("original_payload", StrField)]

  /** An integer is accepted where a float is expected; a boolean never is a number. */
  predicate HasType(j: Json, expected: FieldType) {
    match expected
    case StrField => j.JStr?
    case IntField => j.JInt?
    case FloatField => j.JInt? || j.JFloat?
    case BoolField => j.JBool?
  }

  function FieldTags(field: (string, FieldType), event: Fields): seq<string> {
    match Get(event, field.0)
    case None => ["missing:" + field.0]
    case Some(j) => if HasType(j, field.1) then [] else ["type:" + field.0]
  }

  function SchemaTags(schema: Schema, event: Fields): seq<string> {
    if schema == [] then [] else FieldTags(schema[0], event) + SchemaTags(schema[1..], event)
  }

  predicate Declares(schema: Schema, name: string) {
    exists i | 0 <= i < |schema| :: schema[i].0 == name
  }

  function UnexpectedTags(schema: Schema, event: Fields): seq<string> {
    if event == [] then []
    else
      (if Declares(schema, event[0].0) then [] else ["unexpected:" + event[0].0])
      + UnexpectedTags(schema, event[1..])
  }

  function Violations(schema: Schema, event: Json): seq<string> {
    match event
    case JObject(fields) => SchemaTags(schema, fields) + UnexpectedTags(schema, fields)
    case _ => ["not_an_object"]
  }

  method SchemaViolations(schema: Schema, event: Json) returns (violations: seq<string>)
    ensures violations == Violations(schema, event)
    ensures violations == [] <==> Conforms(schema, event)
  {
    ViolationsEmptyIffConforms(schema, event);
    if !event.JObject? {
      return ["not_an_object"];
    }
    violations := [];
    for i := 0 to |schema|
      invariant violations + SchemaTags(schema[i..], event.fields) == SchemaTags(schema, event.fields)
    {
      SplitSchema(schema, i, event.fields, violations);
      var (name, expected) := schema[i];
      var found := Get(event.fields, name);
      if found.None? {
        violations := violations + ["missing:" + name];
        continue;
      }
      if !HasType(found.value, expected) {
        violations := violations + ["type:" + name];
      }
    }
    assert violations == SchemaTags(schema, event.fields);
    for i := 0 to |event.fields|
      invariant violations + UnexpectedTags(schema, event.fields[i..]) == Violations(schema, event)
    {
      SplitEvent(schema, event.fields, i, violations);
      if !Declares(schema, event.fields[i].0) {
        violations := violations + ["unexpected:" + event.fields[i].0];
      }
    }
  }

  lemma SplitSchema(schema: Schema, i: nat, event: Fields, done: seq<string>)
    requires i < |schema|
    ensures done + SchemaTags(schema[i..], event)
         == done + FieldTags(schema[i], event) + SchemaTags(schema[i + 1..], event)
    ensures done + [] == done
  {
    assert schema[i..][1..] == schema[i + 1..];
  }

  lemma SplitEvent(schema: Schema, event: Fields, i: nat, done: seq<string>)
    requires i < |event|
    ensures done + UnexpectedTags(schema, event[i..])
         == done + (if Declares(schema, event[i].0) then [] else ["unexpected:" + event[i].0])
            + UnexpectedTags(schema, event[i + 1..])
    ensures done + [] == done
  {
    assert event[i..][1..] == event[i + 1..];
  }

  /** What the check is for: exactly the declared keys, each with its declared type. */
  ghost predicate Conforms(schema: Schema, event: Json) {
    && event.JObject?
    && (forall i :: 0 <= i < |schema| ==>
          && Get(event.fields, schema[i].0).Some?
          && HasType(Get(event.fields, schema[i].0).value, schema[i].1))
    && (forall i :: 0 <= i < |event.fields| ==> Declares(schema, event.fields[i].0))
  }

  lemma {:induction false} SchemaTagsEmpty(schema: Schema, event: Fields)
    ensures SchemaTags(schema, event) == [] <==>
            forall i :: 0 <= i < |schema| ==> FieldTags(schema[i], event) == []
  {
    if schema != [] {
      SchemaTagsEmpty(schema[1..], event);
      assert forall i :: 1 <= i < |schema| ==> schema[i] == schema[1..][i - 1];
    }
  }

  lemma {:induction false} UnexpectedTagsEmpty(schema: Schema, event: Fields)
    ensures UnexpectedTags(schema, event) == [] <==>
            forall i :: 0 <= i < |event| ==> Declares(schema, event[i].0)
  {
    if event != [] {
      UnexpectedTagsEmpty(schema, event[1..]);
      assert forall i :: 1 <= i < |event| ==> event[i] == event[1..][i - 1];
    }
  }

  /** No violation is reported exactly when the event has the schema's keys and types. */
  lemma ViolationsEmptyIffConforms(schema: Schema, event: Json)
    ensures Violations(schema, event) == [] <==> Conforms(schema, event)
  {
    if event.JObject? {
      SchemaTagsEmpty(schema, event.fields);
      UnexpectedTagsEmpty(schema, event.fields);
      assert forall i :: 0 <= i < |schema| ==>
        (FieldTags(schema[i], event.fields) == [] <==>
         Get(event.fields, schema[i].0).Some? && HasType(Get(event.fields, schema[i].0).value, schema[i].1));
    }
  }
}
