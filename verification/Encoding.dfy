/** Writing an event as a record and reading it back. */
module Encoding {
  import opened Base
  import opened Schemas
  import opened Rules
  import opened Events

  /** A record of the event: its declared fields in order, under any type name and with a
      timestamp text; numbers may be written either way. */
  ghost predicate IsRecordOf(env: Env, fields: Fields, e: Event) {
    var p := Payload(e);
    && |fields| == |p| + 2
    && fields[0].0 == p[0].0 && SameValue(fields[0].1, p[0].1)
    && fields[1].0 == "event_type" && fields[1].1.JStr?
    && fields[2].0 == "timestamp" && TimeGiven(env, fields, e.ts)
    && (forall i :: 3 <= i < |fields| ==> fields[i].0 == p[i - 2].0 && SameValue(fields[i].1, p[i - 2].1))
    && e.source == JObject(fields)
  }

  /** The fields stand in the order of the schema, each name once. */
  lemma RecordNames(env: Env, fields: Fields, e: Event)
    requires IsRecordOf(env, fields, e)
    ensures var s := EventFields(TypeOf(e.body));
      && |fields| == |s| && (forall i :: 0 <= i < |s| ==> fields[i].0 == s[i].0)
      && (forall i, j :: 0 <= i < j < |s| ==> s[i].0 != s[j].0)
  {
    hide Payload, EventFields, TimeGiven;
    PayloadNames(e);
    SchemaStart(TypeOf(e.body));
    SchemaNamesDiffer(TypeOf(e.body));
  }

  lemma SchemaStart(t: EventType)
    ensures var s := EventFields(t);
      |s| > 4 && s[0].0 == "event_id" && s[1].0 == "event_type" && s[2].0 == "timestamp" && s[3].0 == "schema_version"
  {
  }

  lemma SchemaNamesDiffer(t: EventType)
    ensures forall i, j :: 0 <= i < j < |EventFields(t)| ==> EventFields(t)[i].0 != EventFields(t)[j].0
  {
    hide EventFields;
    forall i, j | 0 <= i < j < |EventFields(t)| ensures EventFields(t)[i].0 != EventFields(t)[j].0 {
      LaterFieldDiffers(t, i, j);
    }
  }

  lemma LaterFieldDiffers(t: EventType, i: nat, j: nat)
    requires i < j < |EventFields(t)|
    ensures EventFields(t)[i].0 != EventFields(t)[j].0
  {
    var a, b := EventFields(t)[i].0, EventFields(t)[j].0;
    assert |a| != |b| || FirstChar(a) != FirstChar(b);
  }

  /** Every value of an event has the declared type, exactly. */
  predicate ExactType(j: Json, expected: FieldType) {
    match expected
    case StrField => j.JStr?
    case IntField => j.JInt?
    case FloatField => j.JFloat?
    case BoolField => j.JBool?
  }

  lemma PayloadTypes(e: Event)
    ensures var p, s := Payload(e), EventFields(TypeOf(e.body));
      && |p| == |s| - 2 && ExactType(p[0].1, s[0].1) && ExactType(p[1].1, s[3].1)
      && s[1].1 == StrField && s[2].1 == StrField
      && forall i :: 4 <= i < |s| ==> ExactType(p[i - 2].1, s[i].1)
  {
  }

  lemma WrittenType(j: Json, value: Json, expected: FieldType)
    requires SameValue(j, value) && ExactType(value, expected)
    ensures HasType(j, expected)
  {
  }

  /** Two values of one type that are written alike are the same. */
  lemma WrittenOnce(j: Json, a: Json, b: Json, expected: FieldType)
    requires SameValue(j, a) && SameValue(j, b) && ExactType(a, expected) && ExactType(b, expected)
    ensures a == b
  {
  }

  lemma {:induction false} FieldRead(fields: Fields, i: nat)
    requires i < |fields| && forall j, k :: 0 <= j < k < |fields| ==> fields[j].0 != fields[k].0
    ensures Get(fields, fields[i].0) == Some(fields[i].1)
  {
    GetAt(fields, i);
  }

  /** A record of an event conforms to the schema of its type, whether its whole amounts
      are written as integers or not. */
  lemma RecordConforms(env: Env, fields: Fields, e: Event)
    requires IsRecordOf(env, fields, e)
    ensures Conforms(EventFields(TypeOf(e.body)), JObject(fields)) && TimeAt(env, fields) == Some(e.ts)
  {
    hide Payload, EventFields, Get;
    var s := EventFields(TypeOf(e.body));
    RecordNames(env, fields, e);
    PayloadTypes(e);
    SchemaStart(TypeOf(e.body));
    forall i | 0 <= i < |s|
      ensures Get(fields, s[i].0).Some? && HasType(Get(fields, s[i].0).value, s[i].1)
    {
      FieldRead(fields, i);
      if i == 0 {
        WrittenType(fields[0].1, Payload(e)[0].1, s[0].1);
      } else if i > 2 {
        WrittenType(fields[i].1, Payload(e)[i - 2].1, s[i].1);
      }
    }
  }

  /** An event is determined by its payload, its time and its record. */
  lemma PayloadDetermines(a: Event, b: Event)
    requires Payload(a) == Payload(b) && TypeOf(a.body) == TypeOf(b.body) && a.ts == b.ts && a.source == b.source
    ensures a == b
  {
    var p, q := Payload(a), Payload(b);
    assert p[0] == q[0] && p[1] == q[1] && p[2] == q[2] && p[3] == q[3] && p[4] == q[4];
    assert |p| > 5 ==> p[5] == q[5];
    assert |p| > 6 ==> p[6] == q[6];
  }

  lemma SameField(env: Env, fields: Fields, e: Event, d: Event, i: nat)
    requires IsRecordOf(env, fields, e) && Conveys(env, TypeOf(e.body), fields, d) && i < |Payload(e)|
    ensures |Payload(d)| == |Payload(e)| && Payload(d)[i] == Payload(e)[i]
  {
    hide Payload, EventFields, Get, TimeGiven, FieldConveyed;
    var k := if i == 0 then 0 else i + 2;
    RecordNames(env, fields, e);
    PayloadNames(e);
    PayloadNames(d);
    PayloadTypes(e);
    PayloadTypes(d);
    FieldRead(fields, k);
    ConveyedAt(env, TypeOf(e.body), fields, d, i, Payload(d)[i].0, Payload(d)[i].1);
    WrittenOnce(fields[k].1, Payload(d)[i].1, Payload(e)[i].1, EventFields(TypeOf(e.body))[k].1);
  }

  lemma DecodedParts(env: Env, t: EventType, fields: Fields)
    requires SinkFields(t, fields) && TimeAt(env, fields).Some?
    ensures var d := Decode(env, t, fields);
      d.ts == TimeAt(env, fields).value && d.source == JObject(fields) && TypeOf(d.body) == t
  {
    hide SinkFields, TimeAt;
  }

  /** Round trip: decoding a record of an event gives back the event. */
  lemma DecodedIsWritten(env: Env, fields: Fields, e: Event)
    requires IsRecordOf(env, fields, e)
    ensures SinkFields(TypeOf(e.body), fields) && TimeAt(env, fields).Some?
    ensures Decode(env, TypeOf(e.body), fields) == e
  {
    hide Payload, EventFields, Get, SinkFields, Decode, Conforms, Conveys, TimeAt;
    var t := TypeOf(e.body);
    RecordConforms(env, fields, e);
    FieldsDeclared(t, fields);
    var d := Decode(env, t, fields);
    DecodeConveys(env, t, fields);
    DecodedParts(env, t, fields);
    forall i | 0 <= i < |Payload(e)| ensures |Payload(d)| == |Payload(e)| && Payload(d)[i] == Payload(e)[i] {
      SameField(env, fields, e, d, i);
    }
    PayloadNames(e);
    PayloadNames(d);
    assert Payload(d) == Payload(e);
    PayloadDetermines(d, e);
  }
}
