/** From raw records to typed events: the verdict on one record, the validation
    loop of a topic, de-duplication within a batch, and dead-letter records. */
module Events {
  import opened Base
  import opened Schemas
  import opened Rules

  /** The payload of an accepted event. The subscriber a fact refers to is
      `subscriberId`, whatever the event calls it (caller, sender). */
  datatype Body =
    | SubscriberBody(subscriberId: int, msisdn: string, plan: string, province: string)
    | AirtimeBody(subscriberId: int, amount: real, paymentMethod: string)
    | BundleBody(subscriberId: int, bundleCode: string, price: real)
    | CallBody(subscriberId: int, receiver: string, duration: int, towerId: string, dropped: bool)
    | SmsBody(subscriberId: int, receiver: string, length: int)
    | UsageBody(subscriberId: int, mb: real, seconds: int, towerId: string, technology: string)
    | TowerBody(towerId: string, technology: string, signal: int, devices: int, status: string)

  datatype Event = Event(id: string, version: int, ts: Stamp, body: Body, source: Json)

  function TypeOf(body: Body): EventType {
    match body
    case SubscriberBody(_, _, _, _) => SubscriberCreated
    case AirtimeBody(_, _, _) => AirtimePurchase
    case BundleBody(_, _, _) => BundlePurchase
    case CallBody(_, _, _, _, _) => VoiceCall
    case SmsBody(_, _, _) => Sms
    case UsageBody(_, _, _, _, _) => DataUsage
    case TowerBody(_, _, _, _, _) => TowerStatus
  }

  function TextOf(e: Fields, name: string): string
    requires Get(e, name).Some? && Get(e, name).value.JStr?
  {
    Get(e, name).value.s
  }

  function IntOf(e: Fields, name: string): int
    requires Get(e, name).Some? && Get(e, name).value.JInt?
  {
    Get(e, name).value.i
  }

  function FloatOf(e: Fields, name: string): real
    requires Get(e, name).Some? && HasType(Get(e, name).value, FloatField)
  {
    var j := Get(e, name).value;
    if j.JInt? then j.i as real else j.r
  }

  function BoolOf(e: Fields, name: string): bool
    requires Get(e, name).Some? && Get(e, name).value.JBool?
  {
    Get(e, name).value.b
  }

  ghost predicate Typed(e: Fields, name: string, expected: FieldType) {
    Get(e, name).Some? && HasType(Get(e, name).value, expected)
  }

  /** The fields each event type's sinks read, with their declared types. */
  ghost predicate SinkFields(t: EventType, e: Fields) {
    && Typed(e, "event_id", StrField) && Typed(e, "timestamp", StrField) && Typed(e, "schema_version", IntField)
    && match t
       case SubscriberCreated =>
         && Typed(e, "subscriber_id", IntField) && Typed(e, "msisdn", StrField)
         && Typed(e, "plan", StrField) && Typed(e, "province", StrField)
       case AirtimePurchase =>
         && Typed(e, "subscriber_id", IntField) && Typed(e, "amount", FloatField)
         && Typed(e, "payment_method", StrField)
       case BundlePurchase =>
         && Typed(e, "subscriber_id", IntField) && Typed(e, "bundle_code", StrField)
         && Typed(e, "price", FloatField)
       case VoiceCall =>
         && Typed(e, "caller_id", IntField) && Typed(e, "receiver_msisdn", StrField)
         && Typed(e, "duration_seconds", IntField) && Typed(e, "tower_id", StrField)
         && Typed(e, "dropped", BoolField)
       case Sms =>
         && Typed(e, "sender_id", IntField) && Typed(e, "receiver_msisdn", StrField)
         && Typed(e, "length", IntField)
       case DataUsage =>
         && Typed(e, "subscriber_id", IntField) && Typed(e, "mb_used", FloatField)
         && Typed(e, "session_seconds", IntField) && Typed(e, "tower_id", StrField)
         && Typed(e, "technology", StrField)
       case TowerStatus =>
         && Typed(e, "tower_id", StrField) && Typed(e, "technology", StrField)
         && Typed(e, "signal_strength", IntField) && Typed(e, "connected_devices", IntField)
         && Typed(e, "status", StrField)
  }

  lemma FieldsDeclared(t: EventType, e: Fields)
    requires Conforms(EventFields(t), JObject(e))
    ensures SinkFields(t, e)
  {
    var s := EventFields(t);
    assert forall i :: 0 <= i < |s| ==> Typed(e, s[i].0, s[i].1);
    assert s[0] == ("event_id", StrField) && s[2] == ("timestamp", StrField) && s[3] == ("schema_version", IntField);
    assert Typed(e, s[4].0, s[4].1) && Typed(e, s[5].0, s[5].1) && Typed(e, s[6].0, s[6].1);
    assert |s| > 7 ==> Typed(e, s[7].0, s[7].1);
    assert |s| > 8 ==> Typed(e, s[8].0, s[8].1);
  }

  function DecodeBody(t: EventType, e: Fields): (body: Body)
    requires SinkFields(t, e)
    ensures TypeOf(body) == t
  {
    match t
    case SubscriberCreated =>
      SubscriberBody(IntOf(e, "subscriber_id"), TextOf(e, "msisdn"), TextOf(e, "plan"), TextOf(e, "province"))
    case AirtimePurchase =>
      AirtimeBody(IntOf(e, "subscriber_id"), FloatOf(e, "amount"), TextOf(e, "payment_method"))
    case BundlePurchase =>
      BundleBody(IntOf(e, "subscriber_id"), TextOf(e, "bundle_code"), FloatOf(e, "price"))
    case VoiceCall =>
      CallBody(IntOf(e, "caller_id"), TextOf(e, "receiver_msisdn"), IntOf(e, "duration_seconds"),
               TextOf(e, "tower_id"), BoolOf(e, "dropped"))
    case Sms =>
      SmsBody(IntOf(e, "sender_id"), TextOf(e, "receiver_msisdn"), IntOf(e, "length"))
    case DataUsage =>
      UsageBody(IntOf(e, "subscriber_id"), FloatOf(e, "mb_used"), IntOf(e, "session_seconds"),
                TextOf(e, "tower_id"), TextOf(e, "technology"))
    case TowerStatus =>
      TowerBody(TextOf(e, "tower_id"), TextOf(e, "technology"), IntOf(e, "signal_strength"),
                IntOf(e, "connected_devices"), TextOf(e, "status"))
  }

  function Decode(env: Env, t: EventType, e: Fields): (event: Event)
    requires SinkFields(t, e) && TimeAt(env, e).Some?
    ensures TypeOf(event.body) == t
  {
    Event(TextOf(e, "event_id"), IntOf(e, "schema_version"), TimeAt(env, e).value, DecodeBody(t, e), JObject(e))
  }

  // ----- what an event says of its record -----

  /** The fields of an event other than its type and time, as its schema declares them. */
  function Payload(e: Event): Fields {
    [("event_id", JStr(e.id)), ("schema_version", JInt(e.version))]
    + match e.body
      case SubscriberBody(subscriber, msisdn, plan, province) =>
        [("subscriber_id", JInt(subscriber)), ("msisdn", JStr(msisdn)), ("plan", JStr(plan)),
         ("province", JStr(province))]
      case AirtimeBody(subscriber, amount, payment) =>
        [("subscriber_id", JInt(subscriber)), ("amount", JFloat(amount)), ("payment_method", JStr(payment))]
      case BundleBody(subscriber, code, price) =>
        [("subscriber_id", JInt(subscriber)), ("bundle_code", JStr(code)), ("price", JFloat(price))]
      case CallBody(caller, receiver, duration, tower, dropped) =>
        [("caller_id", JInt(caller)), ("receiver_msisdn", JStr(receiver)), ("duration_seconds", JInt(duration)),
         ("tower_id", JStr(tower)), ("dropped", JBool(dropped))]
      case SmsBody(sender, receiver, length) =>
        [("sender_id", JInt(sender)), ("receiver_msisdn", JStr(receiver)), ("length", JInt(length))]
      case UsageBody(subscriber, mb, seconds, tower, technology) =>
        [("subscriber_id", JInt(subscriber)), ("mb_used", JFloat(mb)), ("session_seconds", JInt(seconds)),
         ("tower_id", JStr(tower)), ("technology", JStr(technology))]
      case TowerBody(tower, technology, signal, devices, status) =>
        [("tower_id", JStr(tower)), ("technology", JStr(technology)), ("signal_strength", JInt(signal)),
         ("connected_devices", JInt(devices)), ("status", JStr(status))]
  }

  /** Equal values; an integer equals the float of its size. */
  predicate SameValue(a: Json, b: Json) {
    a == b || (a.JInt? && b.JFloat? && a.i as real == b.r)
  }

  /** The name under which a fact's record gives its subscriber. */
  function SubscriberField(t: EventType): string {
    match t
    case VoiceCall => "caller_id"
    case Sms => "sender_id"
    case _ => "subscriber_id"
  }

  function SubscriberOf(e: Event): int {
    if e.body.TowerBody? then 0 else e.body.subscriberId
  }

  /** The record's time, in UTC, and the offset it was written with; zero if none was. */
  ghost predicate TimeGiven(env: Env, fields: Fields, ts: Stamp) {
    exists s :: Get(fields, "timestamp") == Some(JStr(s)) && env.iso(s).Some? &&
      var t := env.iso(s).value;
      && ts.utc + ts.offset == t.local
      && ts.offset == match t.offset case Some(o) => o case None => 0
  }

  /** The event says what the record says: every declared field but the type has the
      record's value under the record's name, and nothing else is in it. */
  ghost predicate Conveys(env: Env, t: EventType, fields: Fields, e: Event) {
    && TypeOf(e.body) == t && e.source == JObject(fields) && TimeGiven(env, fields, e.ts)
    && |Payload(e)| == |EventFields(t)| - 2
    && (forall i :: 0 <= i < |EventFields(t)| ==>
          FieldConveyed(fields, Payload(e), EventFields(t)[i].0))
    && (t != TowerStatus ==> Get(fields, SubscriberField(t)) == Some(JInt(SubscriberOf(e))))
  }

  predicate FieldConveyed(fields: Fields, payload: Fields, name: string) {
    name == "event_type" || name == "timestamp"
    || (Get(fields, name).Some? && Get(payload, name).Some?
        && SameValue(Get(fields, name).value, Get(payload, name).value))
  }

  /** Decoding keeps every field, for all seven types. */
  lemma DecodeConveys(env: Env, t: EventType, fields: Fields)
    requires SinkFields(t, fields) && TimeAt(env, fields).Some?
    ensures Conveys(env, t, fields, Decode(env, t, fields))
  {
    var e := Decode(env, t, fields);
    var s := Get(fields, "timestamp").value.s;
    assert Get(fields, "timestamp") == Some(JStr(s)) && env.iso(s).Some?;
    forall i | 0 <= i < |EventFields(t)| ensures FieldConveyed(fields, Payload(e), EventFields(t)[i].0) {
      EnvelopeConveyed(env, t, fields);
      if i >= 4 {
        BodyConveyed(env, t, fields, i);
      }
    }
  }

  lemma EnvelopeConveyed(env: Env, t: EventType, fields: Fields)
    requires SinkFields(t, fields) && TimeAt(env, fields).Some?
    ensures forall i :: 0 <= i < 4 ==> FieldConveyed(fields, Payload(Decode(env, t, fields)), EventFields(t)[i].0)
  {
    hide Get;
    var p := Payload(Decode(env, t, fields));
    PayloadNames(Decode(env, t, fields));
    GetAt(p, 0);
    GetAt(p, 1);
  }

  lemma BodyConveyed(env: Env, t: EventType, fields: Fields, i: nat)
    requires SinkFields(t, fields) && TimeAt(env, fields).Some? && 4 <= i < |EventFields(t)|
    ensures FieldConveyed(fields, Payload(Decode(env, t, fields)), EventFields(t)[i].0)
  {
    hide Get;
    var p := Payload(Decode(env, t, fields));
    PayloadNames(Decode(env, t, fields));
    GetAt(p, i - 2);
    assert Get(fields, p[i - 2].0).Some? && SameValue(Get(fields, p[i - 2].0).value, p[i - 2].1);
  }

  /** An event lists its fields under the declared names, in their order, each once. */
  lemma PayloadNames(e: Event)
    ensures var p, s := Payload(e), EventFields(TypeOf(e.body));
      && |p| == |s| - 2 && p[0].0 == s[0].0 && p[1].0 == s[3].0
      && (forall i :: 4 <= i < |s| ==> p[i - 2].0 == s[i].0)
      && (forall i, j :: 0 <= i < j < |p| ==> p[i].0 != p[j].0)
  {
    hide Payload, EventFields;
    NamesDiffer(e);
    NamesAgree(e);
  }

  lemma NamesAgree(e: Event)
    ensures var p, s := Payload(e), EventFields(TypeOf(e.body));
      |p| == |s| - 2 && p[0].0 == s[0].0 && p[1].0 == s[3].0 && forall i :: 4 <= i < |s| ==> p[i - 2].0 == s[i].0
  {
  }

  lemma NamesDiffer(e: Event)
    ensures var p := Payload(e);
      forall i, j :: 0 <= i < j < |p| ==> p[i].0 != p[j].0
  {
    hide Payload;
    forall i, j | 0 <= i < j < |Payload(e)| ensures Payload(e)[i].0 != Payload(e)[j].0 {
      LaterNameDiffers(e, i, j);
    }
  }

  lemma LaterNameDiffers(e: Event, i: nat, j: nat)
    requires i < j < |Payload(e)|
    ensures Payload(e)[i].0 != Payload(e)[j].0
  {
    var a, b := Payload(e)[i].0, Payload(e)[j].0;
    assert |a| != |b| || FirstChar(a) != FirstChar(b);
  }

  /** A field of an event, at its place in the list, has the record's value. */
  lemma ConveyedAt(env: Env, t: EventType, fields: Fields, e: Event, i: nat, name: string, value: Json)
    requires Conveys(env, t, fields, e) && i < |Payload(e)| && Payload(e)[i] == (name, value)
    ensures Get(fields, name).Some? && SameValue(Get(fields, name).value, value)
  {
    hide EventFields, Payload, TimeGiven;
    PayloadNames(e);
    GetAt(Payload(e), i);
    assert FieldConveyed(fields, Payload(e), EventFields(t)[if i == 0 then 0 else i + 2].0);
    SchemaNames(t);
  }

  lemma SchemaNames(t: EventType)
    ensures forall i :: 0 <= i < |EventFields(t)| && i != 1 && i != 2 ==>
      EventFields(t)[i].0 != "event_type" && EventFields(t)[i].0 != "timestamp"
  {
  }

  /** The raw text is a record whose content the event carries. */
  ghost predicate SaidBy(env: Env, t: EventType, raw: string, e: Event) {
    env.parse(raw).Some? && env.parse(raw).value.JObject? && Conveys(env, t, env.parse(raw).value.fields, e)
  }

  datatype Verdict = Accept(event: Event) | Reject(reason: string)

  /** An event with no structural and no rule violation can be decoded: every field
      the sinks read exists with its declared type and the timestamp parses. */
  lemma AcceptedIsSafeToSink(env: Env, t: EventType, event: Json, now: int)
    requires Violations(EventFields(t), event) == []
    requires Hits(env, RulesOf(t), event.fields, now) == []
    ensures Conforms(EventFields(t), event)
    ensures SinkFields(t, event.fields)
    ensures TimeAt(env, event.fields).Some?
    ensures forall i :: 0 <= i < |event.fields| ==> Declares(EventFields(t), event.fields[i].0)
  {
    ViolationsEmptyIffConforms(EventFields(t), event);
    FieldsDeclared(t, event.fields);
    HitsEmptyIffAllPass(env, RulesOf(t), event.fields, now);
    assert TimestampNotInFuture in RulesOf(t);
  }

  /** The verdict on one raw record of a topic at a clock reading. */
  function Judge(env: Env, t: EventType, raw: string, now: int): (v: Verdict)
    ensures v.Accept? ==> TypeOf(v.event.body) == t
  {
    match env.parse(raw)
    case None => Reject("PARSE_ERROR")
    case Some(event) =>
      var structural := Violations(EventFields(t), event);
      if structural != [] then Reject("SCHEMA_VIOLATION:" + structural[0])
      else
        ViolationsEmptyIffConforms(EventFields(t), event);
        var hits := Hits(env, RulesOf(t), event.fields, now);
        if hits != [] then Reject("RULE_VIOLATION:" + hits[0])
        else
          AcceptedIsSafeToSink(env, t, event, now);
          Accept(Decode(env, t, event.fields))
  }

  /** What is accepted carries its record's content. */
  lemma AcceptedSays(env: Env, t: EventType, raw: string, now: int)
    requires Judge(env, t, raw, now).Accept?
    ensures SaidBy(env, t, raw, Judge(env, t, raw, now).event)
  {
    hide Conveys, Decode, SinkFields;
    var event := env.parse(raw).value;
    ViolationsEmptyIffConforms(EventFields(t), event);
    AcceptedIsSafeToSink(env, t, event, now);
    DecodeConveys(env, t, event.fields);
  }

  datatype DlqRecord = DlqRecord(id: string, topic: string, reason: string, payload: string, ts: Stamp)

  function DlqId(env: Env, topic: string, reason: string, raw: string): string {
    env.uuid5(topic + "|" + reason + "|" + raw)
  }

  /** The identifier depends on topic, reason and payload only; the time is written
      with millisecond precision. */
  function MakeDlq(env: Env, topic: string, reason: string, raw: string, now: int): DlqRecord {
    DlqRecord(DlqId(env, topic, reason, raw), topic, reason, raw, Stamp(now - now % 1000, 0))
  }

  /** One record of a micro-batch, and the batch itself in collection order. */
  datatype Row = Row(topic: EventType, raw: string)
  type Batch = seq<Row>

  /** A clock reading, by topic and by position of the record within the topic. */
  type Clock = (EventType, nat) -> int

  function Raws(batch: Batch, t: EventType): seq<string> {
    if batch == [] then []
    else
      var last := batch[|batch| - 1];
      Raws(batch[..|batch| - 1], t) + if last.topic == t then [last.raw] else []
  }

  method GroupByTopic(batch: Batch) returns (byTopic: map<EventType, seq<string>>)
    ensures forall t :: if t in byTopic then byTopic[t] == Raws(batch, t) else Raws(batch, t) == []
  {
    byTopic := map[];
    for i := 0 to |batch|
      invariant forall t :: if t in byTopic then byTopic[t] == Raws(batch[..i], t) else Raws(batch[..i], t) == []
    {
      var row := batch[i];
      assert batch[..i + 1][..i] == batch[..i];
      if row.topic !in byTopic {
        byTopic := byTopic[row.topic := []];
      }
      byTopic := byTopic[row.topic := byTopic[row.topic] + [row.raw]];
    }
    assert batch[..|batch|] == batch;
  }

  type Judging = (EventType, string, int) -> Verdict

  /** `judge` gives the pipeline's verdict on every record at every clock reading. */
  ghost predicate Genuine(env: Env, judge: Judging) {
    forall t, raw, now {:trigger judge(t, raw, now), env.parse(raw)} ::
      judge(t, raw, now) == Judge(env, t, raw, now)
  }

  function Verdicts(judge: Judging, t: EventType, raws: seq<string>, clock: Clock): (vs: seq<Verdict>)
    ensures |vs| == |raws|
    ensures forall j :: 0 <= j < |raws| ==> vs[j] == judge(t, raws[j], clock(t, j))
  {
    seq(|raws|, j requires 0 <= j < |raws| => judge(t, raws[j], clock(t, j)))
  }

  function Goods(vs: seq<Verdict>): (good: seq<Event>)
    ensures |good| <= |vs|
  {
    if vs == [] then []
    else
      var n := |vs| - 1;
      Goods(vs[..n]) + if vs[n].Accept? then [vs[n].event] else []
  }

  function Bads(env: Env, t: EventType, raws: seq<string>, vs: seq<Verdict>, clock: Clock): seq<DlqRecord>
    requires |vs| == |raws|
  {
    if vs == [] then []
    else
      var n := |vs| - 1;
      Bads(env, t, raws[..n], vs[..n], clock)
      + if vs[n].Reject? then [MakeDlq(env, TopicName(t), vs[n].reason, raws[n], clock(t, n))] else []
  }

  /** What validation keeps of a topic's records, and what it sends to the dead-letter topic. */
  function Accepted(judge: Judging, t: EventType, raws: seq<string>, clock: Clock): seq<Event> {
    Goods(Verdicts(judge, t, raws, clock))
  }

  function Rejected(env: Env, judge: Judging, t: EventType, raws: seq<string>, clock: Clock): seq<DlqRecord> {
    Bads(env, t, raws, Verdicts(judge, t, raws, clock), clock)
  }

  method JudgeRecord(env: Env, ghost judge: Judging, t: EventType, raw: string, now: int) returns (v: Verdict)
    requires Genuine(env, judge)
    ensures v == judge(t, raw, now)
    ensures v.Accept? ==> SaidBy(env, t, raw, v.event)
  {
    hide Conveys, Decode, SinkFields;
    var event := env.parse(raw);
    if event.None? {
      return Reject("PARSE_ERROR");
    }
    var structural := SchemaViolations(EventFields(t), event.value);
    if structural != [] {
      return Reject("SCHEMA_VIOLATION:" + structural[0]);
    }
    var hits := ApplyRules(env, t, event.value.fields, now);
    if hits != [] {
      return Reject("RULE_VIOLATION:" + hits[0]);
    }
    AcceptedIsSafeToSink(env, t, event.value, now);
    DecodeConveys(env, t, event.value.fields);
    return Accept(Decode(env, t, event.value.fields));
  }

  method Validate(env: Env, ghost judge: Judging, t: EventType, raws: seq<string>, clock: Clock, dlq: seq<DlqRecord>)
    returns (valid: seq<Event>, dlqOut: seq<DlqRecord>)
    requires Genuine(env, judge)
    ensures valid == Accepted(judge, t, raws, clock)
    ensures dlqOut == dlq + Rejected(env, judge, t, raws, clock)
    ensures forall e :: e in valid ==> exists raw :: raw in raws && SaidBy(env, t, raw, e)
  {
    hide SaidBy;
    valid, dlqOut := [], dlq;
    ghost var vs := Verdicts(judge, t, raws, clock);
    for i := 0 to |raws|
      invariant ValidSoFar(env, t, raws, vs, clock, dlq, i, valid, dlqOut)
      invariant forall e :: e in valid ==> exists raw :: raw in raws && SaidBy(env, t, raw, e)
    {
      var v := JudgeRecord(env, judge, t, raws[i], clock(t, i));
      VerdictStep(env, t, raws, vs, clock, dlq, i, valid, dlqOut);
      match v {
        case Reject(reason) => dlqOut := dlqOut + [MakeDlq(env, TopicName(t), reason, raws[i], clock(t, i))];
        case Accept(event) => valid := valid + [event];
      }
    }
    assert raws[..|raws|] == raws && vs[..|raws|] == vs;
  }

  /** The state of the validation loop before record i. */
  ghost predicate ValidSoFar(env: Env, t: EventType, raws: seq<string>, vs: seq<Verdict>, clock: Clock,
                             dlq: seq<DlqRecord>, i: nat, valid: seq<Event>, dlqOut: seq<DlqRecord>)
    requires i <= |vs| == |raws|
  {
    valid == Goods(vs[..i]) && dlqOut == dlq + Bads(env, t, raws[..i], vs[..i], clock)
  }

  lemma VerdictStep(env: Env, t: EventType, raws: seq<string>, vs: seq<Verdict>, clock: Clock,
                    dlq: seq<DlqRecord>, i: nat, valid: seq<Event>, dlqOut: seq<DlqRecord>)
    requires i < |vs| == |raws|
    requires ValidSoFar(env, t, raws, vs, clock, dlq, i, valid, dlqOut)
    ensures vs[i].Accept? ==> ValidSoFar(env, t, raws, vs, clock, dlq, i + 1, valid + [vs[i].event], dlqOut)
    ensures vs[i].Reject? ==>
      ValidSoFar(env, t, raws, vs, clock, dlq, i + 1, valid,
                 dlqOut + [MakeDlq(env, TopicName(t), vs[i].reason, raws[i], clock(t, i))])
  {
    assert raws[..i + 1][..i] == raws[..i] && vs[..i + 1][..i] == vs[..i];
  }

  /** Where the result of verdict j is found: right after the results of the records
      before it, in the accepted or in the rejected list. */
  ghost predicate Accounted(env: Env, t: EventType, raws: seq<string>, vs: seq<Verdict>, clock: Clock, j: nat)
    requires j < |vs| == |raws|
  {
    var good, bad, before := Goods(vs), Bads(env, t, raws, vs, clock), |Goods(vs[..j])|;
    if vs[j].Accept? then before < |good| && good[before] == vs[j].event
    else 0 <= j - before < |bad| && bad[j - before] == MakeDlq(env, TopicName(t), vs[j].reason, raws[j], clock(t, j))
  }

  lemma {:induction false} ResultsCount(env: Env, t: EventType, raws: seq<string>, vs: seq<Verdict>, clock: Clock)
    requires |vs| == |raws|
    ensures |Goods(vs)| + |Bads(env, t, raws, vs, clock)| == |raws|
  {
    if raws != [] {
      ResultsCount(env, t, raws[..|raws| - 1], vs[..|raws| - 1], clock);
    }
  }

  lemma ResultsStep(env: Env, t: EventType, raws: seq<string>, vs: seq<Verdict>, clock: Clock)
    requires |vs| == |raws| > 0
    ensures Goods(vs[..|vs| - 1]) <= Goods(vs)
    ensures Bads(env, t, raws[..|vs| - 1], vs[..|vs| - 1], clock) <= Bads(env, t, raws, vs, clock)
  {
    hide MakeDlq;
  }

  lemma {:induction false} ResultsGrow(
    env: Env, t: EventType, raws: seq<string>, vs: seq<Verdict>, clock: Clock, j: nat)
    requires j <= |vs| == |raws|
    ensures Goods(vs[..j]) <= Goods(vs)
    ensures Bads(env, t, raws[..j], vs[..j], clock) <= Bads(env, t, raws, vs, clock)
  {
    hide Goods, Bads;
    if j == |vs| {
      assert vs[..j] == vs && raws[..j] == raws;
    } else {
      var n := |vs| - 1;
      ResultsStep(env, t, raws, vs, clock);
      ResultsGrow(env, t, raws[..n], vs[..n], clock, j);
      assert vs[..n][..j] == vs[..j] && raws[..n][..j] == raws[..j];
    }
  }

  /** Every raw record is either accepted or rejected, once, and both lists keep the order of arrival. */
  lemma ValidationAccountsForAll(
    env: Env, t: EventType, raws: seq<string>, vs: seq<Verdict>, clock: Clock, j: nat)
    requires j < |vs| == |raws|
    ensures |Goods(vs)| + |Bads(env, t, raws, vs, clock)| == |raws|
    ensures Accounted(env, t, raws, vs, clock, j)
  {
    hide Goods, Bads, MakeDlq;
    ResultsCount(env, t, raws, vs, clock);
    ResultsCount(env, t, raws[..j], vs[..j], clock);
    ResultsGrow(env, t, raws, vs, clock, j + 1);
    VerdictStep(env, t, raws, vs, clock, [], j, Goods(vs[..j]), [] + Bads(env, t, raws[..j], vs[..j], clock));
    assert forall s: seq<DlqRecord> :: [] + s == s;
  }

  /** Keep the first element of each identifier. */
  function Dedupe<T>(xs: seq<T>, id: T -> string): (kept: seq<T>)
    ensures |kept| <= |xs|
    ensures forall x :: x in kept ==> x in xs
  {
    if xs == [] then []
    else
      var kept := Dedupe(xs[..|xs| - 1], id);
      var x := xs[|xs| - 1];
      if id(x) in Ids(kept, id) then kept else kept + [x]
  }

  function Ids<T>(xs: seq<T>, id: T -> string): set<string> {
    set i | 0 <= i < |xs| :: id(xs[i])
  }

  method DedupeLoop<T>(xs: seq<T>, id: T -> string) returns (unique: seq<T>)
    ensures unique == Dedupe(xs, id)
  {
    var seen: set<string> := {};
    unique := [];
    for i := 0 to |xs|
      invariant unique == Dedupe(xs[..i], id)
      invariant seen == Ids(unique, id)
    {
      assert xs[..i + 1][..i] == xs[..i];
      if id(xs[i]) !in seen {
        IdsSnoc(unique, xs[i], id);
        seen := seen + {id(xs[i])};
        unique := unique + [xs[i]];
      }
    }
    assert xs[..|xs|] == xs;
  }

  lemma IdsSnoc<T>(xs: seq<T>, x: T, id: T -> string)
    ensures Ids(xs + [x], id) == Ids(xs, id) + {id(x)}
  {
    var ys := xs + [x];
    assert forall i :: 0 <= i < |xs| ==> ys[i] == xs[i];
    assert ys[|xs|] == x;
    forall s | s in Ids(xs, id) + {id(x)} ensures s in Ids(ys, id) {
      if s in Ids(xs, id) {
        var i :| 0 <= i < |xs| && id(xs[i]) == s;
        assert id(ys[i]) == s;
      }
    }
  }

  lemma {:induction false} DedupeIds<T>(xs: seq<T>, id: T -> string)
    ensures Ids(Dedupe(xs, id), id) == Ids(xs, id)
  {
    if xs != [] {
      var n := |xs| - 1;
      DedupeIds(xs[..n], id);
      assert xs == xs[..n] + [xs[n]];
      IdsSnoc(xs[..n], xs[n], id);
      IdsSnoc(Dedupe(xs[..n], id), xs[n], id);
    }
  }

  lemma {:induction false} DedupeDistinct<T>(xs: seq<T>, id: T -> string)
    ensures forall i, j :: 0 <= i < j < |Dedupe(xs, id)| ==> id(Dedupe(xs, id)[i]) != id(Dedupe(xs, id)[j])
  {
    if xs != [] {
      var kept := Dedupe(xs[..|xs| - 1], id);
      DedupeDistinct(xs[..|xs| - 1], id);
      assert forall i :: 0 <= i < |kept| ==> id(kept[i]) in Ids(kept, id);
    }
  }

  /** Record j is kept, right after those kept before it, exactly when its identifier is new. */
  ghost predicate KeptIfNew<T>(xs: seq<T>, id: T -> string, j: nat)
    requires j < |xs|
  {
    var before, kept := |Dedupe(xs[..j], id)|, Dedupe(xs, id);
    if id(xs[j]) in Ids(xs[..j], id) then |Dedupe(xs[..j + 1], id)| == before
    else before < |kept| && kept[before] == xs[j]
  }

  /** De-duplication keeps every identifier once, in order of arrival, and drops
      exactly the records whose identifier came before. */
  lemma {:induction false} DedupeKeepsFirsts<T>(xs: seq<T>, id: T -> string)
    ensures forall j :: 0 <= j < |xs| ==> KeptIfNew(xs, id, j)
  {
    if xs != [] {
      var n := |xs| - 1;
      DedupeKeepsFirsts(xs[..n], id);
      DedupeIds(xs[..n], id);
      forall j | 0 <= j < |xs| ensures KeptIfNew(xs, id, j) {
        assert xs[..n + 1] == xs;
        if j < n {
          assert KeptIfNew(xs[..n], id, j);
          assert xs[..n][..j] == xs[..j] && xs[..n][..j + 1] == xs[..j + 1];
        }
      }
    }
  }

  function EventId(): Event -> string {
    (e: Event) => e.id
  }

  function DlqRecordId(): DlqRecord -> string {
    (r: DlqRecord) => r.id
  }

  const REFERENTIAL := "REFERENTIAL:subscriber_unknown"

  /** The clock readings of a topic after the first `seen` ones. */
  function LateAfter(clock: Clock, t: EventType, seen: nat): nat -> int {
    (n: nat) => clock(t, seen + n)
  }

  /** Dead-letter records for events whose subscriber is not in the dimension. */
  function Referential(env: Env, t: EventType, unknown: seq<Event>, late: nat -> int): seq<DlqRecord> {
    if unknown == [] then []
    else
      var n := |unknown| - 1;
      Referential(env, t, unknown[..n], late)
      + [MakeDlq(env, TopicName(t), REFERENTIAL, env.dumps(unknown[n].source), late(n))]
  }

  const INT64: int := 0x8000_0000_0000_0000

  predicate Fits64(i: int) { -INT64 <= i < INT64 }

  /** The lake stores integers as 64-bit columns; a wider one makes the write fail. */
  predicate LakeFits(e: Event) {
    Fits64(e.version) && match e.body
    case SubscriberBody(s, _, _, _) => Fits64(s)
    case AirtimeBody(s, _, _) => Fits64(s)
    case BundleBody(s, _, _) => Fits64(s)
    case CallBody(s, _, d, _, _) => Fits64(s) && Fits64(d)
    case SmsBody(s, _, n) => Fits64(s) && Fits64(n)
    case UsageBody(s, _, n, _, _) => Fits64(s) && Fits64(n)
    case TowerBody(_, _, n, d, _) => Fits64(n) && Fits64(d)
  }

  /** The lake takes an event exactly when every integer among its fields has 64 bits. */
  lemma LakeFitsIff(e: Event)
    ensures LakeFits(e) <==>
      forall i :: 0 <= i < |Payload(e)| && Payload(e)[i].1.JInt? ==>
        -9_223_372_036_854_775_808 <= Payload(e)[i].1.i <= 9_223_372_036_854_775_807
  {
    var p := Payload(e);
    assert p[1].1 == JInt(e.version);
    match e.body
    case SubscriberBody(s, _, _, _) => assert p[2].1 == JInt(s);
    case AirtimeBody(s, _, _) => assert p[2].1 == JInt(s);
    case BundleBody(s, _, _) => assert p[2].1 == JInt(s);
    case CallBody(s, _, d, _, _) => assert p[2].1 == JInt(s) && p[4].1 == JInt(d);
    case SmsBody(s, _, n) => assert p[2].1 == JInt(s) && p[4].1 == JInt(n);
    case UsageBody(s, _, n, _, _) => assert p[2].1 == JInt(s) && p[4].1 == JInt(n);
    case TowerBody(_, _, n, d, _) => assert p[4].1 == JInt(n) && p[5].1 == JInt(d);
  }
}
