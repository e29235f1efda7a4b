/** Which reason a rejected record is given, told of the typed event: the first rule of
    its type, in reporting order, that the event breaks. */
module Reasons {
  import opened Base
  import opened Schemas
  import opened Catalog
  import opened Rules
  import opened Events
  import opened Records

  /** float() takes the field: it is a float, or an integer within the doubles. */
  predicate Converts(e: Fields, name: string) {
    match Get(e, name)
    case Some(JInt(i)) => FitsDouble(i)
    case _ => true
  }

  /** 27 and nine more digits. */
  predicate IsNumber(env: Env, s: string) {
    "27" <= s && |s| == 2 + 9 && forall c | c in s :: env.isDigit(c)
  }

  lemma NumberIff(env: Env, s: string)
    ensures MsisdnValid(env, s) <==> IsNumber(env, s)
  {
    if MsisdnValid(env, s) {
      assert s[..2] == "27";
    }
    if IsNumber(env, s) {
      assert s[0] == "27"[0] && s[1] == "27"[1];
    }
  }

  /** The first rule, other than that about the time, that an event breaks. */
  function FirstBroken(env: Env, e: Fields, body: Body): Option<string> {
    match body
    case SubscriberBody(_, msisdn, plan, province) =>
      if !IsNumber(env, msisdn) then Some("msisdn_format")
      else if !OneOf(plan, PLANS) then Some("plan_known")
      else if !OneOf(province, PROVINCES) then Some("province_known")
      else None
    case AirtimeBody(_, amount, payment) =>
      if amount <= 0.0 || !Converts(e, "amount") then Some("amount_positive")
      else if amount > 1000.0 then Some("amount_within_limit")
      else if !OneOf(payment, PAYMENT_METHODS) then Some("payment_method_known")
      else None
    case BundleBody(_, code, price) =>
      if code !in BUNDLE_PRICES then Some("bundle_exists")
      else if price != BUNDLE_PRICES[code] then Some("price_matches_catalog")
      else None
    case CallBody(_, receiver, duration, tower, _) =>
      if duration < 0 then Some("duration_not_negative")
      else if duration > 21_600 then Some("duration_within_limit")
      else if !OneOf(tower, TOWER_IDS) then Some("tower_exists")
      else if !IsNumber(env, receiver) then Some("receiver_msisdn_format")
      else None
    case SmsBody(_, receiver, length) =>
      if length < 1 then Some("length_positive")
      else if length > 1600 then Some("length_within_limit")
      else if !IsNumber(env, receiver) then Some("receiver_msisdn_format")
      else None
    case UsageBody(_, mb, seconds, tower, technology) =>
      if mb <= 0.0 || !Converts(e, "mb_used") then Some("volume_positive")
      else if mb > 10240.0 then Some("volume_within_limit")
      else if seconds <= 0 then Some("session_positive")
      else if !OneOf(tower, TOWER_IDS) then Some("tower_exists")
      else if !OneOf(technology, TECHNOLOGIES) then Some("technology_known")
      else None
    case TowerBody(tower, _, signal, devices, status) =>
      if signal < 0 || signal > 100 then Some("signal_in_range")
      else if devices < 0 then Some("devices_not_negative")
      else if !OneOf(tower, TOWER_IDS) then Some("tower_exists")
      else if !OneOf(status, TOWER_STATUSES) then Some("status_known")
      else None
  }

  lemma HeadHit(env: Env, rules: seq<Rule>, i: nat, e: Fields, now: int)
    requires i < |rules| && TimestampNotInFuture !in rules
    ensures var hits := Hits(env, rules[i..], e, now);
      if Holds(env, rules[i], e) then hits == Hits(env, rules[i + 1..], e, now)
      else hits != [] && hits[0] == RuleName(rules[i])
    ensures i + 1 == |rules| ==> Hits(env, rules[i + 1..], e, now) == []
  {
    hide Holds, RuleName;
    assert rules[i] in rules && rules[i..][1..] == rules[i + 1..];
  }

  /** The names of the violated rules begin with that of the first rule that fails. */
  lemma FirstHit(env: Env, rules: seq<Rule>, e: Fields, now: int)
    requires 2 <= |rules| <= 5 && TimestampNotInFuture !in rules
    ensures var hits := Hits(env, rules, e, now);
      if !Holds(env, rules[0], e) then hits != [] && hits[0] == RuleName(rules[0])
      else if !Holds(env, rules[1], e) then hits != [] && hits[0] == RuleName(rules[1])
      else if |rules| > 2 && !Holds(env, rules[2], e) then hits != [] && hits[0] == RuleName(rules[2])
      else if |rules| > 3 && !Holds(env, rules[3], e) then hits != [] && hits[0] == RuleName(rules[3])
      else if |rules| > 4 && !Holds(env, rules[4], e) then hits != [] && hits[0] == RuleName(rules[4])
      else hits == []
  {
    hide Holds, RuleName, Hits;
    assert rules[0..] == rules;
    HeadHit(env, rules, 0, e, now);
    HeadHit(env, rules, 1, e, now);
    if |rules| > 2 {
      HeadHit(env, rules, 2, e, now);
    }
    if |rules| > 3 {
      HeadHit(env, rules, 3, e, now);
    }
    if |rules| > 4 {
      HeadHit(env, rules, 4, e, now);
    }
  }

  /** The hits say what the first broken rule says. */
  ghost predicate Told(hits: seq<string>, broken: Option<string>) {
    match broken
    case None => hits == []
    case Some(name) => hits != [] && hits[0] == name
  }

  // ----- rule by rule, on fields of the declared type -----

  lemma TowerHolds(env: Env, e: Fields)
    requires Typed(e, "tower_id", StrField)
    ensures Holds(env, TowerExists, e) <==> OneOf(TextOf(e, "tower_id"), TOWER_IDS)
  {
  }

  lemma ReceiverHolds(env: Env, e: Fields)
    requires Typed(e, "receiver_msisdn", StrField)
    ensures Holds(env, ReceiverMsisdnFormat, e) <==> IsNumber(env, TextOf(e, "receiver_msisdn"))
  {
    NumberIff(env, TextOf(e, "receiver_msisdn"));
  }

  lemma TechnologyHolds(env: Env, e: Fields)
    requires Typed(e, "technology", StrField)
    ensures Holds(env, TechnologyKnown, e) <==> OneOf(TextOf(e, "technology"), TECHNOLOGIES)
  {
  }

  lemma StatusHolds(env: Env, e: Fields)
    requires Typed(e, "status", StrField)
    ensures Holds(env, StatusKnown, e) <==> OneOf(TextOf(e, "status"), TOWER_STATUSES)
  {
  }

  lemma DurationHolds(env: Env, e: Fields)
    requires Typed(e, "duration_seconds", IntField)
    ensures Holds(env, DurationNotNegative, e) <==> IntOf(e, "duration_seconds") >= 0
    ensures Holds(env, DurationWithinLimit, e) <==> IntOf(e, "duration_seconds") <= 21_600
  {
  }

  lemma LengthHolds(env: Env, e: Fields)
    requires Typed(e, "length", IntField)
    ensures Holds(env, LengthPositive, e) <==> IntOf(e, "length") >= 1
    ensures Holds(env, LengthWithinLimit, e) <==> IntOf(e, "length") <= 1600
  {
  }

  lemma VolumeHolds(env: Env, e: Fields)
    requires Typed(e, "mb_used", FloatField)
    ensures Holds(env, VolumePositive, e) <==> FloatOf(e, "mb_used") > 0.0 && Converts(e, "mb_used")
    ensures Holds(env, VolumeWithinLimit, e) <==> FloatOf(e, "mb_used") <= 10240.0 && Converts(e, "mb_used")
  {
    hide FitsDouble;
  }

  lemma SessionHolds(env: Env, e: Fields)
    requires Typed(e, "session_seconds", IntField)
    ensures Holds(env, SessionPositive, e) <==> IntOf(e, "session_seconds") > 0
  {
  }

  lemma SignalHolds(env: Env, e: Fields)
    requires Typed(e, "signal_strength", IntField)
    ensures Holds(env, SignalInRange, e) <==> 0 <= IntOf(e, "signal_strength") <= 100
  {
  }

  lemma DevicesHold(env: Env, e: Fields)
    requires Typed(e, "connected_devices", IntField)
    ensures Holds(env, DevicesNotNegative, e) <==> IntOf(e, "connected_devices") >= 0
  {
  }

  // ----- type by type -----

  lemma SubscriberTold(env: Env, e: Fields, now: int)
    requires SinkFields(SubscriberCreated, e)
    ensures Told(Hits(env, TypeRules(SubscriberCreated), e, now), FirstBroken(env, e, DecodeBody(SubscriberCreated, e)))
  {
    hide Hits;
    FirstHit(env, TypeRules(SubscriberCreated), e, now);
    NumberIff(env, TextOf(e, "msisdn"));
  }

  lemma BundleTold(env: Env, e: Fields, now: int)
    requires SinkFields(BundlePurchase, e)
    ensures Told(Hits(env, TypeRules(BundlePurchase), e, now), FirstBroken(env, e, DecodeBody(BundlePurchase, e)))
  {
    hide Hits, FitsDouble;
    FirstHit(env, TypeRules(BundlePurchase), e, now);
    SmallNumberFits(e, "price");
  }

  lemma AirtimeTold(env: Env, e: Fields, now: int)
    requires SinkFields(AirtimePurchase, e)
    ensures Told(Hits(env, TypeRules(AirtimePurchase), e, now), FirstBroken(env, e, DecodeBody(AirtimePurchase, e)))
  {
    hide Hits, FitsDouble;
    FirstHit(env, TypeRules(AirtimePurchase), e, now);
  }

  /** The rules of a type in reporting order, told of the raw fields. */
  function CallBroken(env: Env, e: Fields): Option<string> {
    if !Holds(env, DurationNotNegative, e) then Some("duration_not_negative")
    else if !Holds(env, DurationWithinLimit, e) then Some("duration_within_limit")
    else if !Holds(env, TowerExists, e) then Some("tower_exists")
    else if !Holds(env, ReceiverMsisdnFormat, e) then Some("receiver_msisdn_format")
    else None
  }

  lemma CallHits(env: Env, e: Fields, now: int)
    ensures Told(Hits(env, TypeRules(VoiceCall), e, now), CallBroken(env, e))
  {
    hide Hits, Holds, FirstBroken, RulesOf;
    FirstHit(env, TypeRules(VoiceCall), e, now);
  }

  lemma CallTold(env: Env, e: Fields, now: int)
    requires SinkFields(VoiceCall, e)
    ensures Told(Hits(env, TypeRules(VoiceCall), e, now), FirstBroken(env, e, DecodeBody(VoiceCall, e)))
  {
    hide Hits, Holds, Get, OneOf, IsNumber, TypeRules, Told;
    CallHits(env, e, now);
    DurationHolds(env, e);
    TowerHolds(env, e);
    ReceiverHolds(env, e);
  }

  lemma SmsTold(env: Env, e: Fields, now: int)
    requires SinkFields(Sms, e)
    ensures Told(Hits(env, TypeRules(Sms), e, now), FirstBroken(env, e, DecodeBody(Sms, e)))
  {
    hide Hits, Holds, Get, OneOf, IsNumber;
    FirstHit(env, TypeRules(Sms), e, now);
    LengthHolds(env, e);
    ReceiverHolds(env, e);
  }

  function UsageBroken(env: Env, e: Fields): Option<string> {
    if !Holds(env, VolumePositive, e) then Some("volume_positive")
    else if !Holds(env, VolumeWithinLimit, e) then Some("volume_within_limit")
    else if !Holds(env, SessionPositive, e) then Some("session_positive")
    else if !Holds(env, TowerExists, e) then Some("tower_exists")
    else if !Holds(env, TechnologyKnown, e) then Some("technology_known")
    else None
  }

  lemma UsageHits(env: Env, e: Fields, now: int)
    ensures Told(Hits(env, TypeRules(DataUsage), e, now), UsageBroken(env, e))
  {
    hide Hits, Holds, FirstBroken, RulesOf;
    FirstHit(env, TypeRules(DataUsage), e, now);
  }

  lemma UsageTold(env: Env, e: Fields, now: int)
    requires SinkFields(DataUsage, e)
    ensures Told(Hits(env, TypeRules(DataUsage), e, now), FirstBroken(env, e, DecodeBody(DataUsage, e)))
  {
    hide Hits, Holds, Get, OneOf, Converts, TypeRules, Told;
    UsageHits(env, e, now);
    VolumeHolds(env, e);
    SessionHolds(env, e);
    TowerHolds(env, e);
    TechnologyHolds(env, e);
  }

  function TowerBroken(env: Env, e: Fields): Option<string> {
    if !Holds(env, SignalInRange, e) then Some("signal_in_range")
    else if !Holds(env, DevicesNotNegative, e) then Some("devices_not_negative")
    else if !Holds(env, TowerExists, e) then Some("tower_exists")
    else if !Holds(env, StatusKnown, e) then Some("status_known")
    else None
  }

  lemma TowerHits(env: Env, e: Fields, now: int)
    ensures Told(Hits(env, TypeRules(TowerStatus), e, now), TowerBroken(env, e))
  {
    hide Hits, Holds, FirstBroken, RulesOf;
    FirstHit(env, TypeRules(TowerStatus), e, now);
  }

  lemma TowerTold(env: Env, e: Fields, now: int)
    requires SinkFields(TowerStatus, e)
    ensures Told(Hits(env, TypeRules(TowerStatus), e, now), FirstBroken(env, e, DecodeBody(TowerStatus, e)))
  {
    hide Hits, Holds, Get, OneOf, TypeRules, Told;
    TowerHits(env, e, now);
    SignalHolds(env, e);
    DevicesHold(env, e);
    TowerHolds(env, e);
    StatusHolds(env, e);
  }

  /** The reporting order of an event type is that of its first broken rule. */
  lemma RulesTold(env: Env, t: EventType, e: Fields, now: int)
    requires SinkFields(t, e)
    ensures Told(Hits(env, TypeRules(t), e, now), FirstBroken(env, e, DecodeBody(t, e)))
  {
    hide Hits, FirstBroken, DecodeBody, TypeRules;
    match t
    case SubscriberCreated => SubscriberTold(env, e, now);
    case AirtimePurchase => AirtimeTold(env, e, now);
    case BundlePurchase => BundleTold(env, e, now);
    case VoiceCall => CallTold(env, e, now);
    case Sms => SmsTold(env, e, now);
    case DataUsage => UsageTold(env, e, now);
    case TowerStatus => TowerTold(env, e, now);
  }

  /** The time rule is reported before the others. */
  lemma TimedHits(env: Env, t: EventType, e: Fields, now: int)
    requires SinkFields(t, e)
    ensures var hits := Hits(env, RulesOf(t), e, now);
      if TimeAt(env, e).None? || TimeAt(env, e).value.utc > now + 30_000_000
      then hits != [] && hits[0] == "timestamp_not_in_future"
      else Told(hits, FirstBroken(env, e, DecodeBody(t, e)))
  {
    hide FirstBroken, DecodeBody, TypeRules, SinkFields, Holds, RulesOf, TimeAt;
    RulesTold(env, t, e, now);
    TimeRuleIsFirst(t);
    var rest := Hits(env, TypeRules(t), e, now);
    assert [] + rest == rest;
  }

  lemma ConformingVerdict(env: Env, t: EventType, raw: string, now: int)
    requires env.parse(raw).Some? && Conforms(EventFields(t), env.parse(raw).value)
    ensures var e := env.parse(raw).value.fields;
      var hits := Hits(env, RulesOf(t), e, now);
      && SinkFields(t, e) && (hits == [] ==> TimeAt(env, e).Some?)
      && Judge(env, t, raw, now)
         == if hits != [] then Reject("RULE_VIOLATION:" + hits[0]) else Accept(Decode(env, t, e))
  {
    hide Decode, RulesOf, EventFields, SinkFields, Hits, TimeAt, Violations;
    var event := env.parse(raw).value;
    ViolationsEmptyIffConforms(EventFields(t), event);
    FieldsDeclared(t, event.fields);
    if Hits(env, RulesOf(t), event.fields, now) == [] {
      AcceptedIsSafeToSink(env, t, event, now);
    }
  }

  /** The verdict on a record that conforms to its schema: rejected for its time when that
      is unreadable or more than thirty seconds ahead, else for the first rule it breaks,
      else accepted as the event it spells. */
  lemma VerdictIsFirstBroken(env: Env, t: EventType, raw: string, now: int)
    requires env.parse(raw).Some? && Conforms(EventFields(t), env.parse(raw).value)
    ensures var e, v := env.parse(raw).value.fields, Judge(env, t, raw, now);
      && SinkFields(t, e)
      && if TimeAt(env, e).None? || TimeAt(env, e).value.utc > now + 30_000_000
         then v == Reject("RULE_VIOLATION:timestamp_not_in_future")
         else match FirstBroken(env, e, DecodeBody(t, e))
              case Some(name) => v == Reject("RULE_VIOLATION:" + name)
              case None => v == Accept(Decode(env, t, e))
  {
    hide FirstBroken, DecodeBody, Decode, RulesOf, SinkFields, Hits, TimeAt, Judge;
    ConformingVerdict(env, t, raw, now);
    TimedHits(env, t, env.parse(raw).value.fields, now);
  }
}
