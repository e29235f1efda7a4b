/** The business rules: which hold of an event, in which order they are reported,
    and how the one that reads the clock behaves as time passes. */
module Rules {
  import opened Base
  import opened Schemas
  import opened Catalog

  const MAX_CALL_SECONDS: int := 6 * 60 * 60
  const MAX_SESSION_MB: real := 10240.0
  const MAX_RECHARGE: real := 1000.0
  const MAX_SMS_LENGTH: int := 1600
  const CLOCK_SKEW: int := 30 * SECOND

  datatype Rule =
    | TimestampNotInFuture
    | MsisdnFormat
    | PlanKnown
    | ProvinceKnown
    | AmountPositive
    | AmountWithinLimit
    | PaymentMethodKnown
    | BundleExists
    | PriceMatchesCatalog
    | DurationNotNegative
    | DurationWithinLimit
    | TowerExists
    | ReceiverMsisdnFormat
    | LengthPositive
    | LengthWithinLimit
    | VolumePositive
    | VolumeWithinLimit
    | SessionPositive
    | TechnologyKnown
    | SignalInRange
    | DevicesNotNegative
    | StatusKnown

  function RuleName(rule: Rule): string {
    match rule
    case TimestampNotInFuture => "timestamp_not_in_future"
    case MsisdnFormat => "msisdn_format"
    case PlanKnown => "plan_known"
    case ProvinceKnown => "province_known"
    case AmountPositive => "amount_positive"
    case AmountWithinLimit => "amount_within_limit"
    case PaymentMethodKnown => "payment_method_known"
    case BundleExists => "bundle_exists"
    case PriceMatchesCatalog => "price_matches_catalog"
    case DurationNotNegative => "duration_not_negative"
    case DurationWithinLimit => "duration_within_limit"
    case TowerExists => "tower_exists"
    case ReceiverMsisdnFormat => "receiver_msisdn_format"
    case LengthPositive => "length_positive"
    case LengthWithinLimit => "length_within_limit"
    case VolumePositive => "volume_positive"
    case VolumeWithinLimit => "volume_within_limit"
    case SessionPositive => "session_positive"
    case TechnologyKnown => "technology_known"
    case SignalInRange => "signal_in_range"
    case DevicesNotNegative => "devices_not_negative"
    case StatusKnown => "status_known"
  }

  /** The rules of an event type after the common one about the timestamp. */
  function TypeRules(t: EventType): seq<Rule> {
    match t
    case SubscriberCreated => [MsisdnFormat, PlanKnown, ProvinceKnown]
    case AirtimePurchase => [AmountPositive, AmountWithinLimit, PaymentMethodKnown]
    case BundlePurchase => [BundleExists, PriceMatchesCatalog]
    case VoiceCall => [DurationNotNegative, DurationWithinLimit, TowerExists, ReceiverMsisdnFormat]
    case Sms => [LengthPositive, LengthWithinLimit, ReceiverMsisdnFormat]
    case DataUsage => [VolumePositive, VolumeWithinLimit, SessionPositive, TowerExists, TechnologyKnown]
    case TowerStatus => [SignalInRange, DevicesNotNegative, TowerExists, StatusKnown]
  }

  function RulesOf(t: EventType): seq<Rule> {
    [TimestampNotInFuture] + TypeRules(t)
  }

  predicate MsisdnValid(env: Env, s: string) {
    |s| == 11 && s[0] == '2' && s[1] == '7' && forall i | 0 <= i < |s| :: env.isDigit(s[i])
  }

  predicate TextIn(j: Option<Json>, allowed: seq<string>) {
    j.Some? && j.value.JStr? && OneOf(j.value.s, allowed)
  }

  function IntAt(env: Env, event: Fields, name: string): Option<int> {
    match Get(event, name)
    case Some(j) => ToInt(env, j)
    case None => None
  }

  function FloatAt(env: Env, event: Fields, name: string): Option<real> {
    match Get(event, name)
    case Some(j) => ToFloat(env, j)
    case None => None
  }

  function TimeAt(env: Env, event: Fields): Option<Stamp> {
    match Get(event, "timestamp")
    case Some(j) => ParseTime(env, j)
    case None => None
  }

  /** Does the event satisfy a rule other than the timestamp rule? A predicate
      that would raise on a missing or mistyped field counts as violated. */
  predicate Holds(env: Env, rule: Rule, e: Fields) {
    match rule
    case TimestampNotInFuture => true
    case MsisdnFormat => var j := Get(e, "msisdn"); j.Some? && MsisdnValid(env, Str(env, j.value))
    case PlanKnown => TextIn(Get(e, "plan"), PLANS)
    case ProvinceKnown => TextIn(Get(e, "province"), PROVINCES)
    case AmountPositive => var a := FloatAt(env, e, "amount"); a.Some? && a.value > 0.0
    case AmountWithinLimit => var a := FloatAt(env, e, "amount"); a.Some? && a.value <= MAX_RECHARGE
    case PaymentMethodKnown => TextIn(Get(e, "payment_method"), PAYMENT_METHODS)
    case BundleExists =>
      var j := Get(e, "bundle_code"); j.Some? && j.value.JStr? && j.value.s in BUNDLE_PRICES
    case PriceMatchesCatalog =>
      var p, j := FloatAt(env, e, "price"), Get(e, "bundle_code");
      p.Some? && j.Some? &&
      var code := Str(env, j.value);
      p.value == if code in BUNDLE_PRICES then BUNDLE_PRICES[code] else -1.0
    case DurationNotNegative => var d := IntAt(env, e, "duration_seconds"); d.Some? && d.value >= 0
    case DurationWithinLimit =>
      var d := IntAt(env, e, "duration_seconds"); d.Some? && d.value <= MAX_CALL_SECONDS
    case TowerExists => TextIn(Get(e, "tower_id"), TOWER_IDS)
    case ReceiverMsisdnFormat =>
      var j := Get(e, "receiver_msisdn"); j.Some? && MsisdnValid(env, Str(env, j.value))
    case LengthPositive => var n := IntAt(env, e, "length"); n.Some? && n.value >= 1
    case LengthWithinLimit => var n := IntAt(env, e, "length"); n.Some? && n.value <= MAX_SMS_LENGTH
    case VolumePositive => var m := FloatAt(env, e, "mb_used"); m.Some? && m.value > 0.0
    case VolumeWithinLimit => var m := FloatAt(env, e, "mb_used"); m.Some? && m.value <= MAX_SESSION_MB
    case SessionPositive => var n := IntAt(env, e, "session_seconds"); n.Some? && n.value > 0
    case TechnologyKnown => TextIn(Get(e, "technology"), TECHNOLOGIES)
    case SignalInRange =>
      var n := IntAt(env, e, "signal_strength"); n.Some? && 0 <= n.value <= 100
    case DevicesNotNegative => var n := IntAt(env, e, "connected_devices"); n.Some? && n.value >= 0
    case StatusKnown => TextIn(Get(e, "status"), TOWER_STATUSES)
  }

  predicate NotFuture(env: Env, e: Fields, now: int) {
    var ts := TimeAt(env, e);
    ts.Some? && ts.value.utc <= now + CLOCK_SKEW
  }

  predicate Passes(env: Env, rule: Rule, e: Fields, now: int) {
    if rule == TimestampNotInFuture then NotFuture(env, e, now) else Holds(env, rule, e)
  }

  /** The names of the rules the event violates, in rule order. */
  function Hits(env: Env, rules: seq<Rule>, e: Fields, now: int): seq<string> {
    if rules == [] then []
    else RuleTags(env, rules[0], e, now) + Hits(env, rules[1..], e, now)
  }

  function RuleTags(env: Env, rule: Rule, e: Fields, now: int): seq<string> {
    if Passes(env, rule, e, now) then [] else [RuleName(rule)]
  }

  method ApplyRules(env: Env, t: EventType, e: Fields, now: int) returns (violations: seq<string>)
    ensures violations == Hits(env, RulesOf(t), e, now)
    ensures violations == [] <==> forall rule :: rule in RulesOf(t) ==> Passes(env, rule, e, now)
  {
    var rules := RulesOf(t);
    HitsEmptyIffAllPass(env, rules, e, now);
    violations := [];
    for i := 0 to |rules|
      invariant violations + Hits(env, rules[i..], e, now) == Hits(env, rules, e, now)
    {
      SplitRules(env, rules, i, e, now, violations);
      var ok := Passes(env, rules[i], e, now);
      if !ok {
        violations := violations + [RuleName(rules[i])];
      }
    }
  }

  lemma SplitRules(env: Env, rules: seq<Rule>, i: nat, e: Fields, now: int, done: seq<string>)
    requires i < |rules|
    ensures done + Hits(env, rules[i..], e, now)
         == (if Passes(env, rules[i], e, now) then done else done + [RuleName(rules[i])])
            + Hits(env, rules[i + 1..], e, now)
  {
    hide Holds;
    assert rules[i..][1..] == rules[i + 1..];
  }

  lemma {:induction false} HitsEmptyIffAllPass(env: Env, rules: seq<Rule>, e: Fields, now: int)
    ensures Hits(env, rules, e, now) == [] <==>
            forall rule :: rule in rules ==> Passes(env, rule, e, now)
  {
    hide Holds;
    if rules != [] {
      HitsEmptyIffAllPass(env, rules[1..], e, now);
      assert rules == [rules[0]] + rules[1..];
    }
  }

  lemma {:induction false} TimelessHits(env: Env, rules: seq<Rule>, e: Fields, now: int, now': int)
    requires TimestampNotInFuture !in rules
    ensures Hits(env, rules, e, now) == Hits(env, rules, e, now')
    ensures "timestamp_not_in_future" !in Hits(env, rules, e, now)
  {
    hide Holds;
    if rules != [] {
      TimelessHits(env, rules[1..], e, now, now');
      OtherRuleName(rules[0]);
    }
  }

  lemma OtherRuleName(rule: Rule)
    requires rule != TimestampNotInFuture
    ensures RuleName(rule) != "timestamp_not_in_future"
  {
    assert |RuleName(rule)| != |"timestamp_not_in_future"|;
  }

  lemma TimeRuleIsFirst(t: EventType)
    ensures TimestampNotInFuture !in TypeRules(t)
    ensures RulesOf(t) != [] && RulesOf(t)[0] == TimestampNotInFuture && RulesOf(t)[1..] == TypeRules(t)
  {
  }

  /** As time passes an event can only shed the timestamp violation: acceptance is
      monotone in the clock, and the other violations never change. */
  lemma VerdictMonotone(env: Env, t: EventType, e: Fields, now: int, later: int)
    requires now <= later
    ensures Hits(env, RulesOf(t), e, now) == [] ==> Hits(env, RulesOf(t), e, later) == []
    ensures Hits(env, RulesOf(t), e, later) == Hits(env, RulesOf(t), e, now)
         || Hits(env, RulesOf(t), e, now) == ["timestamp_not_in_future"] + Hits(env, RulesOf(t), e, later)
  {
    hide Holds, TypeRules, RulesOf;
    TimeRuleIsFirst(t);
    TimelessHits(env, TypeRules(t), e, now, later);
  }

  /** An event beyond the skew allowance is reported for its time first, and no
      longer once that time has come. */
  lemma FutureHits(env: Env, t: EventType, e: Fields, now: int)
    requires TimeAt(env, e).Some? && TimeAt(env, e).value.utc > now + CLOCK_SKEW
    ensures var early, late := Hits(env, RulesOf(t), e, now), Hits(env, RulesOf(t), e, TimeAt(env, e).value.utc);
      && early != [] && early[0] == "timestamp_not_in_future"
      && (late == [] || late[0] != "timestamp_not_in_future")
  {
    hide Holds, TypeRules, RulesOf;
    var ts := TimeAt(env, e).value.utc;
    TimeRuleIsFirst(t);
    TimelessHits(env, TypeRules(t), e, now, ts);
    var late := Hits(env, TypeRules(t), e, ts);
    assert Hits(env, RulesOf(t), e, ts) == [] + late == late;
    assert late != [] ==> late[0] in late;
  }

  /** The verdict is the same at every later time exactly when the event's time is
      unreadable or already within the skew allowance. */
  lemma VerdictStableIff(env: Env, t: EventType, e: Fields, now: int)
    ensures (forall later :: now <= later ==> Hits(env, RulesOf(t), e, later) == Hits(env, RulesOf(t), e, now))
       <==> (TimeAt(env, e).None? || TimeAt(env, e).value.utc <= now + CLOCK_SKEW)
  {
    hide Holds;
    if TimeAt(env, e).Some? && TimeAt(env, e).value.utc > now + CLOCK_SKEW {
      FutureHits(env, t, e, now);
    } else {
      forall later | now <= later ensures Hits(env, RulesOf(t), e, later) == Hits(env, RulesOf(t), e, now) {
        TimelessHits(env, TypeRules(t), e, now, later);
        assert RulesOf(t)[1..] == TypeRules(t);
      }
    }
  }
}
