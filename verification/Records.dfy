/** What a verdict says about a record: what acceptance guarantees of the typed
    event, how verdicts change with the clock, and where each record of a batch goes. */
module Records {
  import opened Base
  import opened Schemas
  import opened Catalog
  import opened Rules
  import opened Events
  import opened Batches
  import opened Replay

  /** The business rules of an event type, stated on the typed event. */
  predicate Clean(env: Env, body: Body) {
    match body
    case SubscriberBody(_, msisdn, plan, province) =>
      MsisdnValid(env, msisdn) && OneOf(plan, PLANS) && OneOf(province, PROVINCES)
    case AirtimeBody(_, amount, paymentMethod) => 0.0 < amount <= MAX_RECHARGE && OneOf(paymentMethod, PAYMENT_METHODS)
    case BundleBody(_, code, price) => code in BUNDLE_PRICES && price == BUNDLE_PRICES[code]
    case CallBody(_, receiver, duration, tower, _) =>
      0 <= duration <= MAX_CALL_SECONDS && OneOf(tower, TOWER_IDS) && MsisdnValid(env, receiver)
    case SmsBody(_, receiver, length) => 1 <= length <= MAX_SMS_LENGTH && MsisdnValid(env, receiver)
    case UsageBody(_, mb, seconds, tower, technology) =>
      0.0 < mb <= MAX_SESSION_MB && seconds > 0 && OneOf(tower, TOWER_IDS) && OneOf(technology, TECHNOLOGIES)
    case TowerBody(tower, _, signal, devices, status) =>
      0 <= signal <= 100 && devices >= 0 && OneOf(tower, TOWER_IDS) && OneOf(status, TOWER_STATUSES)
  }

  ghost predicate AllHold(env: Env, rules: seq<Rule>, e: Fields) {
    forall i :: 0 <= i < |rules| ==> Holds(env, rules[i], e)
  }

  /** An amount within the limits of the rules converts to a double. */
  lemma SmallNumberFits(e: Fields, name: string)
    requires Typed(e, name, FloatField)
    ensures var j := Get(e, name).value; j.JInt? && -100_000 <= j.i <= 100_000 ==> FitsDouble(j.i)
  {
    hide FitsDouble;
    var j := Get(e, name).value;
    if j.JInt? && -100_000 <= j.i <= 100_000 {
      SmallFitsDouble(j.i);
    }
  }

  /** The rules on the raw fields say the same of the typed event, type by type. */
  lemma CleanSubscriberCreated(env: Env, e: Fields)
    requires SinkFields(SubscriberCreated, e)
    ensures (Holds(env, MsisdnFormat, e) && Holds(env, PlanKnown, e) && Holds(env, ProvinceKnown, e))
       <==> Clean(env, DecodeBody(SubscriberCreated, e))
  {
  }

  lemma CleanAirtimePurchase(env: Env, e: Fields)
    requires SinkFields(AirtimePurchase, e)
    ensures (Holds(env, AmountPositive, e) && Holds(env, AmountWithinLimit, e)
          && Holds(env, PaymentMethodKnown, e))
       <==> Clean(env, DecodeBody(AirtimePurchase, e))
  {
    hide FitsDouble;
    SmallNumberFits(e, "amount");
  }

  lemma CleanBundlePurchase(env: Env, e: Fields)
    requires SinkFields(BundlePurchase, e)
    ensures (Holds(env, BundleExists, e) && Holds(env, PriceMatchesCatalog, e))
       <==> Clean(env, DecodeBody(BundlePurchase, e))
  {
    hide FitsDouble;
    SmallNumberFits(e, "price");
  }

  lemma CallNumbers(env: Env, e: Fields)
    requires SinkFields(VoiceCall, e)
    ensures (Holds(env, DurationNotNegative, e) && Holds(env, DurationWithinLimit, e))
       <==> 0 <= IntOf(e, "duration_seconds") <= MAX_CALL_SECONDS
  {
  }

  lemma CallNames(env: Env, e: Fields)
    requires SinkFields(VoiceCall, e)
    ensures (Holds(env, TowerExists, e) && Holds(env, ReceiverMsisdnFormat, e))
       <==> (OneOf(TextOf(e, "tower_id"), TOWER_IDS) && MsisdnValid(env, TextOf(e, "receiver_msisdn")))
  {
  }

  lemma CleanVoiceCall(env: Env, e: Fields)
    requires SinkFields(VoiceCall, e)
    ensures (Holds(env, DurationNotNegative, e) && Holds(env, DurationWithinLimit, e) && Holds(env, TowerExists, e)
          && Holds(env, ReceiverMsisdnFormat, e))
       <==> Clean(env, DecodeBody(VoiceCall, e))
  {
    CallNumbers(env, e);
    CallNames(env, e);
  }

  lemma CleanSms(env: Env, e: Fields)
    requires SinkFields(Sms, e)
    ensures (Holds(env, LengthPositive, e) && Holds(env, LengthWithinLimit, e)
          && Holds(env, ReceiverMsisdnFormat, e))
       <==> Clean(env, DecodeBody(Sms, e))
  {
  }

  lemma UsageVolume(env: Env, e: Fields)
    requires SinkFields(DataUsage, e)
    ensures (Holds(env, VolumePositive, e) && Holds(env, VolumeWithinLimit, e))
       <==> 0.0 < FloatOf(e, "mb_used") <= MAX_SESSION_MB
  {
    hide FitsDouble;
    SmallNumberFits(e, "mb_used");
  }

  lemma UsageSeconds(env: Env, e: Fields)
    requires SinkFields(DataUsage, e)
    ensures Holds(env, SessionPositive, e) <==> IntOf(e, "session_seconds") > 0
  {
  }

  lemma UsageNames(env: Env, e: Fields)
    requires SinkFields(DataUsage, e)
    ensures (Holds(env, TowerExists, e) && Holds(env, TechnologyKnown, e))
       <==> (OneOf(TextOf(e, "tower_id"), TOWER_IDS) && OneOf(TextOf(e, "technology"), TECHNOLOGIES))
  {
  }

  lemma CleanDataUsage(env: Env, e: Fields)
    requires SinkFields(DataUsage, e)
    ensures (Holds(env, VolumePositive, e) && Holds(env, VolumeWithinLimit, e) && Holds(env, SessionPositive, e)
          && Holds(env, TowerExists, e) && Holds(env, TechnologyKnown, e))
       <==> Clean(env, DecodeBody(DataUsage, e))
  {
    UsageVolume(env, e);
    UsageSeconds(env, e);
    UsageNames(env, e);
  }

  lemma TowerNumbers(env: Env, e: Fields)
    requires SinkFields(TowerStatus, e)
    ensures (Holds(env, SignalInRange, e) && Holds(env, DevicesNotNegative, e))
       <==> (0 <= IntOf(e, "signal_strength") <= 100 && IntOf(e, "connected_devices") >= 0)
  {
  }

  lemma TowerNames(env: Env, e: Fields)
    requires SinkFields(TowerStatus, e)
    ensures (Holds(env, TowerExists, e) && Holds(env, StatusKnown, e))
       <==> (OneOf(TextOf(e, "tower_id"), TOWER_IDS) && OneOf(TextOf(e, "status"), TOWER_STATUSES))
  {
  }

  lemma CleanTowerStatus(env: Env, e: Fields)
    requires SinkFields(TowerStatus, e)
    ensures (Holds(env, SignalInRange, e) && Holds(env, DevicesNotNegative, e) && Holds(env, TowerExists, e)
          && Holds(env, StatusKnown, e))
       <==> Clean(env, DecodeBody(TowerStatus, e))
  {
    TowerNumbers(env, e);
    TowerNames(env, e);
  }

  lemma RulesMeanClean(env: Env, t: EventType, e: Fields)
    requires SinkFields(t, e)
    ensures AllHold(env, TypeRules(t), e) <==> Clean(env, DecodeBody(t, e))
  {
    hide Holds, Clean, DecodeBody;
    UnfoldRules(env, TypeRules(t), e);
    match t
    case SubscriberCreated => CleanSubscriberCreated(env, e);
    case AirtimePurchase => CleanAirtimePurchase(env, e);
    case BundlePurchase => CleanBundlePurchase(env, e);
    case VoiceCall => CleanVoiceCall(env, e);
    case Sms => CleanSms(env, e);
    case DataUsage => CleanDataUsage(env, e);
    case TowerStatus => CleanTowerStatus(env, e);
  }

  /** Unfolds a list of two to five rules. */
  lemma UnfoldRules(env: Env, rules: seq<Rule>, e: Fields)
    requires 2 <= |rules| <= 5
    ensures AllHold(env, rules, e) <==>
      && Holds(env, rules[0], e) && Holds(env, rules[1], e)
      && (|rules| > 2 ==> Holds(env, rules[2], e))
      && (|rules| > 3 ==> Holds(env, rules[3], e))
      && (|rules| > 4 ==> Holds(env, rules[4], e))
  {
  }

  /** What acceptance guarantees of a typed event: the rules of its type, a time
      within the skew allowance, and the offset its timestamp was written with. */
  ghost predicate Vouched(env: Env, t: EventType, now: int, e: Event) {
    && TypeOf(e.body) == t && Clean(env, e.body) && e.ts.utc <= now + CLOCK_SKEW
    && exists s: string :: env.iso(s).Some? && e.ts == Aware(env.iso(s).value)
  }

  /** An event passes all rules exactly when those of its type hold and its time is not in the future. */
  lemma PassingRulesHold(env: Env, t: EventType, e: Fields, now: int)
    ensures Hits(env, RulesOf(t), e, now) == [] <==> AllHold(env, TypeRules(t), e) && NotFuture(env, e, now)
  {
    hide Holds, NotFuture, TypeRules, RulesOf, Hits;
    var rules, all := TypeRules(t), RulesOf(t);
    HitsEmptyIffAllPass(env, all, e, now);
    TimeRuleIsFirst(t);
    assert forall i :: 0 <= i < |rules| ==> rules[i] in rules && rules[i] == all[i + 1] && all[i + 1] in all;
    if Hits(env, all, e, now) == [] {
      assert Passes(env, all[0], e, now);
      forall i | 0 <= i < |rules| ensures Holds(env, rules[i], e) {
        assert Passes(env, all[i + 1], e, now);
      }
    }
    if AllHold(env, rules, e) && NotFuture(env, e, now) {
      forall rule | rule in all ensures Passes(env, rule, e, now) {
        var i :| 0 <= i < |all| && all[i] == rule;
        assert i > 0 ==> rules[i - 1] == rule;
      }
    }
  }

  lemma AcceptedIsVouched(env: Env, judge: Judging, t: EventType, raw: string, now: int)
    requires Genuine(env, judge) && judge(t, raw, now).Accept?
    ensures Vouched(env, t, now, judge(t, raw, now).event)
  {
    var event := env.parse(raw).value;
    var e := judge(t, raw, now).event;
    AcceptedIsSafeToSink(env, t, event, now);
    PassingRulesHold(env, t, event.fields, now);
    RulesMeanClean(env, t, event.fields);
    var s := Str(env, Get(event.fields, "timestamp").value);
    assert e.ts == Aware(env.iso(s).value);
  }

  /** Acceptance is monotone in the clock, and later gives the same event. */
  lemma AcceptedStaysAccepted(env: Env, judge: Judging, t: EventType, raw: string, now: int, later: int)
    requires Genuine(env, judge) && now <= later && judge(t, raw, now).Accept?
    ensures judge(t, raw, later) == judge(t, raw, now)
  {
    VerdictMonotone(env, t, env.parse(raw).value.fields, now, later);
  }

  /** The event a record would become, whatever the clock: None when it does not
      parse, breaks its schema, or has an unreadable time. */
  function Candidate(env: Env, t: EventType, raw: string): Option<Event> {
    match env.parse(raw)
    case None => None
    case Some(event) =>
      if Violations(EventFields(t), event) != [] then None
      else
        ViolationsEmptyIffConforms(EventFields(t), event);
        FieldsDeclared(t, event.fields);
        if TimeAt(env, event.fields).None? then None else Some(Decode(env, t, event.fields))
  }

  lemma AcceptedIsCandidate(env: Env, judge: Judging, t: EventType, raw: string, now: int)
    requires Genuine(env, judge) && judge(t, raw, now).Accept?
    ensures Candidate(env, t, raw) == Some(judge(t, raw, now).event)
  {
    hide Holds;
    AcceptedIsSafeToSink(env, t, env.parse(raw).value, now);
    FieldsDeclared(t, env.parse(raw).value.fields);
  }

  /** The verdict on a record is settled from some time on exactly when the record is
      no candidate or its time is already within the skew allowance. */
  lemma VerdictSettledIff(env: Env, judge: Judging, t: EventType, raw: string, now: int)
    requires Genuine(env, judge)
    ensures (forall later :: now <= later ==> judge(t, raw, later) == judge(t, raw, now))
       <==> (Candidate(env, t, raw).None? || Candidate(env, t, raw).value.ts.utc <= now + CLOCK_SKEW)
  {
    if Candidate(env, t, raw).None? || Candidate(env, t, raw).value.ts.utc <= now + CLOCK_SKEW {
      forall later | now <= later ensures judge(t, raw, later) == judge(t, raw, now) {
        SettledVerdict(env, judge, t, raw, now, later);
      }
    } else {
      FutureVerdict(env, judge, t, raw, now, Candidate(env, t, raw).value.ts.utc);
    }
  }

  lemma SettledVerdict(env: Env, judge: Judging, t: EventType, raw: string, now: int, later: int)
    requires Genuine(env, judge) && now <= later
    requires Candidate(env, t, raw).None? || Candidate(env, t, raw).value.ts.utc <= now + CLOCK_SKEW
    ensures judge(t, raw, later) == judge(t, raw, now)
  {
    if env.parse(raw).Some? && Violations(EventFields(t), env.parse(raw).value) == [] {
      var event := env.parse(raw).value;
      ViolationsEmptyIffConforms(EventFields(t), event);
      VerdictStableIff(env, t, event.fields, now);
      assert Hits(env, RulesOf(t), event.fields, later) == Hits(env, RulesOf(t), event.fields, now);
    }
  }

  lemma FutureVerdict(env: Env, judge: Judging, t: EventType, raw: string, now: int, ts: int)
    requires Genuine(env, judge) && Candidate(env, t, raw).Some?
    requires ts == Candidate(env, t, raw).value.ts.utc > now + CLOCK_SKEW
    ensures judge(t, raw, ts) != judge(t, raw, now)
  {
    var event := env.parse(raw).value;
    ViolationsEmptyIffConforms(EventFields(t), event);
    FutureHits(env, t, event.fields, now);
    var early, late := Hits(env, RulesOf(t), event.fields, now), Hits(env, RulesOf(t), event.fields, ts);
    if late != [] {
      DifferentTails("RULE_VIOLATION:", late[0], early[0]);
    }
  }

  lemma DifferentTails(prefix: string, a: string, b: string)
    requires a != b
    ensures prefix + a != prefix + b
  {
    assert (prefix + a)[|prefix|..] == a && (prefix + b)[|prefix|..] == b;
  }

  // ----- where the records of a batch go -----

  lemma {:induction false} RawsAreRows(batch: Batch, t: EventType)
    ensures forall raw :: raw in Raws(batch, t) <==> Row(t, raw) in batch
  {
    if batch != [] {
      var n := |batch| - 1;
      RawsAreRows(batch[..n], t);
      assert batch == batch[..n] + [batch[n]];
    }
  }

  lemma {:induction false} GoodsAreAccepted(vs: seq<Verdict>)
    ensures forall e :: e in Goods(vs) <==> exists j :: 0 <= j < |vs| && vs[j] == Accept(e)
  {
    if vs != [] {
      var n := |vs| - 1;
      GoodsAreAccepted(vs[..n]);
      assert forall j :: 0 <= j < n ==> vs[..n][j] == vs[j];
      forall e | e in Goods(vs) ensures exists j :: 0 <= j < |vs| && vs[j] == Accept(e) {
        if e in Goods(vs[..n]) {
          var j :| 0 <= j < n && vs[..n][j] == Accept(e);
          assert vs[j] == Accept(e);
        } else {
          assert vs[n] == Accept(e);
        }
      }
      forall e, j | 0 <= j < |vs| && vs[j] == Accept(e) ensures e in Goods(vs) {
        if j < n {
          assert vs[..n][j] == Accept(e);
        }
      }
    }
  }

  lemma {:induction false} RejectIsReported(
    env: Env, t: EventType, raws: seq<string>, vs: seq<Verdict>, clock: Clock, j: nat)
    requires j < |vs| == |raws| && vs[j].Reject?
    ensures MakeDlq(env, TopicName(t), vs[j].reason, raws[j], clock(t, j)) in Bads(env, t, raws, vs, clock)
  {
    if j < |vs| - 1 {
      RejectIsReported(env, t, raws[..|vs| - 1], vs[..|vs| - 1], clock, j);
    }
  }

  /** All readings of a clock lie between two times. */
  ghost predicate InTime(clock: Clock, lo: int, hi: int) {
    forall t, n :: lo <= clock(t, n) <= hi
  }

  ghost predicate Within(judge: Judging, t: EventType, raw: string, e: Event, lo: int, hi: int) {
    exists now :: lo <= now <= hi && judge(t, raw, now) == Accept(e)
  }

  /** An accepted event comes from a record of its topic, accepted at a clock reading. */
  lemma GoodHasRow(env: Env, judge: Judging, batch: Batch, clock: Clock, lo: int, hi: int, t: EventType, e: Event)
    requires InTime(clock, lo, hi) && e in FeedOf(env, judge, batch, clock).good(t)
    ensures exists raw :: Row(t, raw) in batch && Within(judge, t, raw, e, lo, hi)
  {
    var raws := Raws(batch, t);
    var vs := Verdicts(judge, t, raws, clock);
    GoodsAreAccepted(vs);
    RawsAreRows(batch, t);
    var j :| 0 <= j < |vs| && vs[j] == Accept(e);
    assert Row(t, raws[j]) in batch;
    assert lo <= clock(t, j) <= hi && judge(t, raws[j], clock(t, j)) == Accept(e);
    assert Within(judge, t, raws[j], e, lo, hi);
  }

  /** A record of the batch is rejected with a dead letter that carries it, or accepted. */
  lemma RowIsJudged(env: Env, judge: Judging, batch: Batch, clock: Clock, lo: int, hi: int, row: Row)
    requires InTime(clock, lo, hi) && row in batch
    ensures (exists e :: e in FeedOf(env, judge, batch, clock).good(row.topic) && Within(judge, row.topic, row.raw, e, lo, hi))
         || (exists r :: r in FeedOf(env, judge, batch, clock).bad(row.topic)
                      && r.topic == TopicName(row.topic) && r.payload == row.raw)
  {
    var t := row.topic;
    var raws := Raws(batch, t);
    var vs := Verdicts(judge, t, raws, clock);
    RawsAreRows(batch, t);
    var j :| 0 <= j < |raws| && raws[j] == row.raw;
    assert vs[j] == judge(t, raws[j], clock(t, j)) && lo <= clock(t, j) <= hi;
    if vs[j].Accept? {
      GoodsAreAccepted(vs);
      assert vs[j].event in FeedOf(env, judge, batch, clock).good(t);
      assert Within(judge, t, row.raw, vs[j].event, lo, hi);
    } else {
      RejectIsReported(env, t, raws, vs, clock, j);
    }
  }

  /** A record accepted before the clock was read is accepted again, as the same event. */
  lemma AcceptedBeforeIsGood(env: Env, judge: Judging, batch: Batch, clock: Clock, lo: int, hi: int, row: Row,
      e: Event, now: int)
    requires Genuine(env, judge) && InTime(clock, lo, hi) && row in batch
    requires now <= lo && judge(row.topic, row.raw, now) == Accept(e)
    ensures e in FeedOf(env, judge, batch, clock).good(row.topic)
  {
    var t := row.topic;
    var raws := Raws(batch, t);
    var vs := Verdicts(judge, t, raws, clock);
    RawsAreRows(batch, t);
    var j :| 0 <= j < |raws| && raws[j] == row.raw;
    assert vs[j] == judge(t, raws[j], clock(t, j)) && lo <= clock(t, j);
    AcceptedStaysAccepted(env, judge, t, row.raw, now, clock(t, j));
    GoodsAreAccepted(vs);
  }

  // ----- stable verdicts -----

  /** No verdict of the batch changes after the time. */
  ghost predicate StableFrom(judge: Judging, batch: Batch, time: int) {
    forall row, now :: row in batch && time <= now ==> judge(row.topic, row.raw, now) == judge(row.topic, row.raw, time)
  }

  /** When verdicts are stable, in terms of the records alone: each either can never be
      accepted or carries a time within the skew allowance already. */
  lemma StableIff(env: Env, judge: Judging, batch: Batch, time: int)
    requires Genuine(env, judge)
    ensures StableFrom(judge, batch, time) <==> forall row :: row in batch ==> NotEarly(env, row, time)
  {
    hide Judge, Candidate;
    forall row | row in batch
      ensures NotEarly(env, row, time)
         <==> forall later :: time <= later ==> judge(row.topic, row.raw, later) == judge(row.topic, row.raw, time)
    {
      VerdictSettledIff(env, judge, row.topic, row.raw, time);
    }
    if StableFrom(judge, batch, time) {
      forall row | row in batch ensures NotEarly(env, row, time) {
        assert forall later :: time <= later ==> judge(row.topic, row.raw, later) == judge(row.topic, row.raw, time);
      }
    }
  }

  predicate NotEarly(env: Env, row: Row, time: int) {
    var c := Candidate(env, row.topic, row.raw);
    c.None? || c.value.ts.utc <= time + CLOCK_SKEW
  }

  lemma {:induction false} SameVerdictsSameIds(
    env: Env, t: EventType, raws: seq<string>, vs: seq<Verdict>, c: Clock, d: Clock)
    requires |vs| == |raws|
    ensures DlqIds(Bads(env, t, raws, vs, c)) == DlqIds(Bads(env, t, raws, vs, d))
  {
    if vs != [] {
      var n := |vs| - 1;
      SameVerdictsSameIds(env, t, raws[..n], vs[..n], c, d);
      assert forall s: seq<DlqRecord> :: s + [] == s;
      if vs[n].Reject? {
        var a := MakeDlq(env, TopicName(t), vs[n].reason, raws[n], c(t, n));
        var b := MakeDlq(env, TopicName(t), vs[n].reason, raws[n], d(t, n));
        assert DlqIds([a]) == {a.id} == {b.id} == DlqIds([b]);
        SameIdsConcat(Bads(env, t, raws[..n], vs[..n], c), [a], Bads(env, t, raws[..n], vs[..n], d), [b]);
      }
    }
  }

  /** With stable verdicts any two validations of a batch agree. */
  lemma StableFeedsAgree(env: Env, judge: Judging, batch: Batch, time: int, c: Clock, hc: int, d: Clock, hd: int)
    requires StableFrom(judge, batch, time) && InTime(c, time, hc) && InTime(d, time, hd)
    ensures SameFeed(FeedOf(env, judge, batch, c), FeedOf(env, judge, batch, d))
  {
    var f, g := FeedOf(env, judge, batch, c), FeedOf(env, judge, batch, d);
    forall t ensures f.good(t) == g.good(t) && DlqIds(f.bad(t)) == DlqIds(g.bad(t)) {
      var raws := Raws(batch, t);
      RawsAreRows(batch, t);
      var vs, us := Verdicts(judge, t, raws, c), Verdicts(judge, t, raws, d);
      forall j | 0 <= j < |raws| ensures vs[j] == us[j] {
        assert Row(t, raws[j]) in batch;
        assert judge(Row(t, raws[j]).topic, Row(t, raws[j]).raw, c(t, j)) == judge(t, raws[j], time);
        assert judge(Row(t, raws[j]).topic, Row(t, raws[j]).raw, d(t, j)) == judge(t, raws[j], time);
      }
      assert vs == us;
      SameVerdictsSameIds(env, t, raws, vs, c, d);
    }
  }
}
