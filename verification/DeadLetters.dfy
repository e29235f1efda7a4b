/** What a dead letter says of the record it was made for, which dead letters share an
    identifier, and which rejections have a row of their own in the dead-letter table. */
module DeadLetters {
  import opened Base
  import opened Schemas
  import opened Rules
  import opened Events
  import opened Rollups
  import opened Warehouse
  import opened Dlq

  // ----- the letters of a batch -----

  /** The text whose digest identifies a rejection. */
  function IdText(topic: string, reason: string, payload: string): string {
    topic + "|" + reason + "|" + payload
  }

  /** The letter for a payload rejected on a topic: its identifier is the digest of topic,
      reason and payload, its time the clock reading cut to milliseconds. */
  ghost predicate LetterFor(env: Env, r: DlqRecord, t: EventType, reason: string, payload: string, now: int) {
    && r.id == env.uuid5(IdText(TopicName(t), reason, payload))
    && r.topic == TopicName(t) && r.reason == reason && r.payload == payload
    && r.ts.offset == 0 && r.ts.utc % 1000 == 0 && r.ts.utc <= now < r.ts.utc + 1000
  }

  lemma MadeForIff(env: Env, r: DlqRecord, t: EventType, reason: string, payload: string, now: int)
    ensures r == MakeDlq(env, TopicName(t), reason, payload, now) <==> LetterFor(env, r, t, reason, payload, now)
  {
    hide TopicName;
  }

  ghost predicate RejectedAs(env: Env, t: EventType, raws: seq<string>, vs: seq<Verdict>, clock: Clock, r: DlqRecord, j: nat)
    requires |vs| == |raws|
  {
    j < |raws| && vs[j].Reject? && LetterFor(env, r, t, vs[j].reason, raws[j], clock(t, j))
  }

  /** The letters of validation are those of the rejected records, each with its text as
      it came, its reason and the time of its verdict. */
  lemma {:induction false} RejectionsIff(
    env: Env, t: EventType, raws: seq<string>, vs: seq<Verdict>, clock: Clock, r: DlqRecord)
    requires |vs| == |raws|
    ensures r in Bads(env, t, raws, vs, clock) <==> exists j: nat :: RejectedAs(env, t, raws, vs, clock, r, j)
  {
    hide LetterFor, MakeDlq, TopicName;
    if vs != [] {
      var n := |vs| - 1;
      RejectionsIff(env, t, raws[..n], vs[..n], clock, r);
      forall j: nat | j < n
        ensures RejectedAs(env, t, raws[..n], vs[..n], clock, r, j) <==> RejectedAs(env, t, raws, vs, clock, r, j) {
      }
      if vs[n].Reject? {
        MadeForIff(env, r, t, vs[n].reason, raws[n], clock(t, n));
      }
      if exists j: nat :: RejectedAs(env, t, raws, vs, clock, r, j) {
        var j: nat :| RejectedAs(env, t, raws, vs, clock, r, j);
        assert j < n ==> RejectedAs(env, t, raws[..n], vs[..n], clock, r, j);
      }
      if r in Bads(env, t, raws, vs, clock) {
        if r in Bads(env, t, raws[..n], vs[..n], clock) {
          var j: nat :| RejectedAs(env, t, raws[..n], vs[..n], clock, r, j);
          assert RejectedAs(env, t, raws, vs, clock, r, j);
        } else {
          assert RejectedAs(env, t, raws, vs, clock, r, n);
        }
      }
    }
  }

  ghost predicate ReportedAs(env: Env, t: EventType, unknown: seq<Event>, late: nat -> int, r: DlqRecord, j: nat) {
    j < |unknown| && LetterFor(env, r, t, "REFERENTIAL:subscriber_unknown", env.dumps(unknown[j].source), late(j))
  }

  /** The letters for unknown subscribers are those of the events handed back, each
      encoded again. */
  lemma {:induction false} ReportsIff(env: Env, t: EventType, unknown: seq<Event>, late: nat -> int, r: DlqRecord)
    ensures r in Referential(env, t, unknown, late) <==> exists j: nat :: ReportedAs(env, t, unknown, late, r, j)
  {
    hide LetterFor, MakeDlq, TopicName;
    if unknown != [] {
      var n := |unknown| - 1;
      ReportsIff(env, t, unknown[..n], late, r);
      MadeForIff(env, r, t, REFERENTIAL, env.dumps(unknown[n].source), late(n));
      if exists j: nat :: ReportedAs(env, t, unknown, late, r, j) {
        var j: nat :| ReportedAs(env, t, unknown, late, r, j);
        assert j < n ==> ReportedAs(env, t, unknown[..n], late, r, j);
      }
      if r in Referential(env, t, unknown, late) {
        if r in Referential(env, t, unknown[..n], late) {
          var j: nat :| ReportedAs(env, t, unknown[..n], late, r, j);
          assert ReportedAs(env, t, unknown, late, r, j);
        } else {
          assert ReportedAs(env, t, unknown, late, r, n);
        }
      }
    }
  }

  /** On a nondecreasing clock no letter for an unknown subscriber is older than a letter
      of the validation before it. */
  lemma ReportsComeLater(env: Env, t: EventType, raws: seq<string>, vs: seq<Verdict>, clock: Clock,
                         unknown: seq<Event>, r: DlqRecord, q: DlqRecord)
    requires |vs| == |raws| && forall m: nat, n: nat :: m <= n ==> clock(t, m) <= clock(t, n)
    requires r in Bads(env, t, raws, vs, clock) && q in Referential(env, t, unknown, LateAfter(clock, t, |raws|))
    ensures r.ts.utc <= q.ts.utc
  {
    hide Bads, Referential, TopicName;
    var late := LateAfter(clock, t, |raws|);
    RejectionsIff(env, t, raws, vs, clock, r);
    ReportsIff(env, t, unknown, late, q);
    var j: nat :| RejectedAs(env, t, raws, vs, clock, r, j);
    var n: nat :| ReportedAs(env, t, unknown, late, q, n);
    assert clock(t, j) <= clock(t, |raws| + n);
    MillisecondsRise(r.ts.utc, q.ts.utc, clock(t, j), clock(t, |raws| + n));
  }

  lemma MillisecondsRise(a: int, b: int, early: int, late: int)
    requires a % 1000 == 0 && b % 1000 == 0 && a <= early < a + 1000 && b <= late < b + 1000 && early <= late
    ensures a <= b
  {
    assert a == a / 1000 * 1000 && b == b / 1000 * 1000;
  }

  // ----- identifiers -----

  /** A text is cut at its first separator in one way only. */
  lemma FirstCut(a: string, x: string, b: string, y: string)
    requires '|' !in a && '|' !in b && a + "|" + x == b + "|" + y
    ensures a == b && x == y
  {
    var s, u := a + "|" + x, b + "|" + y;
    assert s[|a|] == '|' && u[|b|] == '|';
    assert |a| == |b|;
    assert a == s[..|a|] && b == u[..|b|];
    assert x == s[|a| + 1..] && y == u[|b| + 1..];
  }

  /** Topic and reason without separators, and the payload, can be read off the text. */
  lemma TextsAgreeIff(a: DlqRecord, b: DlqRecord)
    requires Plain(a) && Plain(b)
    ensures IdText(a.topic, a.reason, a.payload) == IdText(b.topic, b.reason, b.payload) <==> SameRejection(a, b)
  {
    if IdText(a.topic, a.reason, a.payload) == IdText(b.topic, b.reason, b.payload) {
      var x, y := a.reason + "|" + a.payload, b.reason + "|" + b.payload;
      assert IdText(a.topic, a.reason, a.payload) == a.topic + "|" + x;
      assert IdText(b.topic, b.reason, b.payload) == b.topic + "|" + y;
      FirstCut(a.topic, x, b.topic, y);
      FirstCut(a.reason, a.payload, b.reason, b.payload);
    }
  }

  predicate Plain(r: DlqRecord) { '|' !in r.topic && '|' !in r.reason }

  predicate SameRejection(a: DlqRecord, b: DlqRecord) {
    a.topic == b.topic && a.reason == b.reason && a.payload == b.payload
  }

  /** The record carries the identifier the events query gives it. */
  predicate Minted(env: Env, r: DlqRecord) {
    r.id == DlqId(env, r.topic, r.reason, r.payload)
  }

  /** The digest tells the two texts apart. */
  predicate NoCollision(env: Env, a: DlqRecord, b: DlqRecord) {
    var x, y := IdText(a.topic, a.reason, a.payload), IdText(b.topic, b.reason, b.payload);
    env.uuid5(x) == env.uuid5(y) ==> x == y
  }

  /** Two dead letters have the same identifier exactly when topic, reason and payload are
      the same, whatever their times. */
  lemma IdsAgreeIff(env: Env, a: DlqRecord, b: DlqRecord)
    requires Minted(env, a) && Minted(env, b) && Plain(a) && Plain(b) && NoCollision(env, a, b)
    ensures a.id == b.id <==> SameRejection(a, b)
  {
    TextsAgreeIff(a, b);
  }

  // ----- which reasons are plain -----

  /** The event has an undeclared field with a separator, and that is its first violation. */
  predicate SplitEvent(t: EventType, event: Json) {
    event.JObject? && SchemaTags(EventFields(t), event.fields) == [] &&
    match FirstUndeclared(EventFields(t), event.fields)
    case Some(name) => '|' in name
    case None => false
  }

  /** The record's first violation is an unexpected field with a separator in its name. */
  predicate SplitUnexpected(env: Env, t: EventType, raw: string) {
    env.parse(raw).Some? && SplitEvent(t, env.parse(raw).value)
  }

  lemma {:induction false} SchemaTagsArePlain(schema: Schema, fields: Fields)
    requires forall i :: 0 <= i < |schema| ==> '|' !in schema[i].0
    ensures forall tag :: tag in SchemaTags(schema, fields) ==> '|' !in tag
  {
    if schema != [] {
      SchemaTagsArePlain(schema[1..], fields);
    }
  }

  lemma PurchaseFieldsArePlain(t: EventType)
    requires t == SubscriberCreated || t == AirtimePurchase || t == BundlePurchase || t == Sms
    ensures forall i :: 0 <= i < |EventFields(t)| ==> '|' !in EventFields(t)[i].0
  {
  }

  lemma NetworkFieldsArePlain(t: EventType)
    requires t == VoiceCall || t == DataUsage || t == TowerStatus
    ensures forall i :: 0 <= i < |EventFields(t)| ==> '|' !in EventFields(t)[i].0
  {
  }

  lemma DeclaredNamesArePlain(t: EventType)
    ensures forall i :: 0 <= i < |EventFields(t)| ==> '|' !in EventFields(t)[i].0
  {
    hide EventFields;
    match t
    case SubscriberCreated => PurchaseFieldsArePlain(t);
    case AirtimePurchase => PurchaseFieldsArePlain(t);
    case BundlePurchase => PurchaseFieldsArePlain(t);
    case Sms => PurchaseFieldsArePlain(t);
    case _ => NetworkFieldsArePlain(t);
  }

  lemma {:induction false} HitsArePlain(env: Env, rules: seq<Rule>, e: Fields, now: int)
    ensures forall tag :: tag in Hits(env, rules, e, now) ==> '|' !in tag
  {
    hide Passes, RuleName;
    if rules != [] {
      HitsArePlain(env, rules[1..], e, now);
      NameIsPlain(rules[0]);
    }
  }

  lemma SubscriberAndMoneyNamesArePlain(rule: Rule)
    requires rule.TimestampNotInFuture? || rule.MsisdnFormat? || rule.PlanKnown? || rule.ProvinceKnown? || rule.AmountPositive?
          || rule.AmountWithinLimit?
    ensures '|' !in RuleName(rule)
  {
  }

  lemma PurchaseNamesArePlain(rule: Rule)
    requires rule.PaymentMethodKnown? || rule.BundleExists? || rule.PriceMatchesCatalog? || rule.DurationNotNegative?
          || rule.DurationWithinLimit?
    ensures '|' !in RuleName(rule)
  {
  }

  lemma MessageNamesArePlain(rule: Rule)
    requires rule.TowerExists? || rule.ReceiverMsisdnFormat? || rule.LengthPositive? || rule.LengthWithinLimit?
          || rule.VolumePositive?
    ensures '|' !in RuleName(rule)
  {
  }

  lemma NetworkNamesArePlain(rule: Rule)
    requires rule.VolumeWithinLimit? || rule.SessionPositive? || rule.TechnologyKnown? || rule.SignalInRange?
          || rule.DevicesNotNegative? || rule.StatusKnown?
    ensures '|' !in RuleName(rule)
  {
  }

  lemma NameIsPlain(rule: Rule)
    ensures '|' !in RuleName(rule)
  {
    hide RuleName;
    match rule
    case TimestampNotInFuture => SubscriberAndMoneyNamesArePlain(rule);
    case MsisdnFormat => SubscriberAndMoneyNamesArePlain(rule);
    case PlanKnown => SubscriberAndMoneyNamesArePlain(rule);
    case ProvinceKnown => SubscriberAndMoneyNamesArePlain(rule);
    case AmountPositive => SubscriberAndMoneyNamesArePlain(rule);
    case AmountWithinLimit => SubscriberAndMoneyNamesArePlain(rule);
    case PaymentMethodKnown => PurchaseNamesArePlain(rule);
    case BundleExists => PurchaseNamesArePlain(rule);
    case PriceMatchesCatalog => PurchaseNamesArePlain(rule);
    case DurationNotNegative => PurchaseNamesArePlain(rule);
    case DurationWithinLimit => PurchaseNamesArePlain(rule);
    case TowerExists => MessageNamesArePlain(rule);
    case ReceiverMsisdnFormat => MessageNamesArePlain(rule);
    case LengthPositive => MessageNamesArePlain(rule);
    case LengthWithinLimit => MessageNamesArePlain(rule);
    case VolumePositive => MessageNamesArePlain(rule);
    case VolumeWithinLimit => NetworkNamesArePlain(rule);
    case SessionPositive => NetworkNamesArePlain(rule);
    case TechnologyKnown => NetworkNamesArePlain(rule);
    case SignalInRange => NetworkNamesArePlain(rule);
    case DevicesNotNegative => NetworkNamesArePlain(rule);
    case StatusKnown => NetworkNamesArePlain(rule);
  }

  lemma TopicNamesArePlain(t: EventType)
    ensures '|' !in TopicName(t)
  {
  }

  /** Topics have different names. */
  lemma TopicNamesDiffer(t: EventType, u: EventType)
    ensures TopicName(t) == TopicName(u) <==> t == u
  {
    var a, b := TopicName(t), TopicName(u);
    assert t != u ==> |a| != |b|;
  }

  lemma PlainAfter(prefix: string, s: string)
    requires '|' !in prefix
    ensures '|' !in prefix + s <==> '|' !in s
  {
  }

  /** The first structural violation is plain unless it names a split field. */
  lemma StructuralIsPlainIff(t: EventType, fields: Fields)
    requires Violations(EventFields(t), JObject(fields)) != []
    ensures '|' in Violations(EventFields(t), JObject(fields))[0] <==>
      && SchemaTags(EventFields(t), fields) == []
      && FirstUndeclared(EventFields(t), fields).Some? && '|' in FirstUndeclared(EventFields(t), fields).value
  {
    hide SchemaTags, UnexpectedTags, FirstUndeclared, EventFields, Violations;
    var own := SchemaTags(EventFields(t), fields);
    SchemaReason(t, fields);
    DeclaredNamesArePlain(t);
    SchemaTagsArePlain(EventFields(t), fields);
    assert own != [] ==> own[0] in own;
    if own == [] && FirstUndeclared(EventFields(t), fields).Some? {
      PlainAfter("unexpected:", FirstUndeclared(EventFields(t), fields).value);
    }
  }

  /** A reason of validation is one of three kinds. */
  lemma ReasonKinds(env: Env, t: EventType, raw: string, now: int)
    requires Judge(env, t, raw, now).Reject?
    ensures var reason := Judge(env, t, raw, now).reason;
      match env.parse(raw)
      case None => reason == "PARSE_ERROR"
      case Some(event) =>
        var structural := Violations(EventFields(t), event);
        if structural != [] then reason == "SCHEMA_VIOLATION:" + structural[0]
        else
          && event.JObject?
          && var hits := Hits(env, RulesOf(t), event.fields, now);
             hits != [] && reason == "RULE_VIOLATION:" + hits[0]
  {
    hide Hits, SchemaTags, UnexpectedTags, EventFields, RulesOf;
  }

  lemma RuleReasonIsPlain(env: Env, t: EventType, e: Fields, now: int)
    requires Hits(env, RulesOf(t), e, now) != []
    ensures '|' !in "RULE_VIOLATION:" + Hits(env, RulesOf(t), e, now)[0]
  {
    hide Hits, RulesOf;
    var hits := Hits(env, RulesOf(t), e, now);
    HitsArePlain(env, RulesOf(t), e, now);
    assert hits[0] in hits;
    PlainAfter("RULE_VIOLATION:", hits[0]);
  }

  lemma SchemaReasonIsPlainIff(t: EventType, event: Json)
    ensures var structural := Violations(EventFields(t), event);
      if structural == [] then !SplitEvent(t, event)
      else '|' !in "SCHEMA_VIOLATION:" + structural[0] <==> !SplitEvent(t, event)
  {
    hide SchemaTags, UnexpectedTags, FirstUndeclared, EventFields, Violations;
    var structural := Violations(EventFields(t), event);
    if !event.JObject? {
      NotAnObject(EventFields(t), event);
    } else if structural == [] {
      SchemaReason(t, event.fields);
    } else {
      StructuralIsPlainIff(t, event.fields);
    }
    if structural != [] {
      PlainAfter("SCHEMA_VIOLATION:", structural[0]);
    }
  }

  /** A reason is free of separators unless it names an unexpected field that has one. */
  lemma ReasonIsPlainIff(env: Env, t: EventType, raw: string, now: int)
    requires Judge(env, t, raw, now).Reject?
    ensures '|' !in Judge(env, t, raw, now).reason <==> !SplitUnexpected(env, t, raw)
  {
    hide Judge, Hits, EventFields, RulesOf, Violations, SplitEvent;
    ReasonKinds(env, t, raw, now);
    if env.parse(raw).Some? {
      var event := env.parse(raw).value;
      SchemaReasonIsPlainIff(t, event);
      if Violations(EventFields(t), event) == [] {
        RuleReasonIsPlain(env, t, event.fields, now);
      }
    }
  }

  lemma NotAnObject(schema: Schema, event: Json)
    requires !event.JObject?
    ensures Violations(schema, event) == ["not_an_object"]
  {
  }

  /** The letter of a rejected record. */
  function LetterOf(env: Env, t: EventType, raw: string, now: int): DlqRecord
    requires Judge(env, t, raw, now).Reject?
  {
    MakeDlq(env, TopicName(t), Judge(env, t, raw, now).reason, raw, now)
  }

  /** Two rejections by validation share an identifier exactly when topic, text and reason
      are the same: a replay reproduces the identifier, and nothing else does. */
  lemma RejectionIdsIff(env: Env, t: EventType, raw: string, now: int, t': EventType, raw': string, now': int)
    requires Judge(env, t, raw, now).Reject? && !SplitUnexpected(env, t, raw)
    requires Judge(env, t', raw', now').Reject? && !SplitUnexpected(env, t', raw')
    requires NoCollision(env, LetterOf(env, t, raw, now), LetterOf(env, t', raw', now'))
    ensures LetterOf(env, t, raw, now).id == LetterOf(env, t', raw', now').id
       <==> t == t' && raw == raw' && Judge(env, t, raw, now).reason == Judge(env, t', raw', now').reason
  {
    hide Judge, SplitUnexpected, TopicName, NoCollision;
    ReasonIsPlainIff(env, t, raw, now);
    ReasonIsPlainIff(env, t', raw', now');
    TopicNamesArePlain(t);
    TopicNamesArePlain(t');
    TopicNamesDiffer(t, t');
    IdsAgreeIff(env, LetterOf(env, t, raw, now), LetterOf(env, t', raw', now'));
  }

  // ----- rows of the table -----

  /** The table has a row with the record's identifier, topic, reason and payload. */
  ghost predicate HasOwnRow(env: Env, rows: seq<DlqRow>, r: DlqRecord) {
    exists row :: row in rows && Some(row.id) == env.uuid(r.id)
                  && row.topic == r.topic && row.reason == r.reason && row.payload == r.payload
  }

  ghost predicate FirstIsSame(env: Env, history: seq<DlqRecord>, r: DlqRecord) {
    env.uuid(r.id).Some? &&
    exists j: nat :: j < |history| && FirstOf(env, history, j, env.uuid(r.id).value) && SameRejection(history[j], r)
  }

  /** Over any run of the dead-letter query, with replays and failed batches, a delivered
      rejection has its own row, with its payload, exactly when the first one delivered
      under its UUID was the same rejection. */
  lemma RejectionKeptIff(env: Env, db: Db, batches: seq<seq<string>>, r: DlqRecord)
    requires db.dlq == [] && r in Delivered(env, db, batches)
    ensures HasOwnRow(env, RunDlq(env, db, batches).dlq, r) <==> FirstIsSame(env, Delivered(env, db, batches), r)
  {
    hide RunDlq, Delivered;
    DlqTableIsFirstWins(env, db, batches);
    var rows, history := RunDlq(env, db, batches).dlq, Delivered(env, db, batches);
    assert env.uuid(r.id).Some? && env.uuid(r.id).value in RowIds(rows);
    var id := env.uuid(r.id).value;
    if HasOwnRow(env, rows, r) {
      var row :| row in rows && Some(row.id) == env.uuid(r.id)
                 && row.topic == r.topic && row.reason == r.reason && row.payload == r.payload;
      assert IsFirstRow(env, history, row);
    }
    if FirstIsSame(env, history, r) {
      var j: nat :| j < |history| && FirstOf(env, history, j, id) && SameRejection(history[j], r);
      var row :| row in rows && row.id == id;
      assert IsFirstRow(env, history, row);
      var k :| 0 <= k < |history| && FirstOf(env, history, k, id) && RowKeeps(env, row, history[k]);
      assert k == j;
    }
  }

  /** Records of the events query whose digests, as UUIDs, do not collide. */
  ghost predicate AllTold(env: Env, history: seq<DlqRecord>) {
    && (forall r :: r in history ==> Minted(env, r) && Plain(r))
    && forall a, b :: a in history && b in history && env.uuid(a.id) == env.uuid(b.id) ==>
         IdText(a.topic, a.reason, a.payload) == IdText(b.topic, b.reason, b.payload)
  }

  /** Where digests do not collide, every delivered rejection has its own row with its
      payload, and rejections that differ in topic, reason or payload have different rows. */
  lemma EveryRejectionHasItsRow(env: Env, db: Db, batches: seq<seq<string>>, r: DlqRecord)
    requires db.dlq == [] && r in Delivered(env, db, batches) && AllTold(env, Delivered(env, db, batches))
    ensures HasOwnRow(env, RunDlq(env, db, batches).dlq, r)
  {
    hide RunDlq, Delivered, IdText;
    DlqTableIsFirstWins(env, db, batches);
    var rows, history := RunDlq(env, db, batches).dlq, Delivered(env, db, batches);
    var row :| row in rows && Some(row.id) == env.uuid(r.id);
    assert IsFirstRow(env, history, row);
    var j :| 0 <= j < |history| && FirstOf(env, history, j, row.id) && RowKeeps(env, row, history[j]);
    assert history[j] in history && env.uuid(history[j].id) == env.uuid(r.id);
    TextsAgreeIff(history[j], r);
    RejectionKeptIff(env, db, batches, r);
  }

  // ----- the rollup, row by row -----

  /** How many dead letters of a topic and reason the table has in one minute. */
  function CountDead(rows: seq<DlqRow>, minute: int, topic: string, reason: string): nat {
    if rows == [] then 0
    else
      var row := rows[|rows| - 1];
      CountDead(rows[..|rows| - 1], minute, topic, reason)
      + if row.topic == topic && row.reason == reason && InMinute(row.rejectedAt, minute) then 1 else 0
  }

  lemma {:induction false} TallyIsCount(rows: seq<DlqRow>, minute: int, topic: string, reason: string)
    ensures Tally(DlqItems(rows), AggKey(minute, Dead(topic, reason))).count == CountDead(rows, minute, topic, reason)
  {
    hide InMinute, FloorMinute;
    if rows != [] {
      var init, row := rows[..|rows| - 1], rows[|rows| - 1];
      TallyIsCount(init, minute, topic, reason);
      MinuteOf(row.rejectedAt, minute);
      var items := DlqItems(init);
      assert DlqItems(rows) == items + [DlqItem(row)];
      assert (items + [DlqItem(row)])[..|items|] == items;
    }
  }

  /** The rollup has a row for a minute, topic and reason exactly when a dead letter of
      them is in the table, and the row gives their number. */
  ghost predicate DeadRowIsCount(db: Db, minute: int, topic: string, reason: string) {
    var key, n := AggKey(minute, Dead(topic, reason)), CountDead(db.dlq, minute, topic, reason);
    && (key in db.agg <==> n > 0)
    && (key in db.agg ==> db.agg[key].count == n)
  }

  /** Over any run of the dead-letter query with whole-minute offsets, replays and failed
      batches included, every row of its rollup is such a count. */
  lemma DeadRowsAreCounts(env: Env, db: Db, batches: seq<seq<string>>, minute: int, topic: string, reason: string)
    requires RollupsExact(db) && AllWhole(env, batches)
    ensures DeadRowIsCount(RunDlq(env, db, batches), minute, topic, reason)
  {
    hide RunDlq, CountDead, DlqItems, Tally, AllWhole;
    var d, key := RunDlq(env, db, batches), AggKey(minute, Dead(topic, reason));
    DlqRollupStaysExact(env, db, batches);
    TallyIsCount(d.dlq, minute, topic, reason);
    assert Lookup(d.agg, key) == View(Source(d, TableOf(key.group)), key);
  }
}
