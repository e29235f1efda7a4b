/** What the rows at rest say, column by column, of the records that were delivered. */
module AtRest {
  import opened Base
  import opened Schemas
  import opened Events
  import opened Towers
  import opened Warehouse
  import opened Processor
  import opened Protocol
  import opened Provenance
  import opened Guarantees

  ghost predicate Text(fields: Fields, name: string, s: string) { Get(fields, name) == Some(JStr(s)) }

  ghost predicate Whole(fields: Fields, name: string, n: int) { Get(fields, name) == Some(JInt(n)) }

  /** The field is a number, and the column its nearest hundredth. */
  ghost predicate Hundredths(fields: Fields, name: string, n: int) {
    match Get(fields, name)
    case Some(JInt(i)) => n == 100 * i
    case Some(JFloat(r)) => IsRounded(n, r)
    case _ => false
  }

  ghost predicate At(env: Env, fields: Fields, utc: int) {
    exists offset :: TimeGiven(env, fields, Stamp(utc, offset))
  }

  /** The fact row has the record's values. */
  ghost predicate FactSays(env: Env, f: Fact, fields: Fields) {
    && (exists id :: Text(fields, "event_id", id) && env.uuid(id) == Some(f.id))
    && At(env, fields, f.ts)
    && match f.detail
       case Recharge(cents, payment) =>
         && Whole(fields, "subscriber_id", f.subscriberId)
         && Hundredths(fields, "amount", cents) && Text(fields, "payment_method", payment)
       case BundleSale(code, cents) =>
         && Whole(fields, "subscriber_id", f.subscriberId)
         && Text(fields, "bundle_code", code) && Hundredths(fields, "price", cents)
       case CallMade(tower, receiver, duration, dropped) =>
         && Whole(fields, "caller_id", f.subscriberId)
         && Text(fields, "tower_id", tower) && Text(fields, "receiver_msisdn", receiver)
         && Whole(fields, "duration_seconds", duration) && Get(fields, "dropped") == Some(JBool(dropped))
       case SmsSent(receiver, length) =>
         && Whole(fields, "sender_id", f.subscriberId)
         && Text(fields, "receiver_msisdn", receiver) && Whole(fields, "length", length)
       case UsageSession(tower, hundredths, seconds, technology) =>
         && Whole(fields, "subscriber_id", f.subscriberId)
         && Text(fields, "tower_id", tower) && Hundredths(fields, "mb_used", hundredths)
         && Whole(fields, "session_seconds", seconds) && Text(fields, "technology", technology)
  }

  ghost predicate SubscriberSays(env: Env, id: int, row: SubRow, fields: Fields) {
    && Whole(fields, "subscriber_id", id) && Text(fields, "msisdn", row.msisdn)
    && Text(fields, "plan", row.plan) && Text(fields, "province", row.province) && At(env, fields, row.createdAt)
  }

  ghost predicate TowerSays(env: Env, id: string, row: TowerRow, fields: Fields) {
    && Text(fields, "tower_id", id) && Text(fields, "technology", row.technology)
    && Whole(fields, "signal_strength", row.signal) && Whole(fields, "connected_devices", row.devices)
    && Text(fields, "status", row.status) && At(env, fields, row.updatedAt)
  }

  // ----- from the event to the record -----

  lemma TextAt(env: Env, t: EventType, fields: Fields, e: Event, i: nat, name: string, s: string)
    requires Conveys(env, t, fields, e) && 2 <= i < |Payload(e)| && Payload(e)[i] == (name, JStr(s))
    ensures Text(fields, name, s)
  {
    hide Conveys, Payload, Get;
    ConveyedAt(env, t, fields, e, i, name, JStr(s));
  }

  lemma WholeAt(env: Env, t: EventType, fields: Fields, e: Event, i: nat, name: string, n: int)
    requires Conveys(env, t, fields, e) && 2 <= i < |Payload(e)| && Payload(e)[i] == (name, JInt(n))
    ensures Whole(fields, name, n)
  {
    hide Conveys, Payload, Get;
    ConveyedAt(env, t, fields, e, i, name, JInt(n));
  }

  /** A column is the rounded amount; one written as an integer is stored exactly. */
  lemma HundredthsAt(env: Env, t: EventType, fields: Fields, e: Event, i: nat, name: string, r: real, n: int)
    requires Conveys(env, t, fields, e) && 2 <= i < |Payload(e)| && Payload(e)[i] == (name, JFloat(r)) && IsRounded(n, r)
    ensures Hundredths(fields, name, n)
  {
    hide Conveys, Payload, Get;
    ConveyedAt(env, t, fields, e, i, name, JFloat(r));
    var j := Get(fields, name).value;
    if j.JInt? {
      RoundedIff(100 * j.i, r);
      RoundedIff(n, r);
    }
  }

  lemma IdAndTimeSay(env: Env, t: EventType, fields: Fields, e: Event)
    requires Conveys(env, t, fields, e)
    ensures Text(fields, "event_id", e.id) && At(env, fields, e.ts.utc)
  {
    hide Payload, TimeGiven;
    IdFirst(e);
    PayloadNames(e);
    GetAt(Payload(e), 0);
    assert FieldConveyed(fields, Payload(e), EventFields(t)[0].0);
    assert TimeGiven(env, fields, Stamp(e.ts.utc, e.ts.offset));
  }

  lemma IdFirst(e: Event)
    ensures Payload(e)[0] == ("event_id", JStr(e.id))
  {
  }

  lemma FactSaysRecord(env: Env, t: EventType, fields: Fields, e: Event, f: Fact)
    requires Conveys(env, t, fields, e) && Describes(env, f, e)
    ensures FactSays(env, f, fields)
  {
    hide Get, Conveys, IsRounded, Hundredths, Text, Whole, At;
    assert TypeOf(e.body) == t by { ConveyedType(env, t, fields, e); }
    IdAndTimeSay(env, t, fields, e);
    match e.body
    case AirtimeBody(subscriber, amount, payment) =>
      WholeAt(env, t, fields, e, 2, "subscriber_id", subscriber);
      HundredthsAt(env, t, fields, e, 3, "amount", amount, f.detail.cents);
      TextAt(env, t, fields, e, 4, "payment_method", payment);
    case BundleBody(subscriber, code, price) =>
      WholeAt(env, t, fields, e, 2, "subscriber_id", subscriber);
      TextAt(env, t, fields, e, 3, "bundle_code", code);
      HundredthsAt(env, t, fields, e, 4, "price", price, f.detail.cents);
    case CallBody(caller, receiver, duration, tower, dropped) =>
      WholeAt(env, t, fields, e, 2, "caller_id", caller);
      TextAt(env, t, fields, e, 3, "receiver_msisdn", receiver);
      WholeAt(env, t, fields, e, 4, "duration_seconds", duration);
      TextAt(env, t, fields, e, 5, "tower_id", tower);
      ConveyedAt(env, t, fields, e, 6, "dropped", JBool(dropped));
    case SmsBody(sender, receiver, length) =>
      WholeAt(env, t, fields, e, 2, "sender_id", sender);
      TextAt(env, t, fields, e, 3, "receiver_msisdn", receiver);
      WholeAt(env, t, fields, e, 4, "length", length);
    case UsageBody(subscriber, mb, seconds, tower, technology) =>
      WholeAt(env, t, fields, e, 2, "subscriber_id", subscriber);
      HundredthsAt(env, t, fields, e, 3, "mb_used", mb, f.detail.hundredths);
      WholeAt(env, t, fields, e, 4, "session_seconds", seconds);
      TextAt(env, t, fields, e, 5, "tower_id", tower);
      TextAt(env, t, fields, e, 6, "technology", technology);
  }

  lemma ConveyedType(env: Env, t: EventType, fields: Fields, e: Event)
    requires Conveys(env, t, fields, e)
    ensures TypeOf(e.body) == t
  {
  }

  lemma SubscriberSaysRecord(env: Env, fields: Fields, e: Event, id: int, row: SubRow)
    requires Conveys(env, SubscriberCreated, fields, e) && SubRowOf(e, id, row)
    ensures SubscriberSays(env, id, row, fields)
  {
    hide Get, Conveys, Text, Whole, At;
    IdAndTimeSay(env, SubscriberCreated, fields, e);
    WholeAt(env, SubscriberCreated, fields, e, 2, "subscriber_id", id);
    TextAt(env, SubscriberCreated, fields, e, 3, "msisdn", row.msisdn);
    TextAt(env, SubscriberCreated, fields, e, 4, "plan", row.plan);
    TextAt(env, SubscriberCreated, fields, e, 5, "province", row.province);
  }

  lemma TowerSaysRecord(env: Env, fields: Fields, e: Event, id: string, row: TowerRow)
    requires Conveys(env, TowerStatus, fields, e) && IsUpdateOf(e, id, row)
    ensures TowerSays(env, id, row, fields)
  {
    hide Get, Conveys, Text, Whole, At;
    IdAndTimeSay(env, TowerStatus, fields, e);
    TextAt(env, TowerStatus, fields, e, 2, "tower_id", id);
    TextAt(env, TowerStatus, fields, e, 3, "technology", row.technology);
    WholeAt(env, TowerStatus, fields, e, 4, "signal_strength", row.signal);
    WholeAt(env, TowerStatus, fields, e, 5, "connected_devices", row.devices);
    TextAt(env, TowerStatus, fields, e, 6, "status", row.status);
  }

  // ----- every reachable warehouse -----

  /** The fields of a record that was delivered in batch i under topic t and accepted. */
  ghost predicate Delivered(p: Plan, s: Sys, i: nat, t: EventType, fields: Fields) {
    i < |p.batches| && exists raw, now :: Row(t, raw) in p.batches[i] && p.env.parse(raw) == Some(JObject(fields))
                                           && now <= s.now && p.judge(t, raw, now).Accept?
  }

  lemma AcceptedSaid(p: Plan, t: EventType, raw: string, now: int)
    requires Genuine(p.env, p.judge) && p.judge(t, raw, now).Accept?
    ensures SaidBy(p.env, t, raw, p.judge(t, raw, now).event)
  {
    hide Conveys;
    assert p.judge(t, raw, now) == Judge(p.env, t, raw, now);
    AcceptedSays(p.env, t, raw, now);
  }

  lemma LakeRowSays(p: Plan, s: Sys, l: LakeRow) returns (i: nat, fields: Fields)
    requires Genuine(p.env, p.judge) && Tracing(p, s) && l in s.lake
    ensures Delivered(p, s, i, l.t, fields) && Conveys(p.env, l.t, fields, l.event)
  {
    hide Tracing, Conveys;
    i := LakeRowOrigin(p, s, l);
    var raw :| Row(l.t, raw) in p.batches[i] && AcceptedBy(p.judge, l.t, raw, l.event, s.now);
    var now :| now <= s.now && p.judge(l.t, raw, now) == Accept(l.event);
    AcceptedSaid(p, l.t, raw, now);
    fields := p.env.parse(raw).value.fields;
  }

  /** In every reachable state, whatever the crashes, a fact row has in every column what
      some delivered and accepted record says: its UUID, its subscriber, its instant, its
      amounts to the nearest hundredth, and its other columns verbatim. */
  lemma FactsSayTheirRecords(p: Plan, s: Sys, f: Fact) returns (i: nat, fields: Fields)
    requires ValidPlan(p) && Reachable(p, s) && f in s.db.facts
    ensures Delivered(p, s, i, FactTable(f.detail), fields) && FactSays(p.env, f, fields)
  {
    hide FactOf, Joins, Conveys, Describes, FactSays, Delivered, Genuine, WellFormed;
    ReachableTraced(p, s);
    assert FactTraced(p.env, s.lake, s.db.seeds, f);
    var l :| l in s.lake && l.t == FactTable(f.detail) && FactOf(p.env, l.event) == Some(f) && Joins(s.db.seeds, l.event);
    i, fields := LakeRowSays(p, s, l);
    FactOfIff(p.env, l.event, f);
    FactSaysRecord(p.env, l.t, fields, l.event, f);
  }

  /** The same of a subscriber row. */
  lemma SubscribersSayTheirRecords(p: Plan, s: Sys, id: int) returns (i: nat, fields: Fields)
    requires ValidPlan(p) && Reachable(p, s) && id in s.db.subs
    ensures Delivered(p, s, i, SubscriberCreated, fields) && SubscriberSays(p.env, id, s.db.subs[id], fields)
  {
    hide Conveys, SubscriberSays, Delivered, Genuine, WellFormed;
    ReachableTraced(p, s);
    assert SubTraced(s.lake, id, s.db.subs[id]);
    var l :| l in s.lake && l.t == SubscriberCreated && SubRowOf(l.event, id, s.db.subs[id]);
    i, fields := LakeRowSays(p, s, l);
    SubscriberSaysRecord(p.env, fields, l.event, id, s.db.subs[id]);
  }

  /** The same of the current state of a tower. */
  lemma TowersSayTheirRecords(p: Plan, s: Sys, id: string) returns (i: nat, fields: Fields)
    requires ValidPlan(p) && Reachable(p, s) && id in s.db.towers
    ensures Delivered(p, s, i, TowerStatus, fields) && TowerSays(p.env, id, s.db.towers[id], fields)
  {
    hide Conveys, TowerSays, Delivered, Genuine, WellFormed;
    ReachableTraced(p, s);
    assert TowerTraced(s.lake, id, s.db.towers[id]);
    var l :| l in s.lake && l.t == TowerStatus && IsUpdateOf(l.event, id, s.db.towers[id]);
    i, fields := LakeRowSays(p, s, l);
    TowerSaysRecord(p.env, fields, l.event, id, s.db.towers[id]);
  }

  /** A record has at most one row per table that says it. */
  lemma FactSaysOne(env: Env, f: Fact, g: Fact, fields: Fields)
    requires FactSays(env, f, fields) && FactSays(env, g, fields) && FactTable(f.detail) == FactTable(g.detail)
    ensures f == g
  {
    hide Get;
    assert f.id == g.id && f.ts == g.ts;
    match f.detail
    case Recharge(cents, _) => SameHundredths(fields, "amount", cents, g.detail.cents);
    case BundleSale(_, cents) => SameHundredths(fields, "price", cents, g.detail.cents);
    case UsageSession(_, hundredths, _, _) => SameHundredths(fields, "mb_used", hundredths, g.detail.hundredths);
    case _ =>
  }

  lemma SameHundredths(fields: Fields, name: string, m: int, n: int)
    requires Hundredths(fields, name, m) && Hundredths(fields, name, n)
    ensures m == n
  {
    if Get(fields, name).value.JFloat? {
      RoundedIff(m, Get(fields, name).value.r);
      RoundedIff(n, Get(fields, name).value.r);
    }
  }

  // ----- every checkpointed record -----

  /** The warehouse holds what the record says: its own fact row, its subscriber, or its
      tower at least as new. */
  ghost predicate HasRowFor(env: Env, db: Db, t: EventType, fields: Fields) {
    match t
    case SubscriberCreated => exists id :: Whole(fields, "subscriber_id", id) && id in db.subs
    case TowerStatus =>
      exists id, utc :: Text(fields, "tower_id", id) && At(env, fields, utc)
                        && id in db.towers && db.towers[id].updatedAt >= utc
    case _ => exists f :: f in db.facts && FactTable(f.detail) == t && FactSays(env, f, fields)
  }

  /** A dead letter of the record's topic carries the record, as it came or, when its
      subscriber was unknown, encoded again. */
  ghost predicate HasLetter(env: Env, records: seq<DlqRecord>, row: Row) {
    exists r :: r in records && r.topic == TopicName(row.topic) &&
      (r.payload == row.raw
       || (r.reason == "REFERENTIAL:subscriber_unknown" && env.parse(row.raw).Some?
           && r.payload == env.dumps(env.parse(row.raw).value)))
  }

  /** Nothing is lost, told of the records alone: in every reachable state each raw record
      of each checkpointed batch is carried by a dead letter, or is an object whose values
      stand in the warehouse, a fact in a row of its own. */
  lemma RecordsReachTheirRows(p: Plan, s: Sys, i: nat, row: Row)
    requires ValidPlan(p) && SeedsMatch(p.seeds) && EventsUnique(p) && Reachable(p, s)
    requires i < s.done <= |p.batches| && row in p.batches[i]
    ensures HasLetter(p.env, s.topic, row)
      || (p.env.parse(row.raw).Some? && p.env.parse(row.raw).value.JObject?
          && HasRowFor(p.env, s.db, row.topic, p.env.parse(row.raw).value.fields))
  {
    hide EventsUnique, OwnRowOrReport, HasRowFor, HasLetter, Judge;
    NothingIsLost(p, s);
    assert SettledRow(p, s.db, s.topic, row, s.now);
    if Carries(s.topic, row) {
      CarriedIsLetter(p.env, s.topic, row);
    } else {
      var e :| AcceptedBy(p.judge, row.topic, row.raw, e, s.now) && OwnRowOrReport(p.env, s.db, s.topic, row.topic, e);
      var now :| now <= s.now && p.judge(row.topic, row.raw, now) == Accept(e);
      AcceptedSaid(p, row.topic, row.raw, now);
      SettledIsSaid(p.env, s.db, s.topic, row, e);
    }
  }

  lemma CarriedIsLetter(env: Env, records: seq<DlqRecord>, row: Row)
    requires Carries(records, row)
    ensures HasLetter(env, records, row)
  {
  }

  lemma SettledIsSaid(env: Env, db: Db, records: seq<DlqRecord>, row: Row, e: Event)
    requires SaidBy(env, row.topic, row.raw, e) && OwnRowOrReport(env, db, records, row.topic, e)
    ensures HasLetter(env, records, row) || HasRowFor(env, db, row.topic, env.parse(row.raw).value.fields)
  {
    hide FactOf, Describes, FactSays, TimeGiven, Get, Payload;
    var t, fields := row.topic, env.parse(row.raw).value.fields;
    if HasRow(env, db, t, e) {
      if IsFactTopic(t) {
        var f := FactOf(env, e).value;
        FactOfIff(env, e, f);
        FactSaysRecord(env, t, fields, e, f);
        FactTableOf(env, e);
      } else {
        DimensionSaid(env, db, t, fields, e);
      }
    }
  }

  lemma DimensionSaid(env: Env, db: Db, t: EventType, fields: Fields, e: Event)
    requires Conveys(env, t, fields, e) && InPlace(env, db, t, e) && !IsFactTopic(t)
    ensures HasRowFor(env, db, t, fields)
  {
    hide FactSays, Get, Conveys;
    IdAndTimeSay(env, t, fields, e);
    if t == SubscriberCreated {
      WholeAt(env, t, fields, e, 2, "subscriber_id", e.body.subscriberId);
    } else {
      TextAt(env, t, fields, e, 2, "tower_id", e.body.towerId);
    }
  }
}
