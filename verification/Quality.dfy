/** The at-rest quality suites as predicates on the warehouse, and when a warehouse
    that the pipeline can reach meets them. */
module Quality {
  import opened Base
  import opened Schemas
  import opened Catalog
  import opened Rules
  import opened Events
  import opened Towers
  import opened Warehouse
  import opened Records
  import opened Processor
  import opened Protocol
  import opened Provenance
  import opened Guarantees

  // ----- the suites -----

  const CEILING: int := MINUTE
  const MAX_RECHARGE_CENTS: int := 100_000
  const MAX_SESSION_HUNDREDTHS: int := 1_024_000

  /** The suite's regular expression; its end anchor admits one final newline. */
  predicate NumberMatches(env: Env, s: string) {
    && (|s| == 11 || (|s| == 12 && s[11] == '\n'))
    && s[0] == '2' && s[1] == '7' && forall i | 2 <= i < 11 :: env.isDecimal(s[i])
  }

  predicate SubscriberSuite(env: Env, row: SubRow) {
    NumberMatches(env, row.msisdn) && OneOf(row.plan, PLANS) && OneOf(row.province, PROVINCES)
  }

  /** Amounts are in cents, volumes in hundredths of a megabyte. The suites do not
      look at the table of short messages. */
  predicate FactSuite(db: Db, f: Fact, now: int) {
    f.detail.SmsSent? ||
    (&& f.subscriberId in db.subs && f.ts <= now + CEILING
     && match f.detail
        case Recharge(cents, _) => 0 < cents <= MAX_RECHARGE_CENTS
        case BundleSale(code, cents) => code in db.seeds.bundles && cents > 0
        case CallMade(tower, _, duration, _) => tower in db.seeds.towers && 0 <= duration <= MAX_CALL_SECONDS
        case UsageSession(tower, hundredths, _, technology) =>
          && tower in db.seeds.towers && 0 < hundredths <= MAX_SESSION_HUNDREDTHS
          && OneOf(technology, TECHNOLOGIES)
        case SmsSent(_, _) => true)
  }

  predicate TowerSuite(row: TowerRow) { 0 <= row.signal <= 100 && OneOf(row.status, TOWER_STATUSES) }

  /** All suites pass when they are run at time `now`. */
  ghost predicate SuitesPass(env: Env, db: Db, now: int) {
    && DistinctKeys(db.facts)
    && (forall a, b :: a in db.subs && b in db.subs && a != b ==> db.subs[a].msisdn != db.subs[b].msisdn)
    && (forall id :: id in db.subs ==> SubscriberSuite(env, db.subs[id]))
    && (forall f :: f in db.facts ==> FactSuite(db, f, now))
    && (forall id :: id in db.towers ==> TowerSuite(db.towers[id]))
  }

  // ----- what in-stream acceptance leaves open -----

  /** Half a cent (or half a hundredth of a megabyte), and numbers of decimal digits
      only: where the stored row still shows what the rules checked. */
  predicate Visible(env: Env, e: Event) {
    match e.body
    case SubscriberBody(_, msisdn, _, _) => forall i | 2 <= i < |msisdn| :: env.isDecimal(msisdn[i])
    case AirtimeBody(_, amount, _) => amount >= 0.005
    case UsageBody(_, mb, _, _, _) => mb >= 0.005
    case _ => true
  }

  /** The event's own row is in the warehouse. */
  ghost predicate Stored(env: Env, db: Db, l: LakeRow) {
    if l.t == SubscriberCreated then
      l.event.body.SubscriberBody? &&
      var id := l.event.body.subscriberId;
      id in db.subs && SubRowOf(l.event, id, db.subs[id])
    else IsFactTopic(l.t) && FactOf(env, l.event).Some? && FactOf(env, l.event).value in db.facts
  }

  /** A positive amount is stored as its nearest hundredth, as positive exactly from half a
      cent on, and the upper limits survive the rounding. */
  lemma RoundingShows(r: real)
    requires r > 0.0
    ensures IsRounded(Round2(r), r) && Round2(r) >= 0 && (Round2(r) > 0 <==> r >= 0.005)
    ensures r <= MAX_RECHARGE ==> Round2(r) <= MAX_RECHARGE_CENTS
    ensures r <= MAX_SESSION_MB ==> Round2(r) <= MAX_SESSION_HUNDREDTHS
  {
    RoundedIff(Round2(r), r);
  }

  lemma PricesShow(code: string)
    requires code in BUNDLE_PRICES
    ensures BUNDLE_PRICES[code] >= 49.0
  {
  }

  lemma SubscriberShows(env: Env, e: Event, id: int, row: SubRow)
    requires Clean(env, e.body) && SubRowOf(e, id, row)
    ensures SubscriberSuite(env, row) <==> Visible(env, e)
  {
  }

  lemma TowerShows(env: Env, e: Event, id: string, row: TowerRow)
    requires Clean(env, e.body) && IsUpdateOf(e, id, row)
    ensures TowerSuite(row)
  {
  }

  lemma FactShows(env: Env, db: Db, e: Event, f: Fact, now: int)
    requires Clean(env, e.body) && FactOf(env, e) == Some(f)
    requires f.subscriberId in db.subs && e.ts.utc <= now + CLOCK_SKEW
    ensures FactSuite(db, f, now) ==> Visible(env, e)
    ensures Joins(db.seeds, e) && Visible(env, e) ==> FactSuite(db, f, now)
  {
    match e.body
    case AirtimeBody(_, amount, _) => RoundingShows(amount);
    case UsageBody(_, mb, _, _, _) => RoundingShows(mb);
    case BundleBody(_, code, price) =>
      PricesShow(code);
      RoundingShows(price);
    case _ =>
  }

  // ----- suites against rules, row by row -----

  /** Two-decimal amounts. */
  predicate Exact(r: real) { r * 100.0 == (r * 100.0).Floor as real }

  /** An amount column lies within bounds of whole units exactly when the amount does. */
  lemma BoundsSurvive(r: real, most: int)
    requires Exact(r)
    ensures 0 < Round2(r) <= 100 * most <==> 0.0 < r <= most as real
  {
    RoundedIff((r * 100.0).Floor, r);
  }

  /** The expectations on a fact row, told of the event it is the row of: its subscriber is
      there, it is at most a minute ahead, and it keeps the rules on amounts, durations and
      volumes; of bundles and towers that they are seeded. */
  ghost predicate Expected(db: Db, e: Event, now: int) {
    && SubscriberOf(e) in db.subs && e.ts.utc <= now + 60_000_000
    && match e.body
       case AirtimeBody(_, amount, _) => 0.0 < amount <= MAX_RECHARGE
       case BundleBody(_, code, price) => code in db.seeds.bundles && price >= 0.01
       case CallBody(_, _, duration, tower, _) => tower in db.seeds.towers && 0 <= duration <= MAX_CALL_SECONDS
       case UsageBody(_, mb, _, tower, technology) =>
         tower in db.seeds.towers && 0.0 < mb <= MAX_SESSION_MB && OneOf(technology, TECHNOLOGIES)
       case _ => false
  }

  /** With two-decimal amounts the suite of a fact table accepts exactly the rows of events
      that meet the expectations, whether they passed the rules or not. */
  lemma SuiteIsExpected(env: Env, db: Db, e: Event, f: Fact, now: int)
    requires FactOf(env, e) == Some(f) && !e.body.SmsBody?
    requires match e.body
             case AirtimeBody(_, amount, _) => Exact(amount)
             case BundleBody(_, _, price) => Exact(price)
             case UsageBody(_, mb, _, _, _) => Exact(mb)
             case _ => true
    ensures FactSuite(db, f, now) <==> Expected(db, e, now)
  {
    hide Exact, Round2;
    match e.body
    case AirtimeBody(_, amount, _) => BoundsSurvive(amount, 1000);
    case BundleBody(_, _, price) => PositiveSurvives(price);
    case UsageBody(_, mb, _, _, _) => BoundsSurvive(mb, 10240);
    case _ =>
  }

  lemma PositiveSurvives(r: real)
    requires Exact(r)
    ensures Round2(r) > 0 <==> r >= 0.01
  {
    RoundedIff((r * 100.0).Floor, r);
  }

  /** A subscriber row with an eleven-character number passes its suite exactly when its
      event would pass the rules and the number has decimal digits; one with a longer number
      passes only for a final newline. */
  lemma SubscriberSuiteIff(env: Env, id: int, row: SubRow)
    requires env.isDigit('2') && env.isDigit('7') && forall c :: env.isDecimal(c) ==> env.isDigit(c)
    ensures |row.msisdn| == 11 ==>
      (SubscriberSuite(env, row) <==> Clean(env, SubscriberBody(id, row.msisdn, row.plan, row.province))
                                      && forall i :: 2 <= i < 11 ==> env.isDecimal(row.msisdn[i]))
    ensures SubscriberSuite(env, row) && |row.msisdn| != 11 ==>
      |row.msisdn| == 12 && row.msisdn[11] == '\n' && SubscriberSuite(env, row.(msisdn := row.msisdn[..11]))
  {
    var s := row.msisdn;
    assert SubscriberSuite(env, row) && |s| == 12 ==> forall i :: 0 <= i < 11 ==> s[..11][i] == s[i];
  }

  /** A tower row passes its suite exactly when its event would pass the rules, as far as
      the table's columns say. */
  lemma TowerSuiteIff(env: Env, id: string, row: TowerRow)
    requires OneOf(id, TOWER_IDS) && row.devices >= 0
    ensures TowerSuite(row) <==> Clean(env, TowerBody(id, row.technology, row.signal, row.devices, row.status))
  {
  }

  // ----- every reachable warehouse -----

  lemma LakeEventIsVouched(p: Plan, s: Sys, l: LakeRow)
    requires Genuine(p.env, p.judge) && LakeOrigin(p, s, l)
    ensures TypeOf(l.event.body) == l.t && Clean(p.env, l.event.body) && l.event.ts.utc <= s.now + CLOCK_SKEW
  {
    var i :| 0 <= i <= s.done && i < |p.batches| && FromRow(p.judge, p.batches[i], l.t, l.event, s.now);
    FromRowIsVouched(p, p.batches[i], l.t, l.event, s.now);
  }

  lemma StoredSuites(p: Plan, s: Sys, now: int)
    requires Genuine(p.env, p.judge) && DurableTraced(p, s) && s.now <= now
    requires StoredAreVisible(p.env, s)
    ensures SuitesPass(p.env, s.db, now)
  {
    hide Clean, FactOf, Joins, Visible, FactSuite, SubscriberSuite, TowerSuite, LakeOrigin;
    forall id | id in s.db.subs ensures SubscriberSuite(p.env, s.db.subs[id]) {
      assert SubTraced(s.lake, id, s.db.subs[id]);
      var l :| l in s.lake && l.t == SubscriberCreated && SubRowOf(l.event, id, s.db.subs[id]);
      LakeEventIsVouched(p, s, l);
      SubscriberShows(p.env, l.event, id, s.db.subs[id]);
    }
    forall id | id in s.db.towers ensures TowerSuite(s.db.towers[id]) {
      assert TowerTraced(s.lake, id, s.db.towers[id]);
      var l :| l in s.lake && l.t == TowerStatus && IsUpdateOf(l.event, id, s.db.towers[id]);
      LakeEventIsVouched(p, s, l);
      TowerShows(p.env, l.event, id, s.db.towers[id]);
    }
    forall f | f in s.db.facts ensures FactSuite(s.db, f, now) {
      assert FactTraced(p.env, s.lake, s.db.seeds, f);
      var l :| l in s.lake && l.t == FactTable(f.detail) && FactOf(p.env, l.event) == Some(f) && Joins(s.db.seeds, l.event);
      LakeEventIsVouched(p, s, l);
      FactShows(p.env, s.db, l.event, f, now);
    }
  }

  lemma SuitesShowStored(p: Plan, s: Sys, now: int, l: LakeRow)
    requires Genuine(p.env, p.judge) && DurableTraced(p, s) && s.now <= now
    requires SuitesPass(p.env, s.db, now) && l in s.lake && Stored(p.env, s.db, l)
    ensures Visible(p.env, l.event)
  {
    hide Clean, FactOf, Visible, FactSuite, SubscriberSuite, LakeOrigin, Traced;
    LakeEventIsVouched(p, s, l);
    if l.t == SubscriberCreated {
      var id := l.event.body.subscriberId;
      SubscriberShows(p.env, l.event, id, s.db.subs[id]);
    } else {
      FactShows(p.env, s.db, l.event, FactOf(p.env, l.event).value, now);
    }
  }

  /** In-stream checks against at-rest quality. Whatever the schedule, a check of the
      warehouse at any later time passes every suite if and only if every event whose
      row is stored has an amount or volume of at least half a hundredth and, for a
      subscriber, a number of decimal digits. All other expectations are implied. */
  lemma AtRestQualityIff(p: Plan, s: Sys, now: int)
    requires ValidPlan(p) && Reachable(p, s) && s.now <= now
    ensures SuitesPass(p.env, s.db, now) <==> StoredAreVisible(p.env, s)
  {
    hide SuitesPass, Stored, Visible;
    ReachableTraced(p, s);
    if SuitesPass(p.env, s.db, now) {
      forall l | l in s.lake && Stored(p.env, s.db, l) ensures Visible(p.env, l.event) {
        SuitesShowStored(p, s, now, l);
      }
    }
    if StoredAreVisible(p.env, s) {
      StoredSuites(p, s, now);
    }
  }

  ghost predicate StoredAreVisible(env: Env, s: Sys) {
    forall l :: l in s.lake && Stored(env, s.db, l) ==> Visible(env, l.event)
  }

  /** Amounts and volumes written with two decimals, numbers written in ASCII. */
  ghost predicate Tidy(e: Event) {
    match e.body
    case SubscriberBody(_, msisdn, _, _) => forall i :: 0 <= i < |msisdn| ==> '0' <= msisdn[i] <= '9'
    case AirtimeBody(_, amount, _) => Exact(amount)
    case UsageBody(_, mb, _, _, _) => Exact(mb)
    case _ => true
  }

  ghost predicate AllTidy(p: Plan) {
    forall i, t, e, hi :: 0 <= i < |p.batches| && FromRow(p.judge, p.batches[i], t, e, hi) ==> Tidy(e)
  }

  ghost predicate AsciiDecimals(env: Env) {
    forall c: char :: '0' <= c <= '9' ==> env.isDecimal(c)
  }

  lemma TidyIsVisible(env: Env, e: Event)
    requires AsciiDecimals(env) && Clean(env, e.body) && Tidy(e)
    ensures Visible(env, e)
  {
  }

  /** With two-decimal amounts and ASCII numbers, every reachable warehouse passes every suite. */
  lemma TidyStreamsKeepQuality(p: Plan, s: Sys, now: int)
    requires ValidPlan(p) && Reachable(p, s) && s.now <= now
    requires AllTidy(p) && AsciiDecimals(p.env)
    ensures SuitesPass(p.env, s.db, now)
  {
    hide SuitesPass, Stored, Visible, Tidy, Clean;
    ReachableTraced(p, s);
    forall l | l in s.lake ensures Visible(p.env, l.event) {
      LakeEventIsVouched(p, s, l);
      var i :| 0 <= i <= s.done && i < |p.batches| && FromRow(p.judge, p.batches[i], l.t, l.event, s.now);
      TidyIsVisible(p.env, l.event);
    }
    AtRestQualityIff(p, s, now);
  }

  /** A recharge of 0.004 passes the rules and is stored as nothing. */
  lemma TinyRechargeStoredAsZero(env: Env, id: string, subscriber: int, ts: Stamp, source: Json)
    requires env.uuid(id).Some?
    ensures var e := Event(id, 1, ts, AirtimeBody(subscriber, 0.004, "Voucher"), source);
      && Clean(env, e.body) && FactOf(env, e).Some? && FactOf(env, e).value.detail == Recharge(0, "Voucher")
      && forall db: Db, now :: !FactSuite(db, FactOf(env, e).value, now)
  {
    assert PAYMENT_METHODS[0] == "Voucher";
  }

  /** A number with a digit that is not a decimal digit (such as a superscript two)
      passes the rule and fails the suite's expression. */
  lemma SuperscriptNumberFails(env: Env, c: char)
    requires env.isDigit('2') && env.isDigit('7') && env.isDigit(c) && !env.isDecimal(c)
    ensures var s := ['2', '7', c, c, c, c, c, c, c, c, c]; MsisdnValid(env, s) && !NumberMatches(env, s)
  {
    var s := ['2', '7', c, c, c, c, c, c, c, c, c];
    assert s[2] == c;
  }

  // ----- inner joins -----

  /** Inner joins drop nothing: after the insert an accepted event whose subscriber is
      known has exactly one row in its fact table. */
  lemma InnerJoinsDropNothing(env: Env, seeds: Seeds, facts: seq<Fact>, events: seq<Event>, e: Event) returns (i: nat)
    requires SeedsMatch(seeds) && DistinctKeys(facts) && InsertAll(env, seeds, facts, events).Some?
    requires e in events && Clean(env, e.body)
    ensures FactOf(env, e).Some?
    ensures var after, k := InsertAll(env, seeds, facts, events).value, Key(FactOf(env, e).value);
      i < |after| && Key(after[i]) == k && forall j :: 0 <= j < |after| && Key(after[j]) == k ==> j == i
  {
    hide FactOf, Joins, Clean;
    var after := InsertAll(env, seeds, facts, events).value;
    AcceptedJoins(env, seeds, e);
    InsertGrows(env, seeds, facts, events);
    assert Landed(env, seeds, after, e);
    var f :| f in after && Key(f) == Key(FactOf(env, e).value);
    i :| 0 <= i < |after| && after[i] == f;
  }
}
