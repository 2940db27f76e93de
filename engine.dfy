/**
 * `AlertsDomainService`: the engine that runs the six rules for one reading
 * against the store, writes an alert point for every rule that matches and
 * returns the number of the last rule that matched.
 */
module AlertsDomain {
  import opened Wrappers
  import opened TimeSeries
  import opened AlertRules

  /** The rules in the order `CheckAllRulesAsync` runs them. */
  const ALL_RULES: seq<RuleId> := [1, 2, 3, 4, 5, 6]

  // ---------------------------------------------------------------------------
  // Specification: one rule, then all of them, as transformers of the store
  // ---------------------------------------------------------------------------

  /** Rule `k` run against the store: its queries are recorded, and a match attempts one write. */
  function RuleStep(k: RuleId, reading: SensorReading, st: StoreState): (Result<bool, Failure>, StoreState) {
    var queried := st.(issued := st.issued + IssuedBy(k, reading, st.answers));
    match Decision(k, reading, st.answers)
    case Err(e) => (Err(e), queried)
    case Ok(false) => (Ok(false), queried)
    case Ok(true) =>
      var p := Alert(k, reading);
      (if WriteAccepted(queried) then Ok(true) else Err(WriteFailed(p)), AfterWrite(queried, p))
  }

  /** The rules run one after the other; a match overwrites the status; an exception stops the run. */
  function Run(rules: seq<RuleId>, reading: SensorReading, st: StoreState, status: byte): (Result<byte, Failure>, StoreState)
    decreases |rules|
  {
    if rules == [] then (Ok(status), st)
    else
      var (r, st') := RuleStep(rules[0], reading, st);
      match r
      case Err(e) => (Err(e), st')
      case Ok(m) => Run(rules[1..], reading, st', if m then rules[0] as byte else status)
  }

  /** Running `a + b` is running `a`, then, unless it threw, `b` from where `a` left the store and the status. */
  lemma {:induction false} RunAppend(a: seq<RuleId>, b: seq<RuleId>, reading: SensorReading, st: StoreState, status: byte)
    ensures Run(a + b, reading, st, status) ==
      match Run(a, reading, st, status)
      case (Err(e), st') => (Err(e), st')
      case (Ok(s), st') => Run(b, reading, st', s)
    decreases |a|
  {
    if a == [] {
      assert a + b == b;
    } else {
      assert (a + b)[1..] == a[1..] + b;
      var (r, st') := RuleStep(a[0], reading, st);
      if r.Ok? {
        RunAppend(a[1..], b, reading, st', if r.value then a[0] as byte else status);
      }
    }
  }

  /** The six rules run as rules 1 to 3 followed by rules 4 to 6. */
  lemma RunInHalves(reading: SensorReading, st: StoreState, status: byte, r: Result<byte, Failure>, st': StoreState)
    requires (r, st') == Run([1, 2, 3], reading, st, status)
    ensures r.Err? ==> Run(ALL_RULES, reading, st, status) == (r, st')
    ensures r.Ok? ==> Run(ALL_RULES, reading, st, status) == Run([4, 5, 6], reading, st', r.value)
  {
    var a, b: seq<RuleId> := [1, 2, 3], [4, 5, 6];
    assert ALL_RULES == a + b by { assert |a + b| == 6; }
    RunAppend(a, b, reading, st, status);
  }

  // ---------------------------------------------------------------------------
  // Reference definitions the run is measured against
  // ---------------------------------------------------------------------------

  /** One alert per matching rule, in rule order. */
  function MatchedAlerts(rules: seq<RuleId>, reading: SensorReading, answers: map<Query, QueryAnswer>): seq<AlertPoint> {
    if rules == [] then []
    else (if Matches(rules[0], reading, answers) then [Alert(rules[0], reading)] else [])
         + MatchedAlerts(rules[1..], reading, answers)
  }

  /** Every query of every rule, in rule order. */
  function QueriesOf(rules: seq<RuleId>, reading: SensorReading, answers: map<Query, QueryAnswer>): seq<Query> {
    if rules == [] then [] else IssuedBy(rules[0], reading, answers) + QueriesOf(rules[1..], reading, answers)
  }

  ghost predicate AllDecide(rules: seq<RuleId>, reading: SensorReading, answers: map<Query, QueryAnswer>) {
    forall i :: 0 <= i < |rules| ==> Decision(rules[i], reading, answers).Ok?
  }

  /** The next `n` write attempts all succeed. */
  ghost predicate NextWritesAccepted(st: StoreState, n: nat) {
    forall a :: a in st.failingWrites ==> !(st.writeAttempts <= a < st.writeAttempts + n)
  }

  /** The largest rule number up to `n` whose rule matches, searched from the top; 0 when none does. */
  function HighestMatch(n: nat, reading: SensorReading, answers: map<Query, QueryAnswer>): (h: nat)
    requires n <= 6
    ensures h <= n
    ensures h == 0 ==> forall k: RuleId :: k <= n ==> !Matches(k, reading, answers)
    ensures h > 0 ==> Matches(h, reading, answers) && forall k: RuleId :: h < k <= n ==> !Matches(k, reading, answers)
  {
    if n == 0 then 0
    else if Matches(n, reading, answers) then n
    else HighestMatch(n - 1, reading, answers)
  }

  // ---------------------------------------------------------------------------
  // What a run does
  // ---------------------------------------------------------------------------

  /** Rule `k` leaves the query answers and the failing writes alone, and adds its own queries. */
  lemma RuleStepFrame(k: RuleId, reading: SensorReading, st: StoreState)
    ensures RuleStep(k, reading, st).1.answers == st.answers
    ensures RuleStep(k, reading, st).1.failingWrites == st.failingWrites
    ensures RuleStep(k, reading, st).1.issued == st.issued + IssuedBy(k, reading, st.answers)
  {
  }

  lemma ConcatAssoc<T>(a: seq<T>, b: seq<T>, c: seq<T>)
    ensures a + (b + c) == (a + b) + c
  {
  }

  /** One rule's writes: an alert point exactly when it matches, kept only when the write is accepted. */
  lemma RuleStepWrites(k: RuleId, reading: SensorReading, st: StoreState)
    ensures var (r, st') := RuleStep(k, reading, st);
      (r.Ok? ==> r.value == Matches(k, reading, st.answers) &&
                 st'.points == st.points + (if r.value then [Alert(k, reading)] else []) &&
                 st'.writeAttempts == st.writeAttempts + (if r.value then 1 else 0)) &&
      (r.Err? ==> st'.points == st.points)
  {
  }

  /** A run only ever adds points, the alerts of the matching rules in rule order; when it completes, all of them. */
  lemma {:induction false} RunWritesMatchedAlerts(rules: seq<RuleId>, reading: SensorReading, st: StoreState, status: byte)
    ensures var (r, st') := Run(rules, reading, st, status);
      st.points <= st'.points && st'.points <= st.points + MatchedAlerts(rules, reading, st.answers) &&
      (r.Ok? ==> st'.points == st.points + MatchedAlerts(rules, reading, st.answers) &&
                 st'.writeAttempts == st.writeAttempts + |MatchedAlerts(rules, reading, st.answers)|)
    decreases |rules|
  {
    if rules != [] {
      var k := rules[0];
      var (r1, st1) := RuleStep(k, reading, st);
      RuleStepFrame(k, reading, st);
      RuleStepWrites(k, reading, st);
      if r1.Ok? {
        RunWritesMatchedAlerts(rules[1..], reading, st1, if r1.value then k as byte else status);
        var head := if r1.value then [Alert(k, reading)] else [];
        var rest := MatchedAlerts(rules[1..], reading, st.answers);
        assert MatchedAlerts(rules, reading, st.answers) == head + rest;
        ConcatAssoc(st.points, head, rest);
      }
    }
  }

  /** A run issues the queries of its rules in rule order, up to the one that fails; all of them when it completes. */
  lemma {:induction false} RunIssuesQueries(rules: seq<RuleId>, reading: SensorReading, st: StoreState, status: byte)
    ensures var (r, st') := Run(rules, reading, st, status);
      st'.answers == st.answers && st'.failingWrites == st.failingWrites &&
      st.issued <= st'.issued && st'.issued <= st.issued + QueriesOf(rules, reading, st.answers) &&
      (r.Ok? ==> st'.issued == st.issued + QueriesOf(rules, reading, st.answers))
    decreases |rules|
  {
    if rules != [] {
      var k := rules[0];
      var (r1, st1) := RuleStep(k, reading, st);
      RuleStepFrame(k, reading, st);
      assert st.issued + QueriesOf(rules, reading, st.answers)
          == st1.issued + QueriesOf(rules[1..], reading, st.answers);
      if r1.Ok? {
        RunIssuesQueries(rules[1..], reading, st1, if r1.value then k as byte else status);
      }
    }
  }

  /**
   * A failure in a later rule takes back no alert: once the rules `a` have
   * completed, their alerts stay in the store whatever the rules `b` after them do.
   */
  lemma RunKeepsEarlierAlerts(a: seq<RuleId>, b: seq<RuleId>, reading: SensorReading, st: StoreState, status: byte)
    requires Run(a, reading, st, status).0.Ok?
    ensures st.points + MatchedAlerts(a, reading, st.answers) <= Run(a + b, reading, st, status).1.points
  {
    RunAppend(a, b, reading, st, status);
    RunWritesMatchedAlerts(a, reading, st, status);
    RunIssuesQueries(a, reading, st, status);
    var (r1, st1) := Run(a, reading, st, status);
    RunWritesMatchedAlerts(b, reading, st1, r1.value);
  }

  /** For `CheckAllRulesAsync`: when the first `i` rules have completed, their alerts are in the store at the end. */
  lemma CheckAllRulesKeepsEarlierAlerts(i: nat, reading: SensorReading, st: StoreState)
    requires i <= |ALL_RULES|
    requires Run(ALL_RULES[..i], reading, st, 0).0.Ok?
    ensures st.points + MatchedAlerts(ALL_RULES[..i], reading, st.answers) <= Run(ALL_RULES, reading, st, 0).1.points
  {
    assert ALL_RULES == ALL_RULES[..i] + ALL_RULES[i..];
    RunKeepsEarlierAlerts(ALL_RULES[..i], ALL_RULES[i..], reading, st, 0);
  }

  lemma NextWritesSame(st: StoreState, st': StoreState, n: nat)
    requires st'.failingWrites == st.failingWrites && st'.writeAttempts == st.writeAttempts
    ensures NextWritesAccepted(st', n) <==> NextWritesAccepted(st, n)
  {
  }

  /** The next `n + 1` writes succeed exactly when this one does and, after it, the next `n`. */
  lemma NextWritesAfterOne(st: StoreState, st': StoreState, n: nat)
    requires st'.failingWrites == st.failingWrites && st'.writeAttempts == st.writeAttempts + 1
    ensures NextWritesAccepted(st, n + 1) <==> WriteAccepted(st) && NextWritesAccepted(st', n)
  {
    if NextWritesAccepted(st, n + 1) {
      assert WriteAccepted(st);
    }
  }

  /**
   * A run completes exactly when every rule decides without an exception and
   * none of the writes for the matching rules is rejected.
   */
  lemma {:induction false} RunOkIff(rules: seq<RuleId>, reading: SensorReading, st: StoreState, status: byte)
    ensures Run(rules, reading, st, status).0.Ok? <==>
      AllDecide(rules, reading, st.answers) &&
      NextWritesAccepted(st, |MatchedAlerts(rules, reading, st.answers)|)
    decreases |rules|
  {
    if rules != [] {
      var k := rules[0];
      var (r1, st1) := RuleStep(k, reading, st);
      var n := |MatchedAlerts(rules[1..], reading, st.answers)|;
      assert AllDecide(rules, reading, st.answers) <==>
        Decision(k, reading, st.answers).Ok? && AllDecide(rules[1..], reading, st.answers)
      by {
        assert forall i :: 1 <= i < |rules| ==> rules[i] == rules[1..][i - 1];
      }
      RuleStepFrame(k, reading, st);
      RuleStepWrites(k, reading, st);
      match Decision(k, reading, st.answers)
      case Err(_) =>
      case Ok(false) =>
        assert |MatchedAlerts(rules, reading, st.answers)| == n;
        RunOkIff(rules[1..], reading, st1, status);
        NextWritesSame(st, st1, n);
      case Ok(true) =>
        assert |MatchedAlerts(rules, reading, st.answers)| == n + 1;
        NextWritesAfterOne(st, st1, n);
        if WriteAccepted(st) {
          RunOkIff(rules[1..], reading, st1, k as byte);
        }
    }
  }

  /**
   * Over the rules from the `i`-th on, a completed run returns `h`, the highest
   * matching rule number, when it lies in that range, and the status it was
   * given otherwise.
   */
  lemma {:induction false} RunStatusFrom(i: nat, h: nat, reading: SensorReading, st: StoreState, status: byte)
    requires i <= |ALL_RULES| && h <= 6
    requires h > 0 ==> Matches(h, reading, st.answers)
    requires forall k: RuleId :: h < k ==> !Matches(k, reading, st.answers)
    ensures var (r, _) := Run(ALL_RULES[i..], reading, st, status);
      r.Ok? ==> r.value == if h > i then h as byte else status
    decreases |ALL_RULES| - i
  {
    if i < |ALL_RULES| {
      var k := ALL_RULES[i];
      assert ALL_RULES[i..][1..] == ALL_RULES[i + 1..];
      assert k == i + 1;
      var (r1, st1) := RuleStep(k, reading, st);
      RuleStepFrame(k, reading, st);
      if r1.Ok? {
        assert r1.value == Matches(k, reading, st.answers);
        RunStatusFrom(i + 1, h, reading, st1, if r1.value then k as byte else status);
      }
    }
  }

  /** `CheckAllRulesAsync` returns the number of the last matching rule, 0 when none matches. */
  lemma RunReportsLastMatch(reading: SensorReading, st: StoreState)
    ensures var (r, _) := Run(ALL_RULES, reading, st, 0);
      r.Ok? ==> r.value == HighestMatch(6, reading, st.answers) as byte
  {
    assert ALL_RULES[0..] == ALL_RULES;
    RunStatusFrom(0, HighestMatch(6, reading, st.answers), reading, st, 0);
  }

  /** Every alert point has the alert shape and the message of its rule. */
  lemma {:induction false} MatchedAlertsWellFormed(rules: seq<RuleId>, reading: SensorReading, answers: map<Query, QueryAnswer>)
    ensures forall p :: p in MatchedAlerts(rules, reading, answers) ==>
      IsAlertFor(p, reading) && exists k: RuleId :: p.fields["message"] == AlertMessage(k, reading)
    decreases |rules|
  {
    if rules != [] {
      MatchedAlertsWellFormed(rules[1..], reading, answers);
      AlertShape(rules[0], reading);
    }
  }

  // ---------------------------------------------------------------------------
  // The engine
  // ---------------------------------------------------------------------------

  class AlertsDomainService {
    const influxDb: InfluxStore

    constructor (influxDb: InfluxStore)
      ensures this.influxDb == influxDb
    {
      this.influxDb := influxDb;
    }

    /**
     * `CheckAllRulesAsync`: all six rules in order, starting from status 0; each
     * match overwrites the status, and the first exception ends the run. The six
     * statements are grouped three by three into two methods below.
     */
    method CheckAllRules(reading: SensorReading) returns (r: Result<byte, Failure>)
      modifies influxDb
      ensures (r, influxDb.State()) == Run(ALL_RULES, reading, old(influxDb.State()), 0)
    {
      var first := CheckRulesOneToThree(reading, 0);
      RunInHalves(reading, old(influxDb.State()), 0, first, influxDb.State());
      if first.Err? { return Err(first.error); }
      r := CheckRulesFourToSix(reading, first.value);
    }

    /** Statements 1 to 3 of `CheckAllRulesAsync`, from the given status. */
    method CheckRulesOneToThree(reading: SensorReading, status: byte) returns (r: Result<byte, Failure>)
      modifies influxDb
      ensures (r, influxDb.State()) == Run([1, 2, 3], reading, old(influxDb.State()), status)
    {
      var status := status;
      var m := CheckDroughtAlert(reading);
      if m.Err? { return Err(m.error); }
      if m.value { status := 1; }
      m := CheckPlagueRisk(reading);
      if m.Err? { return Err(m.error); }
      if m.value { status := 2; }
      m := CheckSensorWithLowDataQuality(reading);
      if m.Err? { return Err(m.error); }
      if m.value { status := 3; }
      r := Ok(status);
    }

    /** Statements 4 to 6 of `CheckAllRulesAsync`, from the status the first three left. */
    method CheckRulesFourToSix(reading: SensorReading, status: byte) returns (r: Result<byte, Failure>)
      modifies influxDb
      ensures (r, influxDb.State()) == Run([4, 5, 6], reading, old(influxDb.State()), status)
    {
      var status := status;
      var m := CheckHeatWave(reading);
      if m.Err? { return Err(m.error); }
      if m.value { status := 4; }
      m := CheckHighProbabilityOfFungalDiseases(reading);
      if m.Err? { return Err(m.error); }
      if m.value { status := 5; }
      m := CheckHighAcidityWithPotentialForReducedNutrientAbsorption(reading);
      if m.Err? { return Err(m.error); }
      if m.value { status := 6; }
      r := Ok(status);
    }

    /** Builds the alert point of `reading` and writes it. */
    method WriteAlert(reading: SensorReading, message: string) returns (r: Result<bool, Failure>)
      modifies influxDb
      ensures var p := BuildAlert(reading, message);
        r == (if WriteAccepted(old(influxDb.State())) then Ok(true) else Err(WriteFailed(p))) &&
        influxDb.State() == AfterWrite(old(influxDb.State()), p)
    {
      var p := BuildAlert(reading, message);
      var ok := influxDb.WritePointData(p);
      r := if ok then Ok(true) else Err(WriteFailed(p));
    }

    /** Rule 1, drought. */
    method CheckDroughtAlert(reading: SensorReading) returns (r: Result<bool, Failure>)
      modifies influxDb
      ensures (r, influxDb.State()) == RuleStep(DROUGHT, reading, old(influxDb.State()))
    {
      var q := DroughtQuery(reading.fieldId);
      var answer := influxDb.RunQuery(q);
      if answer.Unavailable? { return Err(QueryFailed(q)); }
      var decision := DroughtDecision(answer.tables);
      if decision.Err? { return Err(decision.error); }
      if !decision.value { return Ok(false); }
      r := WriteAlert(reading, AlertMessage(DROUGHT, reading));
    }

    /** Rule 2, plague risk. */
    method CheckPlagueRisk(reading: SensorReading) returns (r: Result<bool, Failure>)
      modifies influxDb
      ensures (r, influxDb.State()) == RuleStep(PLAGUE_RISK, reading, old(influxDb.State()))
    {
      var q := PlagueQuery(reading.sensorClientId);
      var answer := influxDb.RunQuery(q);
      if answer.Unavailable? { return Err(QueryFailed(q)); }
      if !PlagueRiskDecision(answer.tables) { return Ok(false); }
      r := WriteAlert(reading, AlertMessage(PLAGUE_RISK, reading));
    }

    /** Rule 3, low data quality. */
    method CheckSensorWithLowDataQuality(reading: SensorReading) returns (r: Result<bool, Failure>)
      modifies influxDb
      ensures (r, influxDb.State()) == RuleStep(LOW_DATA_QUALITY, reading, old(influxDb.State()))
    {
      var q := DataQualityQuery(reading.sensorClientId);
      var answer := influxDb.RunQuery(q);
      if answer.Unavailable? { return Err(QueryFailed(q)); }
      var decision := LowDataQualityDecision(answer.tables);
      if decision.Err? { return Err(decision.error); }
      if !decision.value { return Ok(false); }
      r := WriteAlert(reading, AlertMessage(LOW_DATA_QUALITY, reading));
    }

    /** Rule 4, heat wave: both queries are issued before either result is read. */
    method CheckHeatWave(reading: SensorReading) returns (r: Result<bool, Failure>)
      modifies influxDb
      ensures (r, influxDb.State()) == RuleStep(HEAT_WAVE, reading, old(influxDb.State()))
    {
      var q := TemperatureQuery(reading.sensorClientId);
      var temperatures := influxDb.RunQuery(q);
      if temperatures.Unavailable? { return Err(QueryFailed(q)); }
      var forecast := influxDb.RunQuery(ForecastQuery);
      assert influxDb.issued == old(influxDb.issued) + IssuedBy(HEAT_WAVE, reading, influxDb.answers);
      if forecast.Unavailable? { return Err(QueryFailed(ForecastQuery)); }
      var decision := HeatWaveDecision(temperatures.tables, forecast.tables);
      if decision.Err? { return Err(decision.error); }
      if !decision.value { return Ok(false); }
      r := WriteAlert(reading, AlertMessage(HEAT_WAVE, reading));
    }

    /** Rule 5, fungal disease. */
    method CheckHighProbabilityOfFungalDiseases(reading: SensorReading) returns (r: Result<bool, Failure>)
      modifies influxDb
      ensures (r, influxDb.State()) == RuleStep(FUNGAL_DISEASE, reading, old(influxDb.State()))
    {
      var q := FungalQuery(reading.sensorClientId);
      var answer := influxDb.RunQuery(q);
      if answer.Unavailable? { return Err(QueryFailed(q)); }
      if !FungalDiseaseDecision(answer.tables) { return Ok(false); }
      r := WriteAlert(reading, AlertMessage(FUNGAL_DISEASE, reading));
    }

    /** Rule 6, high acidity: the reading alone, no query. */
    method CheckHighAcidityWithPotentialForReducedNutrientAbsorption(reading: SensorReading) returns (r: Result<bool, Failure>)
      modifies influxDb
      ensures (r, influxDb.State()) == RuleStep(HIGH_ACIDITY, reading, old(influxDb.State()))
    {
      assert old(influxDb.issued) + IssuedBy(HIGH_ACIDITY, reading, influxDb.answers) == old(influxDb.issued);
      if !HighAcidityDecision(reading) { return Ok(false); }
      r := WriteAlert(reading, AlertMessage(HIGH_ACIDITY, reading));
    }
  }
}
