/**
 * The six agronomic rules of `AlertsDomainService` as pure decisions: what each
 * rule concludes from the query answers and the reading, the text of the alert
 * it writes when it matches, and the queries it issues.
 */
module AlertRules {
  import opened Wrappers
  import opened NumberText
  import opened FluxTables
  import opened TimeSeries

  /** `ReceivedSensorDataEvent`; identifiers are kept as their `ToString()` text. */
  datatype SensorReading = SensorReading(
    sensorClientId: string,
    fieldId: string,
    timestamp: int,
    soilMoisturePercent: real,
    airTemperatureC: real,
    airHumidityPercent: real,
    soilPH: real,
    precipitationMm: real,
    windSpeedKmh: real,
    dataQualityScore: real,
    correlationId: string)

  /** The exceptions a rule can let escape. */
  datatype Failure =
    | QueryFailed(query: Query)      // the store could not answer
    | WriteFailed(point: AlertPoint) // the store rejected the alert point
    | MissingValue                   // the first record has no `_value` column
    | NullValue                      // its `_value` is null, so `ToString()` throws
    | FormatError(text: string)      // the number parser rejected the text

  /** The byte `CheckAllRulesAsync` returns. */
  newtype byte = x: int | 0 <= x < 256

  /** Rule numbers, in evaluation order. */
  type RuleId = k: int | 1 <= k <= 6 witness 1

  const DROUGHT: RuleId := 1
  const PLAGUE_RISK: RuleId := 2
  const LOW_DATA_QUALITY: RuleId := 3
  const HEAT_WAVE: RuleId := 4
  const FUNGAL_DISEASE: RuleId := 5
  const HIGH_ACIDITY: RuleId := 6

  // ---------------------------------------------------------------------------
  // Reading the first value of a query result
  // ---------------------------------------------------------------------------

  /** `record.Values["_value"].ToString()`. */
  function ValueText(record: FluxRecord): Result<string, Failure> {
    match ValueOf(record)
    case None => Err(MissingValue)
    case Some(Null) => Err(NullValue)
    case Some(Text(t)) => Ok(t)
  }

  /** `Parse(text)`: a `FormatException` where the text is not a number. */
  function Parse(text: string): Result<real, Failure> {
    match ParseNumber(text)
    case None => Err(FormatError(text))
    case Some(x) => Ok(x)
  }

  /** `Parse(tables.SelectMany(t => t.Records).FirstOrDefault()?.Values["_value"].ToString() ?? fallback)`. */
  function FirstValue(tables: seq<FluxTable>, fallback: string): Result<real, Failure> {
    match FirstOrDefault(tables)
    case None => Parse(fallback)
    case Some(record) =>
      var text :- ValueText(record);
      Parse(text)
  }

  // ---------------------------------------------------------------------------
  // The six decisions
  // ---------------------------------------------------------------------------

  /** Rule 1: the minimum soil moisture of the last 24 hours, 30 when there is none. */
  function DroughtDecision(tables: seq<FluxTable>): Result<bool, Failure> {
    var moisture :- FirstValue(tables, "30");
    Ok(!(moisture >= 30.0))
  }

  /** Rule 2: the store's pivot-and-filter returned a row. */
  function PlagueRiskDecision(tables: seq<FluxTable>): bool {
    |Flatten(tables)| != 0
  }

  /**
   * Rule 3: the minimum data-quality score of the last 6 hours, cut at the first
   * '.' and then at the first ',' before it is parsed; "70" when there is none.
   */
  function LowDataQualityDecision(tables: seq<FluxTable>): Result<bool, Failure> {
    var text :- match FirstOrDefault(tables)
                case None => Ok("70")
                case Some(record) =>
                  var t :- ValueText(record);
                  Ok(IntegerPart(t));
    var score :- Parse(text);
    Ok(!(score >= 70.0))
  }

  /**
   * Rule 4: the first temperature record of the last 3 days (35 when there is
   * none) and the maximum rain probability of the next 3 days (61 when there is
   * none). As in `a && b`, the forecast is read only once the heat test holds.
   */
  function HeatWaveDecision(temperatures: seq<FluxTable>, forecast: seq<FluxTable>): Result<bool, Failure> {
    var temperature :- FirstValue(temperatures, "35");
    if !(temperature >= 35.0) then Ok(false)
    else
      var rain :- FirstValue(forecast, "61");
      Ok(rain <= 60.0)
  }

  /** Rule 5: the store's pivot-and-filter returned a row. */
  function FungalDiseaseDecision(tables: seq<FluxTable>): bool {
    |Flatten(tables)| != 0
  }

  /** Rule 6: the reading alone, no query. */
  predicate HighAcidityDecision(reading: SensorReading) {
    reading.soilPH < 5.0 && reading.soilMoisturePercent > 60.0
  }

  // ---------------------------------------------------------------------------
  // Queries and decisions per rule, against the store's answers
  // ---------------------------------------------------------------------------

  function AnswerOrFail(answers: map<Query, QueryAnswer>, q: Query): Result<seq<FluxTable>, Failure> {
    match AnswerTo(answers, q)
    case Unavailable => Err(QueryFailed(q))
    case Tables(t) => Ok(t)
  }

  function DroughtCheck(reading: SensorReading, answers: map<Query, QueryAnswer>): Result<bool, Failure> {
    var t :- AnswerOrFail(answers, DroughtQuery(reading.fieldId));
    DroughtDecision(t)
  }

  function PlagueRiskCheck(reading: SensorReading, answers: map<Query, QueryAnswer>): Result<bool, Failure> {
    var t :- AnswerOrFail(answers, PlagueQuery(reading.sensorClientId));
    Ok(PlagueRiskDecision(t))
  }

  function LowDataQualityCheck(reading: SensorReading, answers: map<Query, QueryAnswer>): Result<bool, Failure> {
    var t :- AnswerOrFail(answers, DataQualityQuery(reading.sensorClientId));
    LowDataQualityDecision(t)
  }

  /** Both queries are answered before either result is read. */
  function HeatWaveCheck(reading: SensorReading, answers: map<Query, QueryAnswer>): Result<bool, Failure> {
    var t :- AnswerOrFail(answers, TemperatureQuery(reading.sensorClientId));
    var w :- AnswerOrFail(answers, ForecastQuery);
    HeatWaveDecision(t, w)
  }

  function FungalDiseaseCheck(reading: SensorReading, answers: map<Query, QueryAnswer>): Result<bool, Failure> {
    var t :- AnswerOrFail(answers, FungalQuery(reading.sensorClientId));
    Ok(FungalDiseaseDecision(t))
  }

  /** What rule `k` decides for `reading`, or the exception it throws. */
  function Decision(k: RuleId, reading: SensorReading, answers: map<Query, QueryAnswer>): Result<bool, Failure> {
    match k
    case 1 => DroughtCheck(reading, answers)
    case 2 => PlagueRiskCheck(reading, answers)
    case 3 => LowDataQualityCheck(reading, answers)
    case 4 => HeatWaveCheck(reading, answers)
    case 5 => FungalDiseaseCheck(reading, answers)
    case 6 => Ok(HighAcidityDecision(reading))
  }

  predicate Matches(k: RuleId, reading: SensorReading, answers: map<Query, QueryAnswer>) {
    Decision(k, reading, answers) == Ok(true)
  }

  /** The queries rule `k` issues, up to and including one that fails. */
  function IssuedBy(k: RuleId, reading: SensorReading, answers: map<Query, QueryAnswer>): seq<Query> {
    var sid, fid := reading.sensorClientId, reading.fieldId;
    match k
    case 1 => [DroughtQuery(fid)]
    case 2 => [PlagueQuery(sid)]
    case 3 => [DataQualityQuery(sid)]
    case 4 =>
      if AnswerTo(answers, TemperatureQuery(sid)).Unavailable? then [TemperatureQuery(sid)]
      else [TemperatureQuery(sid), ForecastQuery]
    case 5 => [FungalQuery(sid)]
    case 6 => []
  }

  // ---------------------------------------------------------------------------
  // The alert point
  // ---------------------------------------------------------------------------

  /** "The field with ID {a} and the sensor with ID {b}" + tail. */
  function FieldFirst(a: string, b: string, tail: string): string {
    "The field with ID " + a + " and the sensor with ID " + b + tail
  }

  /** "The Sensor with Id {a} in the Field with Id {b}" + tail. */
  function SensorFirst(a: string, b: string, tail: string): string {
    "The Sensor with Id " + a + " in the Field with Id " + b + tail
  }

  const DROUGHT_TAIL: string := " are at risk of drying out!"
  const PLAGUE_TAIL: string := " present a pest!"

  /** The `message` field of rule `k`'s alert; rule 2 passes the identifiers the other way round. */
  function AlertMessage(k: RuleId, reading: SensorReading): string {
    var sid, fid := reading.sensorClientId, reading.fieldId;
    match k
    case 1 => FieldFirst(fid, sid, DROUGHT_TAIL)
    case 2 => FieldFirst(sid, fid, PLAGUE_TAIL)
    case 3 => SensorFirst(sid, fid, " has low data quality!")
    case 4 => SensorFirst(sid, fid, " detected an upcoming heat wave.")
    case 5 => SensorFirst(sid, fid, " detected a High Probability of Fungal Diseases.")
    case 6 =>
      "The Field with Id " + fid + " and with Sensor Id " + sid
      + " is at risk of high acidity with potential for reduced nutrient absorption!"
  }

  /** The `PointData` every rule builds: measurement, two tags, one field, the reading's time. */
  function BuildAlert(reading: SensorReading, message: string): AlertPoint {
    AlertPoint(
      "alerts",
      map["sensor_client_id" := reading.sensorClientId, "field_id" := reading.fieldId],
      map["message" := message],
      reading.timestamp)
  }

  function Alert(k: RuleId, reading: SensorReading): AlertPoint {
    BuildAlert(reading, AlertMessage(k, reading))
  }

  /** The shape every alert point has. */
  ghost predicate IsAlertFor(p: AlertPoint, reading: SensorReading) {
    p.measurement == "alerts" &&
    p.tags.Keys == {"sensor_client_id", "field_id"} &&
    p.tags["sensor_client_id"] == reading.sensorClientId &&
    p.tags["field_id"] == reading.fieldId &&
    p.fields.Keys == {"message"} &&
    p.timestamp == reading.timestamp
  }

  lemma AlertShape(k: RuleId, reading: SensorReading)
    ensures IsAlertFor(Alert(k, reading), reading)
    ensures Alert(k, reading).fields["message"] == AlertMessage(k, reading)
  {
  }
}
