/**
 * What each rule decision means: its threshold and boundary, the default it
 * falls back on when the query returns no record, and the texts it rejects.
 */
module RuleProperties {
  import opened Wrappers
  import opened NumberText
  import opened FluxTables
  import opened TimeSeries
  import opened AlertRules

  /** A query result of one table holding one record whose `_value` has the text `text`. */
  function OneValue(text: string): seq<FluxTable> {
    [FluxTable([FluxRecord(map[VALUE_COLUMN := Text(text)])])]
  }

  lemma OneValueFirst(text: string)
    ensures FirstOrDefault(OneValue(text)).Some?
    ensures ValueOf(FirstOrDefault(OneValue(text)).value) == Some(Text(text))
  {
    assert Flatten(OneValue(text)) == [FluxRecord(map[VALUE_COLUMN := Text(text)])];
  }

  // The literals below draw on the parser one at a time: each is its own lemma.

  /** The fallback text of rule 1. */
  lemma DroughtFallbackParses()
    ensures Parse("30") == Ok(30.0)
  {
    ParseWhole("30");
  }

  /** The fallback text of rule 3. */
  lemma DataQualityFallbackParses()
    ensures Parse("70") == Ok(70.0)
  {
    ParseWhole("70");
  }

  /** The fallback text of rule 4 for the temperature. */
  lemma TemperatureFallbackParses()
    ensures Parse("35") == Ok(35.0)
  {
    ParseWhole("35");
  }

  /** The fallback text of rule 4 for the rain probability. */
  lemma ForecastFallbackParses()
    ensures Parse("61") == Ok(61.0)
  {
    ParseWhole("61");
  }

  lemma Parses29_999()
    ensures ParseNumber("29.999") == Some(29.999)
  {
    ParseDecimal("29", "999");
    assert "29" + "." + "999" == "29.999";
    assert DigitsValue("999") == 999 && Pow10(3) == 1000;
  }

  lemma Parses69_9()
    ensures ParseNumber("69.9") == Some(69.9)
  {
    ParseDecimal("69", "9");
    assert "69" + "." + "9" == "69.9";
  }

  lemma Parses70_9()
    ensures ParseNumber("70.9") == Some(70.9)
  {
    ParseDecimal("70", "9");
    assert "70" + "." + "9" == "70.9";
  }

  // Rule 1 -------------------------------------------------------------------

  /** No record: the fallback 30 is not below 30, so drought never matches. */
  lemma DroughtNoDataNeverMatches(tables: seq<FluxTable>)
    requires forall i :: 0 <= i < |tables| ==> tables[i].records == []
    ensures DroughtDecision(tables) == Ok(false)
  {
    NoFirstIffAllEmpty(tables);
    DroughtFallbackParses();
  }

  /** With a record, drought matches exactly when its value is strictly below 30. */
  lemma DroughtReadsFirstRecord(tables: seq<FluxTable>, text: string, x: real)
    requires FirstOrDefault(tables).Some?
    requires ValueOf(FirstOrDefault(tables).value) == Some(Text(text))
    requires ParseNumber(text) == Some(x)
    ensures DroughtDecision(tables) == Ok(x < 30.0)
  {
  }

  /** Exactly 30 does not match; 29.999 does. */
  lemma DroughtBoundary()
    ensures DroughtDecision(OneValue("30")) == Ok(false)
    ensures DroughtDecision(OneValue("29.999")) == Ok(true)
  {
    DroughtFallbackParses();
    Parses29_999();
    OneValueFirst("30");
    OneValueFirst("29.999");
  }

  /** The rule's failures: a record without `_value`, or a text that is not a number. */
  lemma DroughtFailures(tables: seq<FluxTable>, text: string)
    requires FirstOrDefault(tables).Some?
    ensures ValueOf(FirstOrDefault(tables).value).None? ==> DroughtDecision(tables) == Err(MissingValue)
    ensures ValueOf(FirstOrDefault(tables).value) == Some(Null) ==> DroughtDecision(tables) == Err(NullValue)
    ensures ValueOf(FirstOrDefault(tables).value) == Some(Text(text)) && ParseNumber(text).None?
      ==> DroughtDecision(tables) == Err(FormatError(text))
  {
  }

  // Rules 2 and 5 ------------------------------------------------------------

  /** Plague risk and fungal disease match exactly when some table holds a record. */
  lemma PresenceDecisionsIff(tables: seq<FluxTable>)
    ensures PlagueRiskDecision(tables) <==> exists i :: 0 <= i < |tables| && tables[i].records != []
    ensures FungalDiseaseDecision(tables) <==> exists i :: 0 <= i < |tables| && tables[i].records != []
  {
    FlattenEmptyIff(tables);
  }

  // Rule 3 -------------------------------------------------------------------

  /** No record: the fallback 70 is not below 70. */
  lemma LowDataQualityNoDataNeverMatches(tables: seq<FluxTable>)
    requires forall i :: 0 <= i < |tables| ==> tables[i].records == []
    ensures LowDataQualityDecision(tables) == Ok(false)
  {
    NoFirstIffAllEmpty(tables);
    DataQualityFallbackParses();
  }

  /**
   * Cutting the score at the decimal separator does not change the decision on
   * a number literal: it matches exactly when the full value is below 70.
   */
  lemma LowDataQualityIgnoresFraction(tables: seq<FluxTable>, text: string, x: real)
    requires FirstOrDefault(tables).Some?
    requires ValueOf(FirstOrDefault(tables).value) == Some(Text(text))
    requires ParseNumber(text) == Some(x)
    ensures LowDataQualityDecision(tables) == Ok(x < 70.0)
  {
    IntegerPartTruncates(text, x);
    TruncatePreservesBelow(x, 70);
  }

  /** 69.9 matches and 70.9 does not. */
  lemma LowDataQualityBoundary()
    ensures LowDataQualityDecision(OneValue("69.9")) == Ok(true)
    ensures LowDataQualityDecision(OneValue("70.9")) == Ok(false)
  {
    Parses69_9();
    Parses70_9();
    OneValueFirst("69.9");
    LowDataQualityIgnoresFraction(OneValue("69.9"), "69.9", 69.9);
    OneValueFirst("70.9");
    LowDataQualityIgnoresFraction(OneValue("70.9"), "70.9", 70.9);
  }

  lemma CommaCut()
    ensures IntegerPart("69,9") == "69"
  {
    BeforeFirstUnique("69,9", '.', "69,9");
    BeforeFirstUnique("69,9", ',', "69");
  }

  lemma Parses69()
    ensures Parse("69") == Ok(69.0)
  {
    ParseWhole("69");
  }

  /** A comma-decimal "69,9" is cut at the comma to 69, which is below 70. */
  lemma LowDataQualityCommaDecimal()
    ensures LowDataQualityDecision(OneValue("69,9")) == Ok(true)
  {
    OneValueFirst("69,9");
    CommaCut();
    Parses69();
  }

  /** ".5" is cut to the empty text, which the parser rejects. */
  lemma LowDataQualityLeadingPoint()
    ensures LowDataQualityDecision(OneValue(".5")) == Err(FormatError(""))
  {
    OneValueFirst(".5");
    assert IntegerPart(".5") == "" by {
      BeforeFirstUnique(".5", '.', "");
    }
  }

  // Rule 4 -------------------------------------------------------------------

  /** Heat wave matches exactly when the temperature is at least 35 and the rain probability at most 60. */
  lemma HeatWaveMatchesIff(temperatures: seq<FluxTable>, forecast: seq<FluxTable>)
    ensures HeatWaveDecision(temperatures, forecast) == Ok(true) <==>
      FirstValue(temperatures, "35").Ok? && FirstValue(temperatures, "35").value >= 35.0 &&
      FirstValue(forecast, "61").Ok? && FirstValue(forecast, "61").value <= 60.0
  {
  }

  /** No forecast record: the fallback 61 exceeds 60, so heat wave never matches. */
  lemma HeatWaveNoForecastNeverMatches(temperatures: seq<FluxTable>, forecast: seq<FluxTable>)
    requires forall i :: 0 <= i < |forecast| ==> forecast[i].records == []
    ensures HeatWaveDecision(temperatures, forecast) != Ok(true)
  {
    NoFirstIffAllEmpty(forecast);
    ForecastFallbackParses();
  }

  /** No temperature record: the fallback 35 passes, so the forecast alone decides. */
  lemma HeatWaveNoTemperatureDoesNotBlock(temperatures: seq<FluxTable>, forecast: seq<FluxTable>)
    requires forall i :: 0 <= i < |temperatures| ==> temperatures[i].records == []
    ensures HeatWaveDecision(temperatures, forecast) == Ok(true) <==>
      FirstValue(forecast, "61").Ok? && FirstValue(forecast, "61").value <= 60.0
  {
    NoFirstIffAllEmpty(temperatures);
    TemperatureFallbackParses();
  }

  /** Below 35 the forecast is never read, so even a malformed forecast gives no match and no failure. */
  lemma HeatWaveCoolIgnoresForecast(temperatures: seq<FluxTable>, forecast: seq<FluxTable>, t: real)
    requires FirstValue(temperatures, "35") == Ok(t) && t < 35.0
    ensures HeatWaveDecision(temperatures, forecast) == Ok(false)
  {
  }

  // Rule 6 -------------------------------------------------------------------

  /** High acidity issues no query and reads only the reading; both bounds are strict. */
  lemma HighAcidityReadsOnlyTheReading(reading: SensorReading, a: map<Query, QueryAnswer>, b: map<Query, QueryAnswer>)
    ensures IssuedBy(HIGH_ACIDITY, reading, a) == []
    ensures Decision(HIGH_ACIDITY, reading, a) == Decision(HIGH_ACIDITY, reading, b)
    ensures Matches(HIGH_ACIDITY, reading, a) <==> reading.soilPH < 5.0 && reading.soilMoisturePercent > 60.0
    ensures reading.soilPH == 5.0 || reading.soilMoisturePercent == 60.0 ==> !Matches(HIGH_ACIDITY, reading, a)
  {
  }

  // Queries ------------------------------------------------------------------

  /**
   * A query the store cannot answer makes its rule throw. Rule 4 awaits both
   * queries before it tests either value, so the forecast is queried, and its
   * failure throws, whatever the temperature; only a failing temperature query
   * keeps the forecast query from being sent.
   */
  lemma QueryFailuresThrow(reading: SensorReading, a: map<Query, QueryAnswer>)
    ensures AnswerTo(a, DroughtQuery(reading.fieldId)).Unavailable? ==>
      Decision(DROUGHT, reading, a) == Err(QueryFailed(DroughtQuery(reading.fieldId)))
    ensures AnswerTo(a, PlagueQuery(reading.sensorClientId)).Unavailable? ==>
      Decision(PLAGUE_RISK, reading, a) == Err(QueryFailed(PlagueQuery(reading.sensorClientId)))
    ensures AnswerTo(a, DataQualityQuery(reading.sensorClientId)).Unavailable? ==>
      Decision(LOW_DATA_QUALITY, reading, a) == Err(QueryFailed(DataQualityQuery(reading.sensorClientId)))
    ensures AnswerTo(a, FungalQuery(reading.sensorClientId)).Unavailable? ==>
      Decision(FUNGAL_DISEASE, reading, a) == Err(QueryFailed(FungalQuery(reading.sensorClientId)))
    ensures AnswerTo(a, TemperatureQuery(reading.sensorClientId)).Unavailable? ==>
      Decision(HEAT_WAVE, reading, a) == Err(QueryFailed(TemperatureQuery(reading.sensorClientId))) &&
      IssuedBy(HEAT_WAVE, reading, a) == [TemperatureQuery(reading.sensorClientId)]
    ensures AnswerTo(a, TemperatureQuery(reading.sensorClientId)).Tables? ==>
      IssuedBy(HEAT_WAVE, reading, a) == [TemperatureQuery(reading.sensorClientId), ForecastQuery]
    ensures AnswerTo(a, TemperatureQuery(reading.sensorClientId)).Tables? && AnswerTo(a, ForecastQuery).Unavailable? ==>
      Decision(HEAT_WAVE, reading, a) == Err(QueryFailed(ForecastQuery))
  {
  }

  // Messages -----------------------------------------------------------------

  /**
   * Rule 2's message names the sensor where its wording says "field" and the
   * field where it says "sensor": for two distinct identifiers of equal length
   * (two GUIDs, say) it is not the text the wording describes.
   */
  lemma PlagueMessageSwapsIds(reading: SensorReading)
    requires |reading.sensorClientId| == |reading.fieldId|
    requires reading.sensorClientId != reading.fieldId
    ensures AlertMessage(PLAGUE_RISK, reading) != FieldFirst(reading.fieldId, reading.sensorClientId, PLAGUE_TAIL)
  {
    var sid, fid := reading.sensorClientId, reading.fieldId;
    var i :| 0 <= i < |sid| && sid[i] != fid[i];
    var prefix := "The field with ID ";
    assert AlertMessage(PLAGUE_RISK, reading)[|prefix| + i] == sid[i];
    assert FieldFirst(fid, sid, PLAGUE_TAIL)[|prefix| + i] == fid[i];
  }
}
