# Alert rule engine of AgroSolutions, in Dafny

This project models `AlertsDomainService`, the alert rule engine of the
AgroSolutions sensor pipeline. For one received sensor reading it runs six
agronomic rules:

1. drought;
2. plague risk;
3. low data quality;
4. heat wave;
5. high probability of fungal diseases;
6. high acidity.

Rules 1 to 5 query the time-series store (InfluxDB). Each reads the first
record of the flattened query result, or only tests whether there is one, and
compares the value with a fixed threshold. When there is no record, a fixed
default text stands in. Rule 6 looks only at the reading. A rule that matches
writes one `alerts` point to the store. `CheckAllRulesAsync` returns a status
byte: the number of the last rule that matched, or 0.

The files:

- `wrappers.dfy`: `Option` and `Result`.
- `number_text.dfy` (`NumberText`): `Split(sep).First()`, the integer-part cut of
  rule 3, and the number parsers, read as a partial function from decimal
  literals to reals.
- `flux_tables.dfy` (`FluxTables`): query results as tables of records, the
  flattening `SelectMany(t => t.Records)` and `FirstOrDefault()`.
- `store.dfy` (`TimeSeries`): the store, a class `InfluxStore`. It holds:
  - an oracle of query answers, fixed when it is created;
  - the set of write attempts that fail;
  - the log of points written;
  - the log of queries issued.
- `alert_rules.dfy` (`AlertRules`):
  - the six decisions as pure functions;
  - the queries each rule issues;
  - the alert point each rule builds.
- `rule_properties.dfy` (`RuleProperties`): thresholds, boundaries, defaults
  and failures of each decision.
- `engine.dfy` (`AlertsDomain`):
  - `RuleStep` and `Run`, the specification of a rule and of a run over the
    store's state;
  - the lemmas about a run;
  - the class `AlertsDomainService`, whose methods are proved equal to
    `RuleStep` and `Run`.

Every exception the code can let escape, except the timestamp check of the
InfluxDB client named under "## Left out", is an `Err` of `Failure`:

- a query the store cannot answer;
- a write the store rejects;
- a first record without `_value`;
- a null `_value`;
- a text the number parser rejects.

Nothing catches these, so an `Err` ends the run. No alert point is removed after
it has been written.

Two facts about the code shape the model:

- All six rules always run. Every rule that matches writes its own alert, and
  each match overwrites the status, so the last match sets it
  (`AlertsDomainService.cs:17-37`). `RunReportsLastMatch` and
  `RunWritesMatchedAlerts` state this.
- When a query returns no record, the code parses the texts "30", "70", "35"
  and "61" in its place. A text the parser rejects lets a `FormatException`
  escape, which is an `Err` in the model.
  - Rule 4's default temperature 35 passes the heat test, so missing
    temperature data does not block a heat-wave alert
    (`HeatWaveNoTemperatureDoesNotBlock`).

`CheckAllRules` runs the six `if` statements of `CheckAllRulesAsync` as two
methods of three statements each, `CheckRulesOneToThree` and
`CheckRulesFourToSix`. They are called in sequence, and the status the first
returns is passed to the second. The order of the calls, their effects on the
store and the result are those of the six statements. `RunInHalves` proves this
with `RunAppend`.

## Model

| member | source | states |
|---|---|---|
| AlertsDomain.AlertsDomainService.CheckAllRules | AgroSolutions.Alert.Infrastructure/DomainServices/AlertsDomainService.cs:15-38 | The result and the new store state are `Run` of rules 1 to 6 from status 0 on the old state. |
| AlertsDomain.AlertsDomainService.CheckRulesOneToThree | AgroSolutions.Alert.Infrastructure/DomainServices/AlertsDomainService.cs:19-26 | The result and the new state are `Run` of rules 1 to 3 from the given status. |
| AlertsDomain.AlertsDomainService.CheckRulesFourToSix | AgroSolutions.Alert.Infrastructure/DomainServices/AlertsDomainService.cs:28-35 | The result and the new state are `Run` of rules 4 to 6 from the status rules 1 to 3 left. |
| AlertsDomain.AlertsDomainService.constructor | AgroSolutions.Alert.Infrastructure/DomainServices/AlertsDomainService.cs:11-13 | The service keeps the store it is given. |
| AlertsDomain.AlertsDomainService.WriteAlert | AgroSolutions.Alert.Infrastructure/DomainServices/AlertsDomainService.cs:54-61 | One write attempt of the alert point built from the reading and the message. The result is `Ok(true)` when the store accepts it and `WriteFailed` otherwise. |
| AlertsDomain.AlertsDomainService.CheckDroughtAlert | AgroSolutions.Alert.Infrastructure/DomainServices/AlertsDomainService.cs:41-63 | Issues the drought query and decides on its answer. It writes the drought alert exactly when the rule matches. Result and new state are `RuleStep` of rule 1. |
| AlertsDomain.AlertsDomainService.CheckPlagueRisk | AgroSolutions.Alert.Infrastructure/DomainServices/AlertsDomainService.cs:66-92 | As for rule 1, with the plague query; equals `RuleStep` of rule 2. |
| AlertsDomain.AlertsDomainService.CheckSensorWithLowDataQuality | AgroSolutions.Alert.Infrastructure/DomainServices/AlertsDomainService.cs:95-116 | As for rule 1, with the data-quality query; equals `RuleStep` of rule 3. |
| AlertsDomain.AlertsDomainService.CheckHeatWave | AgroSolutions.Alert.Infrastructure/DomainServices/AlertsDomainService.cs:119-146 | Issues the temperature query, then the forecast query, before it reads either answer. Equals `RuleStep` of rule 4. |
| AlertsDomain.AlertsDomainService.CheckHighProbabilityOfFungalDiseases | AgroSolutions.Alert.Infrastructure/DomainServices/AlertsDomainService.cs:149-178 | As for rule 1, with the fungal query; equals `RuleStep` of rule 5. |
| AlertsDomain.AlertsDomainService.CheckHighAcidityWithPotentialForReducedNutrientAbsorption | AgroSolutions.Alert.Infrastructure/DomainServices/AlertsDomainService.cs:181-195 | No query. It writes the acidity alert exactly when the reading matches; equals `RuleStep` of rule 6. |
| AlertsDomain.RuleStep | AgroSolutions.Alert.Infrastructure/DomainServices/AlertsDomainService.cs:41-195 | No contract of its own: one rule run against the store. Its queries are logged, and a match makes one write attempt of the rule's alert. `RuleStepWrites` states what it writes; `RuleStepFrame` states what it leaves alone and which queries it adds. |
| AlertsDomain.Run | AgroSolutions.Alert.Infrastructure/DomainServices/AlertsDomainService.cs:17-37 | No contract of its own: the rules in order, each match overwriting the status, the first exception ending the run. `RunReportsLastMatch`, `RunWritesMatchedAlerts`, `RunKeepsEarlierAlerts`, `RunIssuesQueries` and `RunOkIff` state what it means. |
| AlertRules.ValueText | AgroSolutions.Alert.Infrastructure/DomainServices/AlertsDomainService.cs:50 | No contract of its own: `Values["_value"].ToString()`, which fails on a missing column and on a null value. `DroughtFailures` states both failures. |
| AlertRules.FirstValue | AgroSolutions.Alert.Infrastructure/DomainServices/AlertsDomainService.cs:50 | No contract of its own: the parsed first value, or the parsed fallback when there is no record. `DroughtReadsFirstRecord` and `DroughtNoDataNeverMatches` state both cases. |
| AlertRules.AnswerOrFail | AgroSolutions.Alert.Infrastructure/DomainServices/AlertsDomainService.cs:43 | No contract of its own: an awaited query either gives tables or throws `QueryFailed`. `QueryFailuresThrow` states the throw for every query of every rule. |
| TimeSeries.AnswerTo | AgroSolutions.Alert.Infrastructure/DomainServices/AlertsDomainService.cs:43 | No contract of its own: the store's answer to a query, which is `Unavailable` when the store cannot answer. `QueryFailuresThrow` states what each rule does with that answer. |
| AlertRules.IssuedBy | AgroSolutions.Alert.Infrastructure/DomainServices/AlertsDomainService.cs:43 | No contract of its own: the queries each rule sends (lines 43, 68, 97, 121 and 126, 151). Rule 6 sends none, and rule 4 sends no forecast query when the temperature query throws. `QueryFailuresThrow` and `HighAcidityReadsOnlyTheReading` state this; `RuleStepFrame` and `RunIssuesQueries` state that the store logs them in rule order. |
| AlertRules.Parse | AgroSolutions.Alert.Infrastructure/DomainServices/AlertsDomainService.cs:50 | No contract of its own: the `FormatException` of the parse calls at lines 50, 104, 133 and 134 on a text the parser rejects. `DroughtFailures` and `LowDataQualityLeadingPoint` state the failure. |
| FluxTables.ValueOf | AgroSolutions.Alert.Infrastructure/DomainServices/AlertsDomainService.cs:50 | No contract of its own: `Values["_value"]`, which is absent when the record has no such key. `DroughtFailures` states the `MissingValue` failure. |
| AlertRules.DroughtCheck | AgroSolutions.Alert.Infrastructure/DomainServices/AlertsDomainService.cs:43-51 | No contract of its own: the drought query on the field identifier, then the drought decision. `QueryFailuresThrow` and `DroughtReadsFirstRecord` state its meaning. |
| AlertRules.PlagueRiskCheck | AgroSolutions.Alert.Infrastructure/DomainServices/AlertsDomainService.cs:68-81 | No contract of its own: the plague query on the sensor identifier, then the presence test. `QueryFailuresThrow` and `PresenceDecisionsIff` state its meaning. |
| AlertRules.LowDataQualityCheck | AgroSolutions.Alert.Infrastructure/DomainServices/AlertsDomainService.cs:97-105 | No contract of its own: the data-quality query, then the cut and the test. `QueryFailuresThrow` and `LowDataQualityIgnoresFraction` state its meaning. |
| AlertRules.HeatWaveCheck | AgroSolutions.Alert.Infrastructure/DomainServices/AlertsDomainService.cs:121-135 | No contract of its own: both queries are awaited before the `&&` tests either value. `QueryFailuresThrow` states that the forecast query is sent, and its failure throws, whatever the temperature. `HeatWaveMatchesIff` states the decision. |
| AlertRules.FungalDiseaseCheck | AgroSolutions.Alert.Infrastructure/DomainServices/AlertsDomainService.cs:151-167 | No contract of its own: the fungal query, then the presence test. `QueryFailuresThrow` and `PresenceDecisionsIff` state its meaning. |
| AlertRules.Decision | AgroSolutions.Alert.Infrastructure/DomainServices/AlertsDomainService.cs:19-35 | No contract of its own: what rule `k` decides, or the exception it throws. `RunOkIff`, `RunReportsLastMatch` and `QueryFailuresThrow` state its meaning. |
| RuleProperties.QueryFailuresThrow | AgroSolutions.Alert.Infrastructure/DomainServices/AlertsDomainService.cs:121-135 | A query that the store cannot answer makes its rule throw `QueryFailed` of that query, for each of rules 1 to 5. Rule 4 sends the forecast query whenever the temperature query is answered, and a failing forecast query throws whatever the temperature. When the temperature query fails, rule 4 sends no other query. |
| AlertRules.DroughtDecision | AgroSolutions.Alert.Infrastructure/DomainServices/AlertsDomainService.cs:50-51 | No contract of its own: below 30, with default "30". Its meaning is in `DroughtReadsFirstRecord`, `DroughtNoDataNeverMatches`, `DroughtBoundary` and `DroughtFailures`. |
| AlertRules.PlagueRiskDecision | AgroSolutions.Alert.Infrastructure/DomainServices/AlertsDomainService.cs:80-81 | No contract of its own: the flattened result is not empty. `PresenceDecisionsIff` states it. |
| AlertRules.LowDataQualityDecision | AgroSolutions.Alert.Infrastructure/DomainServices/AlertsDomainService.cs:104-105 | No contract of its own: the cut text, parsed, below 70, with default "70". Its meaning is in `LowDataQualityIgnoresFraction`, `LowDataQualityNoDataNeverMatches`, `LowDataQualityBoundary`, `LowDataQualityCommaDecimal` and `LowDataQualityLeadingPoint`. |
| AlertRules.HeatWaveDecision | AgroSolutions.Alert.Infrastructure/DomainServices/AlertsDomainService.cs:133-135 | No contract of its own: temperature at least 35 (default "35") and then rain probability at most 60 (default "61"). Its meaning is in `HeatWaveMatchesIff`, `HeatWaveNoForecastNeverMatches`, `HeatWaveNoTemperatureDoesNotBlock` and `HeatWaveCoolIgnoresForecast`. |
| AlertRules.FungalDiseaseDecision | AgroSolutions.Alert.Infrastructure/DomainServices/AlertsDomainService.cs:166-167 | No contract of its own: the flattened result is not empty. `PresenceDecisionsIff` states it. |
| AlertRules.HighAcidityDecision | AgroSolutions.Alert.Infrastructure/DomainServices/AlertsDomainService.cs:183-184 | No contract of its own: pH below 5 and moisture above 60. `HighAcidityReadsOnlyTheReading` states it. |
| AlertRules.AlertMessage | AgroSolutions.Alert.Infrastructure/DomainServices/AlertsDomainService.cs:58 | No contract of its own: the `message` text of each rule, lines 58, 88, 112, 142, 174 and 191. `AlertShape` ties it to the point, and `PlagueMessageSwapsIds` shows rule 2's swap. |
| AlertRules.BuildAlert | AgroSolutions.Alert.Infrastructure/DomainServices/AlertsDomainService.cs:54-59 | No contract of its own: the point with measurement, two tags, one field and the timestamp. `AlertShape` and `MatchedAlertsWellFormed` state its shape. |
| FluxTables.Flatten | AgroSolutions.Alert.Infrastructure/DomainServices/AlertsDomainService.cs:80 | No contract of its own: `SelectMany(t => t.Records)`. `FlattenEmptyIff` states when it is empty. |
| FluxTables.FirstOrDefault | AgroSolutions.Alert.Infrastructure/DomainServices/AlertsDomainService.cs:50 | No contract of its own: the first flattened record. `FirstOfFirstNonEmptyTable` and `NoFirstIffAllEmpty` state which record it is and when there is none. |
| NumberText.ParseNumber | AgroSolutions.Alert.Infrastructure/DomainServices/AlertsDomainService.cs:50 | No contract of its own: `float.Parse`, `decimal.Parse` and `double.Parse` on plain decimal literals. `ParseWhole` and `ParseDecimal` state its values, and `IntegerPartTruncates` relates it to the cut of line 104. |
| AlertsDomain.RunAppend | AgroSolutions.Alert.Infrastructure/DomainServices/AlertsDomainService.cs:19-35 | Running two lists of rules one after the other is running the first and then, unless it threw, the second from the state and status the first left. |
| AlertsDomain.RunInHalves | AgroSolutions.Alert.Infrastructure/DomainServices/AlertsDomainService.cs:19-35 | The six rules run as rules 1 to 3 followed by rules 4 to 6. |
| AlertsDomain.HighestMatch | AgroSolutions.Alert.Infrastructure/DomainServices/AlertsDomainService.cs:17-35 | The highest matching rule number up to `n`, or 0. That rule matches and no higher one does; at 0, no rule up to `n` matches. |
| AlertsDomain.RunReportsLastMatch | AgroSolutions.Alert.Infrastructure/DomainServices/AlertsDomainService.cs:17-37 | A completed run of the six rules returns the largest matching rule number, and 0 when none matches. |
| AlertsDomain.RunStatusFrom | AgroSolutions.Alert.Infrastructure/DomainServices/AlertsDomainService.cs:19-35 | From rule `i + 1` on, a completed run returns the highest match when it is above `i`, and the status it was given otherwise. |
| AlertsDomain.RuleStepWrites | AgroSolutions.Alert.Infrastructure/DomainServices/AlertsDomainService.cs:50-62 | A rule that completes returns whether it matches. It appends exactly one point, its alert, when it matches and none otherwise, with one write attempt per match. A rule that throws adds no point. |
| AlertsDomain.RunWritesMatchedAlerts | AgroSolutions.Alert.Infrastructure/DomainServices/AlertsDomainService.cs:19-35 | A run only adds points. The points it adds are a prefix of the alerts of the matching rules, in rule order. A completed run adds them all and attempts one write per matching rule. |
| AlertsDomain.RunKeepsEarlierAlerts | AgroSolutions.Alert.Infrastructure/DomainServices/AlertsDomainService.cs:19-35 | Once the rules `a` have completed, all their alerts are in the store at the end of `a` followed by `b`, whatever the rules `b` do. An exception in a later rule takes back no earlier write. |
| AlertsDomain.CheckAllRulesKeepsEarlierAlerts | AgroSolutions.Alert.Infrastructure/DomainServices/AlertsDomainService.cs:17-37 | For the six rules: when the first `i` have completed, their alerts are in the final store, even if a later rule throws. |
| AlertsDomain.RunIssuesQueries | AgroSolutions.Alert.Infrastructure/DomainServices/AlertsDomainService.cs:19-35 | A run leaves the answers and the failing writes alone. It issues a prefix of the rules' queries in rule order, and all of them when it completes: no rule is skipped. |
| AlertsDomain.RunOkIff | AgroSolutions.Alert.Infrastructure/DomainServices/AlertsDomainService.cs:19-35 | A run completes exactly when every rule decides without an exception and the store accepts the writes of all matching rules. |
| AlertsDomain.NextWritesAfterOne | AgroSolutions.Alert.Infrastructure/DomainServices/AlertsDomainService.cs:61 | The next `n + 1` writes succeed exactly when this write does and the `n` after it do. |
| AlertsDomain.MatchedAlertsWellFormed | AgroSolutions.Alert.Infrastructure/DomainServices/AlertsDomainService.cs:54-59 | Every alert of a run has the alert shape: measurement `alerts`, the two identifier tags from the reading, a single `message` field holding a rule's message, and the reading's timestamp. |
| AlertRules.AlertShape | AgroSolutions.Alert.Infrastructure/DomainServices/AlertsDomainService.cs:84-89 | Each rule's point has the alert shape, and its `message` is that rule's text. |
| TimeSeries.InfluxStore.constructor | AgroSolutions.Alert.Infrastructure/Services/InfluxDbService.cs:10-19 | A new store has its oracle and failing writes, no write attempt, no point and no query yet. |
| TimeSeries.InfluxStore.RunQuery | AgroSolutions.Alert.Infrastructure/Services/InfluxDbService.cs:28-34 | Returns the oracle's answer and appends the query to the log; nothing else changes. |
| TimeSeries.InfluxStore.WritePointData | AgroSolutions.Alert.Infrastructure/Services/InfluxDbService.cs:21-26 | One write attempt, which succeeds unless its number is a failing one. The point is kept only when it succeeds. |
| NumberText.BeforeFirst | AgroSolutions.Alert.Infrastructure/DomainServices/AlertsDomainService.cs:104 | `Split(sep).First()` is a prefix without `sep`, either the whole text or followed by `sep`. |
| NumberText.BeforeFirstUnique | AgroSolutions.Alert.Infrastructure/DomainServices/AlertsDomainService.cs:104 | Those three properties determine the result. |
| NumberText.IntegerPart | AgroSolutions.Alert.Infrastructure/DomainServices/AlertsDomainService.cs:104 | The cut at '.' and then ',' is the longest prefix holding neither. |
| NumberText.DigitsValue | AgroSolutions.Alert.Infrastructure/DomainServices/AlertsDomainService.cs:50 | A string of `k` digits is worth less than 10^k. |
| NumberText.Fraction | AgroSolutions.Alert.Infrastructure/DomainServices/AlertsDomainService.cs:50 | The digits after the point add at least 0 and less than 1. |
| NumberText.ParseWhole | AgroSolutions.Alert.Infrastructure/DomainServices/AlertsDomainService.cs:50 | A string of digits parses to its value. |
| NumberText.ParseDecimal | AgroSolutions.Alert.Infrastructure/DomainServices/AlertsDomainService.cs:133 | Digits, a point and digits parse to the whole part plus the fraction. |
| NumberText.Truncate | AgroSolutions.Alert.Infrastructure/DomainServices/AlertsDomainService.cs:104 | Truncation toward zero stays within 1 of the value, on the side of zero. |
| NumberText.UnsignedWholePart | AgroSolutions.Alert.Infrastructure/DomainServices/AlertsDomainService.cs:104 | The digits before the point of a parsable literal parse to its floor. |
| NumberText.IntegerPartTruncates | AgroSolutions.Alert.Infrastructure/DomainServices/AlertsDomainService.cs:104 | The cut of a parsable literal parses to the literal's value truncated toward zero. |
| NumberText.TruncatePreservesBelow | AgroSolutions.Alert.Infrastructure/DomainServices/AlertsDomainService.cs:104-105 | Against a positive integer threshold, the truncated and the full value compare the same. |
| FluxTables.FlattenEmptyIff | AgroSolutions.Alert.Infrastructure/DomainServices/AlertsDomainService.cs:80 | The flattened result is empty exactly when every table is. |
| FluxTables.FirstOfFirstNonEmptyTable | AgroSolutions.Alert.Infrastructure/DomainServices/AlertsDomainService.cs:50 | `FirstOrDefault()` is the first record of the first table that has one. |
| FluxTables.NoFirstIffAllEmpty | AgroSolutions.Alert.Infrastructure/DomainServices/AlertsDomainService.cs:50 | There is no first record exactly when every table is empty. |
| RuleProperties.DroughtFallbackParses | AgroSolutions.Alert.Infrastructure/DomainServices/AlertsDomainService.cs:50 | The default "30" parses to 30. |
| RuleProperties.DataQualityFallbackParses | AgroSolutions.Alert.Infrastructure/DomainServices/AlertsDomainService.cs:104 | The default "70" parses to 70. |
| RuleProperties.TemperatureFallbackParses | AgroSolutions.Alert.Infrastructure/DomainServices/AlertsDomainService.cs:133 | The default "35" parses to 35. |
| RuleProperties.ForecastFallbackParses | AgroSolutions.Alert.Infrastructure/DomainServices/AlertsDomainService.cs:134 | The default "61" parses to 61. |
| RuleProperties.DroughtNoDataNeverMatches | AgroSolutions.Alert.Infrastructure/DomainServices/AlertsDomainService.cs:50-51 | With no record, drought does not match. |
| RuleProperties.DroughtReadsFirstRecord | AgroSolutions.Alert.Infrastructure/DomainServices/AlertsDomainService.cs:50-51 | With a first record holding a number, drought matches exactly when it is below 30. |
| RuleProperties.DroughtBoundary | AgroSolutions.Alert.Infrastructure/DomainServices/AlertsDomainService.cs:50-51 | 30 does not match; 29.999 does. |
| RuleProperties.DroughtFailures | AgroSolutions.Alert.Infrastructure/DomainServices/AlertsDomainService.cs:50 | A missing `_value`, a null value and an unparsable text each fail the rule with their own error. |
| RuleProperties.PresenceDecisionsIff | AgroSolutions.Alert.Infrastructure/DomainServices/AlertsDomainService.cs:80-81 | Plague risk, and likewise fungal disease (lines 166-167), match exactly when some table holds a record. |
| RuleProperties.LowDataQualityNoDataNeverMatches | AgroSolutions.Alert.Infrastructure/DomainServices/AlertsDomainService.cs:104-105 | With no record, low data quality does not match. |
| RuleProperties.LowDataQualityIgnoresFraction | AgroSolutions.Alert.Infrastructure/DomainServices/AlertsDomainService.cs:104-105 | On a parsable literal, cutting the fraction does not change the decision: it matches exactly when the value is below 70. |
| RuleProperties.LowDataQualityBoundary | AgroSolutions.Alert.Infrastructure/DomainServices/AlertsDomainService.cs:104-105 | 69.9 matches; 70.9 does not. |
| RuleProperties.LowDataQualityCommaDecimal | AgroSolutions.Alert.Infrastructure/DomainServices/AlertsDomainService.cs:104-105 | "69,9" is cut at the comma to 69 and matches. |
| RuleProperties.LowDataQualityLeadingPoint | AgroSolutions.Alert.Infrastructure/DomainServices/AlertsDomainService.cs:104 | ".5" is cut to the empty text, which fails to parse. |
| RuleProperties.HeatWaveMatchesIff | AgroSolutions.Alert.Infrastructure/DomainServices/AlertsDomainService.cs:133-135 | Heat wave matches exactly when the temperature (default 35) is at least 35 and the rain probability (default 61) is at most 60. |
| RuleProperties.HeatWaveNoForecastNeverMatches | AgroSolutions.Alert.Infrastructure/DomainServices/AlertsDomainService.cs:134 | With no forecast record, heat wave does not match. |
| RuleProperties.HeatWaveNoTemperatureDoesNotBlock | AgroSolutions.Alert.Infrastructure/DomainServices/AlertsDomainService.cs:133-134 | With no temperature record, the forecast alone decides. |
| RuleProperties.HeatWaveCoolIgnoresForecast | AgroSolutions.Alert.Infrastructure/DomainServices/AlertsDomainService.cs:133-135 | Below 35 the forecast value is never read, so even a malformed one does not match and does not fail. |
| RuleProperties.HighAcidityReadsOnlyTheReading | AgroSolutions.Alert.Infrastructure/DomainServices/AlertsDomainService.cs:183-184 | Rule 6 issues no query and ignores the store. It matches exactly when pH < 5 and moisture > 60, so pH 5 or moisture 60 never matches. |
| RuleProperties.PlagueMessageSwapsIds | AgroSolutions.Alert.Infrastructure/DomainServices/AlertsDomainService.cs:88 | For distinct identifiers of equal length, rule 2's message is not the text its wording describes: it names the sensor as the field and the field as the sensor. |

## Left out

- The Flux query text and its meaning in the store: `range`, `filter`, `pivot`, `min`, `max`, `experimental.addDuration` and the time windows. A query is named by its rule and the identifier the code interpolates into it. Its answer comes from an oracle fixed when the store is created. The oracle may stay fixed while the engine writes, because no write can change a later answer. Every rule query filters on measurement `agro_sensors` or `weather_forecast` (lines 45, 70, 99, 123, 129 and 153), and every alert goes to measurement `alerts` (line 55). So rule 2's filter on `air_temperature_c`, a field its query never selects, is part of the oracle and not of the model.
- `float.Parse`, `decimal.Parse` and `double.Parse` are read as one partial parser of the plain decimal literals `['-'] digit+ ['.' digit+]`, giving exact reals. These are not modelled:
  - culture-dependent separators;
  - exponents, signs other than a leading '-', surrounding white space;
  - `NaN` and infinities;
  - the precision and rounding of `float` and `double`.
  Every other text is a parse failure in the model.
- Identifiers (`Guid`) and the reading's `DateTime` timestamp are kept as their text and as an integer. The `WritePrecision.Ns` conversion is not modelled. The InfluxDB client's `PointData.Timestamp(DateTime, WritePrecision)` throws an `ArgumentException` when the timestamp's `Kind` is not `Utc`. The client library is not part of this model. Each rule calls it after the rule has matched and before the write (lines 59, 89, 113, 143, 175 and 192). An integer timestamp has no kind, so the model does not capture this exception. On such a reading the first matching rule would throw with no write attempt and end the run, while `RuleStepWrites` has every match make one write attempt.
- Logging (`Log.Warning`, `Log.Information`) is left out: it has no effect the rules can observe.
- The `async`/`await` machinery is left out, and so is cancellation. The calls run in sequence, as the awaits make them.
- What the store does with a write beyond accepting or rejecting it is left out, and so is how it fails; which attempts fail is a parameter of the store.
- `InfluxDbService` builds its client from configuration and forwards to the InfluxDB client library; only its two operations, as the engine sees them, are modelled.
- `SaveDataToInfluxDb.cs`, `Program.cs`, `TesteInflux.cs` and `MetricsFunction.cs` are not part of this model: they are the message trigger, host set-up, a diagnostic endpoint and a metrics endpoint.
