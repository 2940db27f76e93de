/**
 * The time-series store behind `IInfluxDbService`, as the alert rules see it:
 * it answers queries and accepts (or rejects) point writes. The Flux text of a
 * query is not modelled; a query is named by the rule that issues it and the
 * identifier interpolated into its text, and what the store answers to it is
 * an oracle fixed when the store is created.
 */
module TimeSeries {
  import opened FluxTables

  /** The six queries of the rule engine, with the identifier each one filters on. */
  datatype Query =
    | DroughtQuery(fieldId: string)
    | PlagueQuery(sensorClientId: string)
    | DataQualityQuery(sensorClientId: string)
    | TemperatureQuery(sensorClientId: string)
    | ForecastQuery
    | FungalQuery(sensorClientId: string)

  /** A query either returns tables or throws. */
  datatype QueryAnswer = Tables(tables: seq<FluxTable>) | Unavailable

  /** A point in line-protocol terms: measurement, tags, fields, nanosecond timestamp. */
  datatype AlertPoint = AlertPoint(
    measurement: string,
    tags: map<string, string>,
    fields: map<string, string>,
    timestamp: int)

  /**
   * Everything the rules can observe of the store: the answer to every query,
   * which write attempts (numbered from 0) fail, how many writes were attempted,
   * the points written so far and the queries issued so far.
   */
  datatype StoreState = StoreState(
    answers: map<Query, QueryAnswer>,
    failingWrites: set<nat>,
    writeAttempts: nat,
    points: seq<AlertPoint>,
    issued: seq<Query>)

  /** A query the oracle has no answer for fails. */
  function AnswerTo(answers: map<Query, QueryAnswer>, q: Query): QueryAnswer {
    if q in answers then answers[q] else Unavailable
  }

  predicate WriteAccepted(st: StoreState) {
    st.writeAttempts !in st.failingWrites
  }

  /** The store after one more write attempt of `p`. */
  function AfterWrite(st: StoreState, p: AlertPoint): (st': StoreState)
    ensures st'.answers == st.answers && st'.failingWrites == st.failingWrites
    ensures st'.issued == st.issued
    ensures st'.writeAttempts == st.writeAttempts + 1
    ensures st'.points == if WriteAccepted(st) then st.points + [p] else st.points
  {
    st.(writeAttempts := st.writeAttempts + 1,
        points := if WriteAccepted(st) then st.points + [p] else st.points)
  }

  class InfluxStore {
    var answers: map<Query, QueryAnswer>
    var failingWrites: set<nat>
    var writeAttempts: nat
    var points: seq<AlertPoint>
    var issued: seq<Query>

    function State(): StoreState
      reads this
    {
      StoreState(answers, failingWrites, writeAttempts, points, issued)
    }

    constructor (answers: map<Query, QueryAnswer>, failingWrites: set<nat>)
      ensures State() == StoreState(answers, failingWrites, 0, [], [])
    {
      this.answers := answers;
      this.failingWrites := failingWrites;
      writeAttempts := 0;
      points := [];
      issued := [];
    }

    /** `QueryAsync`: records the query and returns the oracle's answer to it. */
    method RunQuery(q: Query) returns (a: QueryAnswer)
      modifies this`issued
      ensures a == AnswerTo(answers, q)
      ensures State() == old(State()).(issued := old(issued) + [q])
    {
      issued := issued + [q];
      a := AnswerTo(answers, q);
    }

    /** `WritePointDataAsync`: one write attempt; the point is kept only when it succeeds. */
    method WritePointData(p: AlertPoint) returns (ok: bool)
      modifies this`writeAttempts, this`points
      ensures ok == WriteAccepted(old(State()))
      ensures State() == AfterWrite(old(State()), p)
    {
      ok := writeAttempts !in failingWrites;
      if ok {
        points := points + [p];
      }
      writeAttempts := writeAttempts + 1;
    }
  }
}
