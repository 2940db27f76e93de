/**
 * The shape of a Flux query result as the alert rules read it: a sequence of
 * tables, each a sequence of records, each record a map from column name to
 * the text of its value.
 */
module FluxTables {
  import opened Wrappers

  /** A column of a record: present without a value, or the value's `ToString()` text. */
  datatype Scalar = Null | Text(text: string)

  datatype FluxRecord = FluxRecord(values: map<string, Scalar>)

  datatype FluxTable = FluxTable(records: seq<FluxRecord>)

  /** The column every single-field query reads. */
  const VALUE_COLUMN: string := "_value"

  /** `tables.SelectMany(t => t.Records)`: all records, table after table. */
  function Flatten(tables: seq<FluxTable>): seq<FluxRecord> {
    if tables == [] then [] else tables[0].records + Flatten(tables[1..])
  }

  /** `tables.SelectMany(t => t.Records).FirstOrDefault()`. */
  function FirstOrDefault(tables: seq<FluxTable>): Option<FluxRecord> {
    var all := Flatten(tables);
    if all == [] then None else Some(all[0])
  }

  /** `record.Values["_value"]`: `None` where the column is absent. */
  function ValueOf(record: FluxRecord): Option<Scalar> {
    if VALUE_COLUMN in record.values then Some(record.values[VALUE_COLUMN]) else None
  }

  /** Flattening yields no record exactly when every table is empty. */
  lemma {:induction false} FlattenEmptyIff(tables: seq<FluxTable>)
    ensures Flatten(tables) == [] <==> forall i :: 0 <= i < |tables| ==> tables[i].records == []
  {
    if tables != [] {
      FlattenEmptyIff(tables[1..]);
      assert forall i :: 1 <= i < |tables| ==> tables[i] == tables[1..][i - 1];
    }
  }

  /**
   * The first record of the flattened result is the first record of the first
   * table that has one, and there is none exactly when all tables are empty.
   */
  lemma {:induction false} FirstOfFirstNonEmptyTable(tables: seq<FluxTable>, i: nat)
    requires i < |tables| && tables[i].records != []
    requires forall j :: 0 <= j < i ==> tables[j].records == []
    ensures FirstOrDefault(tables) == Some(tables[i].records[0])
  {
    if i > 0 {
      FirstOfFirstNonEmptyTable(tables[1..], i - 1);
      assert Flatten(tables) == Flatten(tables[1..]);
    }
  }

  lemma NoFirstIffAllEmpty(tables: seq<FluxTable>)
    ensures FirstOrDefault(tables).None? <==> forall i :: 0 <= i < |tables| ==> tables[i].records == []
  {
    FlattenEmptyIff(tables);
  }
}
