/** Persistence sink: the rows with a Power value, written with a header to
    a CSV file that each save overwrites. */
module Persistence {
  import opened Common
  import opened Records

  /** The contents of a written CSV file: the header row and the data rows. */
  datatype Csv<R> = Csv(header: seq<string>, rows: seq<R>)

  /** The `./data` directory: the contents of every file written so far. */
  class DataDir<R> {
    var files: map<string, Csv<R>>

    constructor ()
      ensures files == map[]
    {
      files := map[];
    }

    /** `to_csv(path, mode='w', header=True, index=False)`: the file at
        `path` is replaced, every other file is left alone. */
    method WriteCsv(path: string, table: Csv<R>)
      modifies this
      ensures files == old(files)[path := table]
    {
      files := files[path := table];
    }
  }

  const PowerHeader: seq<string> := ["timestamp", "id", "unit", "Power"]
  const SampleHeader: seq<string> := ["elapsed_time", "Power", "Voltage", "Current"]

  /** `f'./data/{date_name}_measurements.csv'` of main_v2.py and utils.py. */
  function MeasurementsPath(dateName: string): string
  {
    "./data/" + dateName + "_measurements.csv"
  }

  /** `f'./data/{date_name}_power_measurements.csv'` of old/main_windows.py. */
  function PowerMeasurementsPath(dateName: string): string
  {
    "./data/" + dateName + "_power_measurements.csv"
  }

  lemma AffixInjective(prefix: string, a: string, b: string, suffix: string)
    requires prefix + a + suffix == prefix + b + suffix
    ensures a == b
  {
    var s := prefix + a + suffix;
    assert |a| == |b|;
    assert a == s[|prefix|..|prefix| + |a|];
    assert b == (prefix + b + suffix)[|prefix|..|prefix| + |b|];
  }

  /** Distinct date names give distinct files, so saves under two names
      never overwrite each other. */
  lemma PathsInjective(a: string, b: string)
    ensures MeasurementsPath(a) == MeasurementsPath(b) ==> a == b
    ensures PowerMeasurementsPath(a) == PowerMeasurementsPath(b) ==> a == b
  {
    if MeasurementsPath(a) == MeasurementsPath(b) {
      AffixInjective("./data/", a, b, "_measurements.csv");
    }
    if PowerMeasurementsPath(a) == PowerMeasurementsPath(b) {
      AffixInjective("./data/", a, b, "_power_measurements.csv");
    }
  }

  predicate HasPower(r: Row) { r.power.Some? }

  /** The `dropna(subset=['Power'])` test of main_v2.py's wide rows. */
  predicate SampleHasPower(r: SampleRow) { r.power.Some? }

  /** One row of `df[['timestamp', 'id', 'unit', 'Power']]` after `dropna`. */
  datatype PowerRecord = PowerRecord(timestamp: int, id: string, unit: Unit, power: real)

  /** The data rows of the power CSV of utils.py and old/main_windows.py:
      the rows with a Power value, in order, cut to four columns. */
  function PowerRecords(rows: seq<Row>): (records: seq<PowerRecord>)
    ensures |records| == |Filter(rows, HasPower)|
  {
    var kept := Filter(rows, HasPower);
    assert forall k :: 0 <= k < |kept| ==> kept[k].power.Some? by {
      forall k | 0 <= k < |kept| ensures kept[k].power.Some? {
        FilterMembership(rows, HasPower, kept[k]);
      }
    }
    seq(|kept|, k requires 0 <= k < |kept| =>
      PowerRecord(kept[k].timestamp, kept[k].id, kept[k].unit, kept[k].power.value))
  }

  /** Saving keeps arrival order: the records of two runs of rows are the
      records of the first followed by those of the second. */
  lemma PowerRecordsAppend(a: seq<Row>, b: seq<Row>)
    ensures PowerRecords(a + b) == PowerRecords(a) + PowerRecords(b)
  {
    FilterAppend(a, b, HasPower);
    var ka := Filter(a, HasPower);
    forall k | 0 <= k < |PowerRecords(a + b)| ensures PowerRecords(a + b)[k] == (PowerRecords(a) + PowerRecords(b))[k] {
      if k >= |ka| {
        assert Filter(a + b, HasPower)[k] == Filter(b, HasPower)[k - |ka|];
      }
    }
  }

  /** A saved record is the projection of a row that has a Power value, and
      every such row is saved. */
  lemma PowerRecordsMembership(rows: seq<Row>, r: Row)
    ensures r in rows && r.power.Some? ==> PowerRecord(r.timestamp, r.id, r.unit, r.power.value) in PowerRecords(rows)
    ensures forall k :: 0 <= k < |PowerRecords(rows)| ==>
              exists row :: row in rows && row.power == Some(PowerRecords(rows)[k].power)
                && PowerRecords(rows)[k] == PowerRecord(row.timestamp, row.id, row.unit, row.power.value)
  {
    var kept := Filter(rows, HasPower);
    FilterMembership(rows, HasPower, r);
    if r in rows && r.power.Some? {
      var k :| 0 <= k < |kept| && kept[k] == r;
      assert PowerRecords(rows)[k] == PowerRecord(r.timestamp, r.id, r.unit, r.power.value);
    }
    forall k | 0 <= k < |PowerRecords(rows)|
      ensures exists row :: row in rows && row.power == Some(PowerRecords(rows)[k].power)
                && PowerRecords(rows)[k] == PowerRecord(row.timestamp, row.id, row.unit, row.power.value)
    {
      FilterMembership(rows, HasPower, kept[k]);
      assert kept[k] in rows;
    }
  }

  /** For a buffer made of whole readings the saved rows are exactly the P
      rows, one per reading, in arrival order. */
  lemma {:induction false} PowerRecordsOfReadings(readings: seq<Reading>)
    ensures |PowerRecords(RowsOf(readings))| == |readings|
    ensures forall k :: 0 <= k < |readings| ==>
              PowerRecords(RowsOf(readings))[k] == PowerRecord(readings[k].timestamp, SensorId, P, readings[k].power)
    decreases |readings|
  {
    if readings != [] {
      var n := |readings|;
      var init := readings[..n - 1];
      PowerRecordsOfReadings(init);
      var x := readings[n - 1];
      FilterAppend(RowsOf(init), ReadingRows(x), HasPower);
      var kept := Filter(RowsOf(readings), HasPower);
      PowerRowOfReading(x);
      assert kept == Filter(RowsOf(init), HasPower) + [ReadingRows(x)[0]];
      forall k | 0 <= k < n
        ensures PowerRecords(RowsOf(readings))[k] == PowerRecord(readings[k].timestamp, SensorId, P, readings[k].power)
      {
        if k < n - 1 {
          assert readings[k] == init[k];
          assert kept[k] == Filter(RowsOf(init), HasPower)[k];
        }
      }
    }
  }

  /** Of the three rows of a reading only the P row has a Power value. */
  lemma PowerRowOfReading(x: Reading)
    ensures Filter(ReadingRows(x), HasPower) == [ReadingRows(x)[0]]
  {
    var r := ReadingRows(x);
    assert r[1..][1..] == [r[2]];
    assert [r[2]][1..] == [];
    assert Filter([r[2]], HasPower) == [];
    assert Filter(r[1..], HasPower) == [];
  }

  /** An empty snapshot saves a file holding only the header row. */
  lemma EmptySnapshotSavesHeaderOnly()
    ensures Csv(PowerHeader, PowerRecords([])) == Csv(PowerHeader, [])
    ensures Csv(SampleHeader, Filter([], SampleHasPower)) == Csv(SampleHeader, [])
  {
  }
}
