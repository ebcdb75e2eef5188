/** The rows the scripts build from one reading: utils.py and
    old/main_windows.py use a long format of three rows (P, U, I) per
    reading; main_v2.py a wide format of one row per reading. Cells that
    pandas would hold as None/NaN are `None`. */
module Records {
  import opened Common

  /** The `unit` column: power, voltage ("U") or current ("I"). */
  datatype Unit = P | U | I

  /** A long-format row `{timestamp, id, unit, Power, Voltage, Current}`.
      The timestamp is the given wall-clock value, kept opaque. */
  datatype Row = Row(timestamp: int, id: string, unit: Unit,
                     power: Option<real>, voltage: Option<real>, current: Option<real>)

  /** A wide-format row of main_v2.py `{elapsed_time, Power, Voltage, Current}`. */
  datatype SampleRow = SampleRow(elapsedTime: Option<real>, power: Option<real>,
                                 voltage: Option<real>, current: Option<real>)

  /** The sensor name of channel 2. */
  const SensorId: string := "EPS1"

  /** The values of one long-format reading. */
  datatype Reading = Reading(timestamp: int, power: real, voltage: real, current: real)

  /** A row holds a value in its own unit's column and in no other. */
  predicate OwnColumnOnly(r: Row)
  {
    (r.power.Some? <==> r.unit == P) && (r.voltage.Some? <==> r.unit == U) && (r.current.Some? <==> r.unit == I)
  }

  /** The DataFrame of one reading: rows P, U, I in that order, sharing the
      timestamp and the id. */
  function ReadingRows(x: Reading): (rows: seq<Row>)
    ensures |rows| == 3
    ensures forall k :: 0 <= k < 3 ==> rows[k].timestamp == x.timestamp && rows[k].id == SensorId && OwnColumnOnly(rows[k])
    ensures rows[0].unit == P && rows[1].unit == U && rows[2].unit == I
    ensures rows[0].power == Some(x.power) && rows[1].voltage == Some(x.voltage) && rows[2].current == Some(x.current)
  {
    [Row(x.timestamp, SensorId, P, Some(x.power), None, None),
     Row(x.timestamp, SensorId, U, None, Some(x.voltage), None),
     Row(x.timestamp, SensorId, I, None, None, Some(x.current))]
  }

  /** The rows of a run of readings, concatenated in arrival order. */
  function RowsOf(readings: seq<Reading>): seq<Row>
  {
    if readings == [] then [] else RowsOf(readings[..|readings| - 1]) + ReadingRows(readings[|readings| - 1])
  }

  /** Row 3k+j of a run is row j of reading k. */
  lemma {:induction false} RowsOfAt(readings: seq<Reading>, k: nat, j: nat)
    requires k < |readings| && j < 3
    ensures |RowsOf(readings)| == 3 * |readings|
    ensures RowsOf(readings)[3 * k + j] == ReadingRows(readings[k])[j]
    decreases |readings|
  {
    var n := |readings|;
    var init := readings[..n - 1];
    if k < n - 1 {
      RowsOfAt(init, k, j);
    } else if n > 1 {
      RowsOfAt(init, 0, 0);
    }
    assert readings[..n - 1][..] == init;
    if k < n - 1 {
      assert readings[k] == init[k];
    }
  }

  lemma {:induction false} RowsOfAppend(a: seq<Reading>, b: seq<Reading>)
    ensures RowsOf(a + b) == RowsOf(a) + RowsOf(b)
    decreases |b|
  {
    if b == [] {
      assert a + b == a;
    } else {
      assert (a + b)[..|a + b| - 1] == a + b[..|b| - 1];
      RowsOfAppend(a, b[..|b| - 1]);
    }
  }

  /** The row of a reading that carries unit `u`. */
  function UnitIndex(u: Unit): nat
  {
    match u
    case P => 0
    case U => 1
    case I => 2
  }

  /** `df[df.unit == u]`: the rows of one unit, in order; the rows main.py
      and old/main_windows.py pivot and plot. */
  function Series(rows: seq<Row>, u: Unit): seq<Row>
  {
    Filter(rows, UnitIs(u))
  }

  function UnitIs(u: Unit): Row -> bool
  {
    (r: Row) => r.unit == u
  }

  /** Every row belongs to exactly one of the three series. */
  lemma {:induction false} SeriesPartition(rows: seq<Row>)
    ensures |Series(rows, P)| + |Series(rows, U)| + |Series(rows, I)| == |rows|
  {
    if rows != [] {
      SeriesPartition(rows[1..]);
    }
  }

  /** Of the three rows of a reading exactly one is in each series. */
  lemma SeriesOfOneReading(x: Reading, u: Unit)
    ensures Series(ReadingRows(x), u) == [ReadingRows(x)[UnitIndex(u)]]
  {
    var r := ReadingRows(x);
    var keep := UnitIs(u);
    assert r[1..][1..] == [r[2]];
    assert [r[2]][1..] == [];
    assert Filter([r[2]], keep) == (if u == I then [r[2]] else []);
    assert Filter(r[1..], keep) == (if u == U then [r[1]] else []) + Filter([r[2]], keep);
    assert Filter(r, keep) == (if u == P then [r[0]] else []) + Filter(r[1..], keep);
  }

  /** For rows made of whole readings each series holds one row per
      reading, in arrival order, the one of its unit. */
  lemma {:induction false} SeriesOfReadings(readings: seq<Reading>, u: Unit)
    ensures |Series(RowsOf(readings), u)| == |readings|
    ensures forall k :: 0 <= k < |readings| ==> Series(RowsOf(readings), u)[k] == ReadingRows(readings[k])[UnitIndex(u)]
    decreases |readings|
  {
    if readings != [] {
      var n := |readings|;
      var init := readings[..n - 1];
      SeriesOfReadings(init, u);
      var x := readings[n - 1];
      FilterAppend(RowsOf(init), ReadingRows(x), UnitIs(u));
      SeriesOfOneReading(x, u);
      assert Series(RowsOf(readings), u) == Series(RowsOf(init), u) + [ReadingRows(x)[UnitIndex(u)]];
      forall k | 0 <= k < n - 1
        ensures Series(RowsOf(readings), u)[k] == ReadingRows(readings[k])[UnitIndex(u)]
      {
        assert readings[k] == init[k];
      }
    }
  }
}
