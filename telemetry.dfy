/** Telemetry stores: the bounded long-format buffer of main.py and
    old/main_windows.py (append, then keep the newest MaxLength rows), the
    unbounded wide-format table of main_v2.py, and the grouped mean view
    that main_v2.py plots. */
module Telemetry {
  import opened Common
  import opened Records

  /** `MAX_LENGTH`: the number of rows, not readings, kept in memory. */
  const MaxLength: nat := 1000

  /** The newest `n` rows, for n >= 1: `df.iloc[-n:]` applied only when
      `df.shape[0] > n`. (At n = 0 pandas' `iloc[-0:]` keeps every row
      while `Trim` keeps none; the scripts only use n = MaxLength.) */
  function Trim<T>(s: seq<T>, n: nat): seq<T>
  {
    if |s| > n then s[|s| - n..] else s
  }

  /** The retained rows are the newest min(|s|, n) rows of `s`, in order;
      when `s` fits nothing is dropped. */
  lemma TrimKeepsNewest<T>(s: seq<T>, n: nat)
    ensures |Trim(s, n)| == Min(|s|, n)
    ensures Trim(s, n) == s[|s| - Min(|s|, n)..]
    ensures |s| <= n ==> Trim(s, n) == s
  {
  }

  /** Trimming after every append keeps the same rows as trimming once
      after all of them: eviction only ever removes the oldest rows. */
  lemma TrimIncremental<T>(a: seq<T>, b: seq<T>, n: nat)
    ensures Trim(Trim(a, n) + b, n) == Trim(a + b, n)
  {
    if |a| > n {
      var ab := a + b;
      var k := |a| - n;
      assert Trim(a, n) + b == ab[k..];
      assert ab[k..][|ab[k..]| - n..] == ab[|ab| - n..];
    }
  }

  /** Strict FIFO: appending one row to a full buffer drops exactly the oldest. */
  lemma FifoEviction<T>(s: seq<T>, x: T, n: nat)
    requires |s| == n > 0
    ensures Trim(s + [x], n) == s[1..] + [x]
  {
    assert (s + [x])[1..] == s[1..] + [x];
  }

  /** Capacity counts rows, not readings: after 334 readings (1002 rows) the
      buffer starts with the current row of the oldest reading, so its first
      reading is cut after the P and U rows were evicted. */
  lemma EvictionSplitsReading(readings: seq<Reading>)
    requires |readings| == 334
    ensures Trim(RowsOf(readings), MaxLength)[0] == ReadingRows(readings[0])[2]
    ensures Trim(RowsOf(readings), MaxLength)[0].unit == I
  {
    RowsOfAt(readings, 0, 2);
  }

  /** The global `df` of main.py and old/main_windows.py. */
  class RowBuffer {
    var rows: seq<Row>

    ghost predicate Valid()
      reads this
    {
      |rows| <= MaxLength
    }

    constructor ()
      ensures Valid() && rows == []
    {
      rows := [];
    }

    /** `df = pd.concat([df, new]); if df.shape[0] > MAX_LENGTH: df = df.iloc[-MAX_LENGTH:]` */
    method Append(newRows: seq<Row>)
      requires Valid()
      modifies this
      ensures Valid()
      ensures rows == Trim(old(rows) + newRows, MaxLength)
    {
      rows := rows + newRows;
      if |rows| > MaxLength {
        rows := rows[|rows| - MaxLength..];
      }
    }
  }

  /** Every unit series of the buffer has a row, so each pivot has numeric
      data to plot. */
  predicate Plottable(rows: seq<Row>)
  {
    Series(rows, P) != [] && Series(rows, U) != [] && Series(rows, I) != []
  }

  /** After a reading is appended and the buffer trimmed, all three rows of
      that reading are still there, so every series can be plotted. */
  lemma AppendedReadingIsPlottable(rows: seq<Row>, x: Reading)
    ensures Plottable(Trim(rows + ReadingRows(x), MaxLength))
  {
    var t := Trim(rows + ReadingRows(x), MaxLength);
    forall u: Unit ensures Series(t, u) != [] {
      var k := UnitIndex(u);
      var row := ReadingRows(x)[k];
      assert t[|t| - 3 + k] == row;
      assert row in t;
      FilterMembership(t, UnitIs(u), row);
    }
  }

  /** A row that `dropna(how='all')` keeps: at least one cell is set. */
  predicate HasAnyValue(r: SampleRow)
  {
    r.elapsedTime.Some? || r.power.Some? || r.voltage.Some? || r.current.Some?
  }

  /** The global `df` of main_v2.py: it only ever grows. */
  class SampleTable {
    var rows: seq<SampleRow>

    constructor ()
      ensures rows == []
    {
      rows := [];
    }

    /** Drop all-NA rows (and columns) of the new data and concatenate it
        when anything is left; never trim. */
    method Append(newRows: seq<SampleRow>)
      modifies this
      ensures rows == old(rows) + Filter(newRows, HasAnyValue)
      ensures old(rows) <= rows && |rows| <= |old(rows)| + |newRows|
    {
      FilterLength(newRows, HasAnyValue);
      var clean := Filter(newRows, HasAnyValue);
      if |clean| > 0 {
        rows := rows + clean;
      }
    }
  }

  /** The plotted columns of main_v2.py. */
  datatype Column = PowerColumn | VoltageColumn | CurrentColumn

  function Cell(r: SampleRow, c: Column): Option<real>
  {
    match c
    case PowerColumn => r.power
    case VoltageColumn => r.voltage
    case CurrentColumn => r.current
  }

  /** A row that the mean for `key` takes into account: its key matches and
      its cell is not NaN. */
  predicate Counts(r: SampleRow, key: real, c: Column)
  {
    r.elapsedTime == Some(key) && Cell(r, c).Some?
  }

  function CountAt(rows: seq<SampleRow>, key: real, c: Column): nat
  {
    if rows == [] then 0
    else (if Counts(rows[0], key, c) then 1 else 0) + CountAt(rows[1..], key, c)
  }

  function SumAt(rows: seq<SampleRow>, key: real, c: Column): real
  {
    if rows == [] then 0.0
    else (if Counts(rows[0], key, c) then Cell(rows[0], c).value else 0.0) + SumAt(rows[1..], key, c)
  }

  /** The distinct non-NaN `elapsed_time` values. */
  function Keys(rows: seq<SampleRow>): set<real>
  {
    set k | 0 <= k < |rows| && rows[k].elapsedTime.Some? :: rows[k].elapsedTime.value
  }

  /** `df.groupby('elapsed_time')[column].mean()`: one entry per distinct
      key, the mean of the non-NaN values with that key (NaN, here None,
      when there are none). */
  function GroupedMean(rows: seq<SampleRow>, c: Column): map<real, Option<real>>
  {
    map key | key in Keys(rows) ::
      if CountAt(rows, key, c) == 0 then None else Some(SumAt(rows, key, c) / CountAt(rows, key, c) as real)
  }

  lemma {:induction false} CountSumAppend(rows: seq<SampleRow>, r: SampleRow, key: real, c: Column)
    ensures CountAt(rows + [r], key, c) == CountAt(rows, key, c) + (if Counts(r, key, c) then 1 else 0)
    ensures SumAt(rows + [r], key, c) == SumAt(rows, key, c) + (if Counts(r, key, c) then Cell(r, c).value else 0.0)
  {
    if rows == [] {
      assert [] + [r] == [r];
    } else {
      assert (rows + [r])[1..] == rows[1..] + [r];
      CountSumAppend(rows[1..], r, key, c);
    }
  }

  lemma {:induction false} AbsentKeyCountsNothing(rows: seq<SampleRow>, key: real, c: Column)
    requires key !in Keys(rows)
    ensures CountAt(rows, key, c) == 0 && SumAt(rows, key, c) == 0.0
  {
    if rows != [] {
      assert rows[0].elapsedTime != Some(key);
      assert key !in Keys(rows[1..]);
      AbsentKeyCountsNothing(rows[1..], key, c);
    }
  }

  /** Appending a row with a key not seen before adds that key, valued at
      the row's own cell, and leaves every other key's mean unchanged. */
  lemma GroupedMeanNewKey(rows: seq<SampleRow>, r: SampleRow, t: real, c: Column)
    requires r.elapsedTime == Some(t) && t !in Keys(rows)
    ensures GroupedMean(rows + [r], c) == GroupedMean(rows, c)[t := Cell(r, c)]
  {
    var rs := rows + [r];
    assert Keys(rs) == Keys(rows) + {t} by {
      forall key | key in Keys(rs) ensures key in Keys(rows) + {t} {
        var k :| 0 <= k < |rs| && rs[k].elapsedTime == Some(key);
        if k < |rows| { assert rows[k] == rs[k]; }
      }
      forall key | key in Keys(rows) ensures key in Keys(rs) {
        var k :| 0 <= k < |rows| && rows[k].elapsedTime == Some(key);
        assert rs[k] == rows[k];
      }
      assert rs[|rows|] == r;
    }
    forall key | key in Keys(rs)
      ensures GroupedMean(rs, c)[key] == GroupedMean(rows, c)[t := Cell(r, c)][key]
    {
      if key == t {
        NewKeyMean(rows, r, t, c);
        assert GroupedMean(rs, c)[t] == Cell(r, c);
      } else {
        CountSumAppend(rows, r, key, c);
        assert !Counts(r, key, c);
        assert key in Keys(rows);
      }
    }
  }

  lemma NewKeyMean(rows: seq<SampleRow>, r: SampleRow, t: real, c: Column)
    requires r.elapsedTime == Some(t) && t !in Keys(rows)
    ensures CountAt(rows + [r], t, c) == (if Cell(r, c).Some? then 1 else 0)
    ensures Cell(r, c).Some? ==> SumAt(rows + [r], t, c) == Cell(r, c).value
    ensures (if CountAt(rows + [r], t, c) == 0 then None
             else Some(SumAt(rows + [r], t, c) / CountAt(rows + [r], t, c) as real)) == Cell(r, c)
  {
    CountSumAppend(rows, r, t, c);
    AbsentKeyCountsNothing(rows, t, c);
    if Cell(r, c).Some? {
      var v := Cell(r, c).value;
      assert CountAt(rows + [r], t, c) as real == 1.0;
      assert SumAt(rows + [r], t, c) / 1.0 == v;
    }
  }

  lemma {:induction false} UniformSum(rows: seq<SampleRow>, key: real, c: Column, v: real)
    requires forall k :: 0 <= k < |rows| && Counts(rows[k], key, c) ==> Cell(rows[k], c) == Some(v)
    ensures SumAt(rows, key, c) == CountAt(rows, key, c) as real * v
  {
    if rows != [] {
      UniformSum(rows[1..], key, c, v);
    }
  }

  /** When every counted value under a key is the same, the mean is that
      value; in particular a key held by a single row shows that row's value. */
  lemma GroupedMeanOfEqualValues(rows: seq<SampleRow>, key: real, c: Column, v: real, i: nat)
    requires i < |rows| && Counts(rows[i], key, c)
    requires forall k :: 0 <= k < |rows| && Counts(rows[k], key, c) ==> Cell(rows[k], c) == Some(v)
    ensures key in GroupedMean(rows, c) && GroupedMean(rows, c)[key] == Some(v)
  {
    UniformSum(rows, key, c, v);
    CountPositive(rows, key, c, i);
    assert key in Keys(rows);
    var n := CountAt(rows, key, c) as real;
    MeanOfRepeatedValue(SumAt(rows, key, c), n, v);
  }

  lemma MeanOfRepeatedValue(sum: real, n: real, v: real)
    requires n > 0.0 && sum == n * v
    ensures sum / n == v
  {
    var q := sum / n;
    assert q * n == n * v;
    assert n * (q - v) == 0.0;
  }

  lemma {:induction false} CountPositive(rows: seq<SampleRow>, key: real, c: Column, i: nat)
    requires i < |rows| && Counts(rows[i], key, c)
    ensures CountAt(rows, key, c) > 0
  {
    if i > 0 {
      CountPositive(rows[1..], key, c, i - 1);
    }
  }
}
