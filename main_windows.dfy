/** old/main_windows.py: a fixed COM port, a handshake and sampler that
    raise on failure, one watched process, a buffer bounded to MaxLength
    rows, and a power CSV whose name is the minute of each save. */
module MainWindows {
  import opened Common
  import opened SensorLink
  import opened ProcessSampler
  import opened Records
  import opened Telemetry
  import opened Persistence
  import opened PowerSample

  /** `PMD_SETTINGS['port']`: the connection every call opens. */
  const Port: string := "COM4"

  /** `PROCESS_NAME`. */
  const ProcessName: string := "MATLAB.exe"

  /** The DataFrame built after the frame was read: the three rows of one
      reading, or the error the process lookup raised. */
  function SensorRows(frame: seq<byte>, timestamp: int, table: seq<Process>, numCores: int): Result<seq<Row>>
    requires numCores >= 1
  {
    match FirstCpu(table, ProcessName)
    case Raised(e) => Raised(e)
    case Ok(cpu) => Ok(ReadingRows(ReadingOf(frame, timestamp, cpu, numCores)))
  }

  /** The sampler raises exactly when the first MATLAB.exe process cannot
      be read; otherwise the P row's power is the clamped product for that
      process's CPU, and is 0 when MATLAB.exe is not running. */
  lemma SensorRowsProperties(frame: seq<byte>, timestamp: int, table: seq<Process>, numCores: int)
    requires numCores >= 1
    ensures SensorRows(frame, timestamp, table, numCores).Raised? <==>
              exists k :: 0 <= k < |table| && table[k].name == ProcessName && table[k].access == Denied
                && forall j :: 0 <= j < k ==> table[j].name != ProcessName
    ensures (forall k :: 0 <= k < |table| ==> table[k].name != ProcessName) ==>
              SensorRows(frame, timestamp, table, numCores) == Ok(ReadingRows(ReadingOf(frame, timestamp, 0.0, numCores)))
              && SensorRows(frame, timestamp, table, numCores).value[0].power == Some(0.0)
  {
    FirstCpuIsEarliest(table, ProcessName);
    if SensorRows(frame, timestamp, table, numCores).Raised? {
      var k := FirstIndexOf(table, ProcessName);
      assert table[k].access == Denied;
    }
  }

  /** The index of the earliest process named `name`, when there is one. */
  lemma FirstIndexOf(table: seq<Process>, name: string) returns (k: nat)
    requires exists j :: 0 <= j < |table| && table[j].name == name
    ensures k < |table| && table[k].name == name
    ensures forall j :: 0 <= j < k ==> table[j].name != name
  {
    k := 0;
    while table[k].name != name
      invariant k < |table|
      invariant forall j :: 0 <= j < k ==> table[j].name != name
      decreases |table| - k
    {
      k := k + 1;
    }
  }

  /** `check_connection`: open the fixed port and run the handshake,
      raising what it raises. */
  method CheckConnection(conn: Connection) returns (r: Result<()>)
    modifies conn
    ensures var h := HandshakeOf(conn.opens, NextReply(old(conn.replies)));
            conn.trace == old(conn.trace) + h.ops
            && r == (if h.failure == None then Ok(()) else Raised(h.failure.value))
            && conn.replies == (if !conn.opens then old(conn.replies)
                                else if Take(NextReply(old(conn.replies)), WelcomeReadLength) == Welcome
                                then LaterReplies(LaterReplies(old(conn.replies)))
                                else LaterReplies(old(conn.replies)))
  {
    if !conn.opens {
      return Raised(SerialException);
    }
    conn.Write(IdentifyCommand);
    var welcome := conn.Read(WelcomeReadLength);
    if welcome != Welcome {
      return Raised(AssertionError);
    }
    conn.Write(DescriptorCommand);
    var _ := conn.Read(DescriptorReadLength);
    return Ok(());
  }

  /** `get_new_sensor_values`: a port that does not open raises; otherwise
      read one frame, then look the process up. */
  method GetNewSensorValues(conn: Connection, timestamp: int, table: seq<Process>, numCores: int)
    returns (r: Result<seq<Row>>)
    requires numCores >= 1
    modifies conn
    ensures !conn.opens ==>
              r == Raised(SerialException) && conn.trace == old(conn.trace) && conn.replies == old(conn.replies)
    ensures conn.opens ==>
              conn.trace == old(conn.trace) + SampleRequest
              && conn.replies == LaterReplies(old(conn.replies))
              && r == SensorRows(Take(NextReply(old(conn.replies)), FrameReadLength), timestamp, table, numCores)
  {
    if !conn.opens {
      return Raised(SerialException);
    }
    conn.Write(SampleCommand);
    var frame := conn.Read(FrameReadLength);
    var cpu := GetFirstCpuUsage(ProcessName, table);
    if cpu.Raised? {
      return Raised(cpu.error);
    }
    return Ok(ReadingRows(ReadingOf(frame, timestamp, cpu.value, numCores)));
  }

  /** `save_data_to_csv`: overwrite the file named by the minute of this
      save with the rows that have a Power value. */
  method SaveDataToCsv(dataDir: DataDir<PowerRecord>, rows: seq<Row>, minute: string)
    modifies dataDir
    ensures dataDir.files == old(dataDir.files)[PowerMeasurementsPath(minute) := Csv(PowerHeader, PowerRecords(rows))]
  {
    dataDir.WriteCsv(PowerMeasurementsPath(minute), Csv(PowerHeader, PowerRecords(rows)));
  }

  /** Saves in two different minutes go to two files: the later save
      leaves the earlier minute's file as it was. */
  lemma MinuteChangeKeepsEarlierFile(files: map<string, Csv<PowerRecord>>, m1: string, t1: Csv<PowerRecord>,
                                     m2: string, t2: Csv<PowerRecord>)
    requires m1 != m2
    ensures files[PowerMeasurementsPath(m1) := t1][PowerMeasurementsPath(m2) := t2][PowerMeasurementsPath(m1)] == t1
  {
    PathsInjective(m1, m2);
  }

  /** The module-level state of old/main_windows.py: the global `df` and
      `NUM_CORES`. */
  class Script {
    const df: RowBuffer
    const numCores: int

    ghost predicate Valid()
      reads df
    {
      df.Valid() && numCores >= 1
    }

    constructor (numCores: int)
      requires numCores >= 1
      ensures Valid() && fresh(df) && df.rows == [] && this.numCores == numCores
    {
      df := new RowBuffer();
      this.numCores := numCores;
    }

    /** `animation_update`: sample; an exception from the sampler ends the
        tick before anything else changes; otherwise append, trim to the
        newest MaxLength rows, take the three unit series, plot them (an
        empty series raises before the save; after a successful sample the
        buffer always holds all three units), and save under the minute of
        the save. */
    method AnimationUpdate(conn: Connection, timestamp: int, table: seq<Process>,
                           dataDir: DataDir<PowerRecord>, minute: string)
      returns (r: Result<()>, power: seq<Row>, voltage: seq<Row>, current: seq<Row>)
      requires Valid()
      modifies conn, df, dataDir
      ensures Valid()
      ensures !conn.opens ==>
                r == Raised(SerialException) && df.rows == old(df.rows) && dataDir.files == old(dataDir.files)
                && conn.trace == old(conn.trace) && conn.replies == old(conn.replies)
      ensures conn.opens ==>
                var sampled := SensorRows(Take(NextReply(old(conn.replies)), FrameReadLength), timestamp, table, numCores);
                conn.trace == old(conn.trace) + SampleRequest && conn.replies == LaterReplies(old(conn.replies))
                && (sampled.Raised? ==>
                      r == Raised(sampled.error) && df.rows == old(df.rows) && dataDir.files == old(dataDir.files))
                && (sampled.Ok? ==> r == Ok(()) && df.rows == Trim(old(df.rows) + sampled.value, MaxLength))
      ensures r.Ok? ==>
                Plottable(df.rows)
                && power == Series(df.rows, P) && voltage == Series(df.rows, U) && current == Series(df.rows, I)
                && dataDir.files == old(dataDir.files)[PowerMeasurementsPath(minute) := Csv(PowerHeader, PowerRecords(df.rows))]
    {
      var fetched := GetNewSensorValues(conn, timestamp, table, numCores);
      if fetched.Raised? {
        return Raised(fetched.error), [], [], [];
      }
      var frame := Take(NextReply(old(conn.replies)), FrameReadLength);
      AppendedReadingIsPlottable(df.rows, ReadingOf(frame, timestamp, FirstCpu(table, ProcessName).value, numCores));
      df.Append(fetched.value);
      power := Series(df.rows, P);
      voltage := Series(df.rows, U);
      current := Series(df.rows, I);
      if power == [] || voltage == [] || current == [] {
        return Raised(PlotTypeError), power, voltage, current;
      }
      SaveDataToCsv(dataDir, df.rows, minute);
      r := Ok(());
    }
  }
}
