/** main_v2.py: multi-target port detection, a handshake whose failures are
    caught and logged, summed process metrics with the memory-weighted
    energy formula, an unbounded wide-format table, its grouped view and a
    CSV at a path fixed when the script starts. */
module MainV2 {
  import opened Common
  import opened PortResolver
  import opened SensorLink
  import opened FrameDecoder
  import opened ProcessSampler
  import opened Energy
  import opened Records
  import opened Telemetry
  import opened Persistence

  /** `PROCESS_NAMES`. */
  const ProcessNames: seq<string> := ["rstudio.exe", "rsession-utf8.exe"]

  /** How `check_connection` ends. It always returns normally; a failure is
      only logged. */
  datatype ConnectionLog = NoPortDetected | Established | Failed(error: PyError)

  /** The row `get_new_sensor_values` builds from a frame and the process table. */
  function SampleOf(frame: seq<byte>, elapsedTime: real, table: seq<Process>, numCores: int): SampleRow
    requires numCores >= 1
  {
    var voltage := Voltage(frame);
    var current := Current(frame);
    var cpu := NormalizeCpuUsage(TotalUsage(table, ProcessNames, CpuPercent), numCores);
    var energy := CalculateEnergy(voltage, current, cpu, TotalUsage(table, ProcessNames, MemoryPercent), 0.0);
    SampleRow(Some(elapsedTime), Some(energy), Some(voltage), Some(current))
  }

  /** A sampled row holds the decoded EPS1 voltage and current, a
      non-negative energy when the process readings are non-negative, and
      every cell, so cleaning keeps it and the CSV saves it. */
  lemma SampleOfProperties(frame: seq<byte>, elapsedTime: real, table: seq<Process>, numCores: int)
    requires numCores >= 1 && |frame| >= 12
    ensures SampleOf(frame, elapsedTime, table, numCores).elapsedTime == Some(elapsedTime)
    ensures SampleOf(frame, elapsedTime, table, numCores).voltage == Some((frame[8] as int + 256 * frame[9] as int) as real / 100.0)
    ensures SampleOf(frame, elapsedTime, table, numCores).current == Some((frame[10] as int + 256 * frame[11] as int) as real / 10.0)
    ensures (forall j :: 0 <= j < |table| ==> table[j].cpu >= 0.0 && table[j].mem >= 0.0) ==>
              SampleOf(frame, elapsedTime, table, numCores).power.value >= 0.0
    ensures HasAnyValue(SampleOf(frame, elapsedTime, table, numCores))
    ensures SampleHasPower(SampleOf(frame, elapsedTime, table, numCores))
  {
    DecodeFullFrame(frame);
    var cpu := NormalizeCpuUsage(TotalUsage(table, ProcessNames, CpuPercent), numCores);
    NormalizeIsClamp(TotalUsage(table, ProcessNames, CpuPercent), numCores);
    if forall j :: 0 <= j < |table| ==> table[j].cpu >= 0.0 && table[j].mem >= 0.0 {
      UsageNonNegative(table, ProcessNames, MemoryPercent);
      EnergyNonNegative(Voltage(frame), Current(frame), cpu, TotalUsage(table, ProcessNames, MemoryPercent), 0.0);
    }
  }

  /** The module-level state of main_v2.py: `PMD_SETTINGS['port']`,
      `start_time`, `NUM_CORES`, `date_name` and the global `df`. */
  class Script {
    var port: Option<string>
    const startTime: real
    const numCores: int
    const dateName: string
    const df: SampleTable

    ghost predicate Valid()
    {
      numCores >= 1
    }

    constructor (startTime: real, numCores: int, dateName: string)
      requires numCores >= 1
      ensures Valid() && fresh(df) && df.rows == [] && port == None
      ensures this.startTime == startTime && this.numCores == numCores && this.dateName == dateName
    {
      port := None;
      this.startTime := startTime;
      this.numCores := numCores;
      this.dateName := dateName;
      df := new SampleTable();
    }

    /** `check_connection`: detect the port, store it, and run the handshake
        only when a port was found; never raise. */
    method CheckConnection(platform: Platform, ports: seq<PortInfo>, conn: Connection) returns (log: ConnectionLog)
      modifies this`port, conn
      ensures port == Resolve(platform, ports, V2Targets)
      ensures port == None ==>
                log == NoPortDetected && conn.trace == old(conn.trace) && conn.replies == old(conn.replies)
      ensures port != None ==>
                var h := HandshakeOf(conn.opens, NextReply(old(conn.replies)));
                conn.trace == old(conn.trace) + h.ops
                && log == (if h.failure == None then Established else Failed(h.failure.value))
                && conn.replies == (if !conn.opens then old(conn.replies)
                                    else if Take(NextReply(old(conn.replies)), WelcomeReadLength) == Welcome
                                    then LaterReplies(LaterReplies(old(conn.replies)))
                                    else LaterReplies(old(conn.replies)))
    {
      port := DetectSerialPort(platform, ports, V2Targets);
      if port == None {
        return NoPortDetected;
      }
      if !conn.opens {
        return Failed(SerialException);
      }
      conn.Write(IdentifyCommand);
      var welcome := conn.Read(WelcomeReadLength);
      if welcome != Welcome {
        return Failed(AssertionError);
      }
      conn.Write(DescriptorCommand);
      var _ := conn.Read(DescriptorReadLength);
      return Established;
    }

    /** `get_new_sensor_values`: without a port, or when the port does not
        open, an empty table and no I/O; otherwise request one frame and
        build exactly one row from it. */
    method GetNewSensorValues(conn: Connection, now: real, table: seq<Process>) returns (rows: seq<SampleRow>)
      requires Valid()
      modifies conn
      ensures port == None || !conn.opens ==>
                rows == [] && conn.trace == old(conn.trace) && conn.replies == old(conn.replies)
      ensures port != None && conn.opens ==>
                conn.trace == old(conn.trace) + SampleRequest
                && conn.replies == LaterReplies(old(conn.replies))
                && rows == [SampleOf(Take(NextReply(old(conn.replies)), FrameReadLength), now - startTime, table, numCores)]
    {
      if port == None || !conn.opens {
        return [];
      }
      conn.Write(SampleCommand);
      var frame := conn.Read(FrameReadLength);
      var elapsedTime := now - startTime;
      var voltage := Voltage(frame);
      var current := Current(frame);
      var metrics := GetCpuUsage(ProcessNames, table);
      var cpu := NormalizeCpuUsage(metrics.cpuUsage, numCores);
      var energy := CalculateEnergy(voltage, current, cpu, metrics.memoryUsage, metrics.temperature);
      return [SampleRow(Some(elapsedTime), Some(energy), Some(voltage), Some(current))];
    }

    /** One tick of the animation: fetch, append the cleaned rows, compute
        the grouped views that are plotted, and save the CSV. */
    method AnimationUpdate(conn: Connection, now: real, table: seq<Process>, dataDir: DataDir<SampleRow>)
      returns (powerView: map<real, Option<real>>, voltageView: map<real, Option<real>>, currentView: map<real, Option<real>>)
      requires Valid()
      modifies conn, df, dataDir
      ensures port == None || !conn.opens ==>
                df.rows == old(df.rows) && conn.trace == old(conn.trace) && conn.replies == old(conn.replies)
      ensures port != None && conn.opens ==>
                conn.trace == old(conn.trace) + SampleRequest && conn.replies == LaterReplies(old(conn.replies))
                && df.rows == old(df.rows) + [SampleOf(Take(NextReply(old(conn.replies)), FrameReadLength), now - startTime, table, numCores)]
      ensures powerView == GroupedMean(df.rows, PowerColumn)
      ensures voltageView == GroupedMean(df.rows, VoltageColumn)
      ensures currentView == GroupedMean(df.rows, CurrentColumn)
      ensures dataDir.files == old(dataDir.files)[MeasurementsPath(dateName) := Csv(SampleHeader, Filter(df.rows, SampleHasPower))]
    {
      var newData := GetNewSensorValues(conn, now, table);
      if newData != [] {
        assert Filter(newData, HasAnyValue) == newData by {
          assert newData[1..] == [];
        }
      }
      df.Append(newData);
      powerView := GroupedMean(df.rows, PowerColumn);
      voltageView := GroupedMean(df.rows, VoltageColumn);
      currentView := GroupedMean(df.rows, CurrentColumn);
      SaveDataToCsv(dataDir, df.rows, dateName);
    }
  }

  /** `save_data_to_csv`: overwrite the run's file with the rows that have a
      Power value, in order. */
  method SaveDataToCsv(dataDir: DataDir<SampleRow>, rows: seq<SampleRow>, dateName: string)
    modifies dataDir
    ensures dataDir.files == old(dataDir.files)[MeasurementsPath(dateName) := Csv(SampleHeader, Filter(rows, SampleHasPower))]
  {
    dataDir.WriteCsv(MeasurementsPath(dateName), Csv(SampleHeader, Filter(rows, SampleHasPower)));
  }
}
