/** utils.py: CH340 port detection, a handshake and a sampler that raise on
    failure, the long-format reading of the two R processes, and the power
    CSV writer that main.py and old/main.py call. */
module Utils {
  import opened Common
  import opened PortResolver
  import opened SensorLink
  import opened ProcessSampler
  import opened Records
  import opened Persistence
  import opened PowerSample

  const RStudio: string := "rstudio.exe"
  const RSession: string := "rsession-utf8.exe"

  /** `get_cpu_usage('rstudio.exe') + get_cpu_usage('rsession-utf8.exe')`:
      the first reading that raises ends the sum. */
  function CombinedCpu(table: seq<Process>): Result<real>
  {
    match FirstCpu(table, RStudio)
    case Raised(e) => Raised(e)
    case Ok(pro1) =>
      match FirstCpu(table, RSession)
      case Raised(e) => Raised(e)
      case Ok(pro2) => Ok(pro1 + pro2)
  }

  /** The DataFrame built after the frame was read: the three rows of one
      reading, or the error a process lookup raised. */
  function SensorRows(frame: seq<byte>, timestamp: int, table: seq<Process>, numCores: int): Result<seq<Row>>
    requires numCores >= 1
  {
    match CombinedCpu(table)
    case Raised(e) => Raised(e)
    case Ok(cpu) => Ok(ReadingRows(ReadingOf(frame, timestamp, cpu, numCores)))
  }

  /** The sampler raises exactly when the first process of either name is
      one whose CPU reading is denied; otherwise it yields the P, U and I
      rows of one reading whose power is the clamped product for the summed
      first readings. */
  lemma SensorRowsProperties(frame: seq<byte>, timestamp: int, table: seq<Process>, numCores: int)
    requires numCores >= 1
    ensures SensorRows(frame, timestamp, table, numCores).Raised? <==>
              FirstCpu(table, RStudio).Raised? || FirstCpu(table, RSession).Raised?
    ensures SensorRows(frame, timestamp, table, numCores).Raised? ==>
              SensorRows(frame, timestamp, table, numCores).error == ProcessUnavailable
    ensures SensorRows(frame, timestamp, table, numCores).Ok? ==>
              var rows := SensorRows(frame, timestamp, table, numCores).value;
              |rows| == 3 && rows[0].unit == P && rows[1].unit == U && rows[2].unit == I
              && rows[0].power == Some(ReadingOf(frame, timestamp, FirstCpu(table, RStudio).value + FirstCpu(table, RSession).value, numCores).power)
              && rows[0].power.value >= 0.0
  {
  }

  /** The `PMD_SETTINGS['port']` and `NUM_CORES` of utils.py. */
  class Settings {
    var port: Option<string>
    const numCores: int

    constructor (numCores: int)
      requires numCores >= 1
      ensures port == None && this.numCores == numCores
    {
      port := None;
      this.numCores := numCores;
    }

    /** `check_connection`: detect and store the port; without one return
        quietly, otherwise run the handshake and raise what it raises. */
    method CheckConnection(platform: Platform, ports: seq<PortInfo>, conn: Connection) returns (r: Result<()>)
      modifies this`port, conn
      ensures port == Resolve(platform, ports, Ch340Targets)
      ensures port == None ==>
                r == Ok(()) && conn.trace == old(conn.trace) && conn.replies == old(conn.replies)
      ensures port != None ==>
                var h := HandshakeOf(conn.opens, NextReply(old(conn.replies)));
                conn.trace == old(conn.trace) + h.ops
                && r == (if h.failure == None then Ok(()) else Raised(h.failure.value))
                && conn.replies == (if !conn.opens then old(conn.replies)
                                    else if Take(NextReply(old(conn.replies)), WelcomeReadLength) == Welcome
                                    then LaterReplies(LaterReplies(old(conn.replies)))
                                    else LaterReplies(old(conn.replies)))
    {
      port := DetectSerialPort(platform, ports, Ch340Targets);
      if port == None {
        return Ok(());
      }
      if !conn.opens {
        return Raised(SerialException);
      }
      conn.Write(IdentifyCommand);
      var welcome := conn.Read(WelcomeReadLength);
      if welcome != Welcome {
        return Raised(AssertionError);
      }
      conn.Write(DescriptorCommand);
      var _ := conn.Read(DescriptorReadLength);
      return Ok(());
    }

    /** `get_new_sensor_values`: detect the port again; without one an
        empty DataFrame; a port that does not open raises; otherwise read
        one frame, then look the processes up. */
    method GetNewSensorValues(platform: Platform, ports: seq<PortInfo>, conn: Connection, timestamp: int, table: seq<Process>)
      returns (r: Result<seq<Row>>)
      requires numCores >= 1
      modifies this`port, conn
      ensures port == Resolve(platform, ports, Ch340Targets)
      ensures port == None ==>
                r == Ok([]) && conn.trace == old(conn.trace) && conn.replies == old(conn.replies)
      ensures port != None && !conn.opens ==>
                r == Raised(SerialException) && conn.trace == old(conn.trace) && conn.replies == old(conn.replies)
      ensures port != None && conn.opens ==>
                conn.trace == old(conn.trace) + SampleRequest
                && conn.replies == LaterReplies(old(conn.replies))
                && r == SensorRows(Take(NextReply(old(conn.replies)), FrameReadLength), timestamp, table, numCores)
    {
      port := DetectSerialPort(platform, ports, Ch340Targets);
      if port == None {
        return Ok([]);
      }
      if !conn.opens {
        return Raised(SerialException);
      }
      conn.Write(SampleCommand);
      var frame := conn.Read(FrameReadLength);
      var pro1 := GetFirstCpuUsage(RStudio, table);
      if pro1.Raised? {
        return Raised(pro1.error);
      }
      var pro2 := GetFirstCpuUsage(RSession, table);
      if pro2.Raised? {
        return Raised(pro2.error);
      }
      var reading := ReadingOf(frame, timestamp, pro1.value + pro2.value, numCores);
      return Ok(ReadingRows(reading));
    }
  }

  /** `save_data_to_csv`: overwrite the run's file with the timestamp, id,
      unit and Power of the rows that have a Power value, in order. */
  method SaveDataToCsv(dataDir: DataDir<PowerRecord>, rows: seq<Row>, dateName: string)
    modifies dataDir
    ensures dataDir.files == old(dataDir.files)[MeasurementsPath(dateName) := Csv(PowerHeader, PowerRecords(rows))]
  {
    dataDir.WriteCsv(MeasurementsPath(dateName), Csv(PowerHeader, PowerRecords(rows)));
  }
}
