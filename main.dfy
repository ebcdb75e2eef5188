/** main.py (and old/main.py, the same file): the animation tick over the
    utils.py sampler, a buffer bounded to MaxLength rows, the three unit
    series that are plotted, and the power CSV saved under the date name
    fixed at start-up. */
module Main {
  import opened Common
  import opened PortResolver
  import opened SensorLink
  import opened ProcessSampler
  import opened Records
  import opened Telemetry
  import opened Persistence
  import opened PowerSample
  import Utils

  /** The module-level state of main.py: the global `df`, `date_name`, and
      the utils.py settings it samples through. */
  class Script {
    const df: RowBuffer
    const dateName: string
    const settings: Utils.Settings

    ghost predicate Valid()
      reads df
    {
      df.Valid() && settings.numCores >= 1
    }

    constructor (dateName: string, settings: Utils.Settings)
      requires settings.numCores >= 1
      ensures Valid() && fresh(df) && df.rows == []
      ensures this.dateName == dateName && this.settings == settings
    {
      df := new RowBuffer();
      this.dateName := dateName;
      this.settings := settings;
    }

    /** `animation_update`: sample; an exception from the sampler ends the
        tick before anything else changes; otherwise append, trim to the
        newest MaxLength rows and take the three unit series. Plotting an
        empty series raises, which ends the tick before the save; otherwise
        the CSV is overwritten with the rows that have a Power value. */
    method AnimationUpdate(platform: Platform, ports: seq<PortInfo>, conn: Connection,
                           timestamp: int, table: seq<Process>, dataDir: DataDir<PowerRecord>)
      returns (r: Result<()>, power: seq<Row>, voltage: seq<Row>, current: seq<Row>)
      requires Valid()
      modifies settings`port, conn, df, dataDir
      ensures Valid()
      ensures settings.port == Resolve(platform, ports, Ch340Targets)
      ensures settings.port == None ==>
                r == (if Plottable(old(df.rows)) then Ok(()) else Raised(PlotTypeError))
                && df.rows == old(df.rows) && conn.trace == old(conn.trace) && conn.replies == old(conn.replies)
      ensures settings.port != None && !conn.opens ==>
                r == Raised(SerialException) && df.rows == old(df.rows)
                && conn.trace == old(conn.trace) && conn.replies == old(conn.replies)
                && dataDir.files == old(dataDir.files)
      ensures settings.port != None && conn.opens ==>
                var sampled := Utils.SensorRows(Take(NextReply(old(conn.replies)), FrameReadLength), timestamp, table, settings.numCores);
                conn.trace == old(conn.trace) + SampleRequest && conn.replies == LaterReplies(old(conn.replies))
                && (sampled.Raised? ==>
                      r == Raised(sampled.error) && df.rows == old(df.rows) && dataDir.files == old(dataDir.files))
                && (sampled.Ok? ==> r == Ok(()) && df.rows == Trim(old(df.rows) + sampled.value, MaxLength))
      ensures r.Ok? || r == Raised(PlotTypeError) ==>
                power == Series(df.rows, P) && voltage == Series(df.rows, U) && current == Series(df.rows, I)
      ensures r.Ok? <==> Plottable(df.rows) && !(settings.port != None && (!conn.opens || Utils.CombinedCpu(table).Raised?))
      ensures r.Ok? ==>
                dataDir.files == old(dataDir.files)[MeasurementsPath(dateName) := Csv(PowerHeader, PowerRecords(df.rows))]
      ensures r.Raised? ==> dataDir.files == old(dataDir.files)
    {
      var fetched := settings.GetNewSensorValues(platform, ports, conn, timestamp, table);
      if fetched.Raised? {
        return Raised(fetched.error), [], [], [];
      }
      assert old(df.rows) + [] == old(df.rows);
      if settings.port != None && conn.opens {
        var frame := Take(NextReply(old(conn.replies)), FrameReadLength);
        AppendedReadingIsPlottable(df.rows, ReadingOf(frame, timestamp, Utils.CombinedCpu(table).value, settings.numCores));
      }
      df.Append(fetched.value);
      power := Series(df.rows, P);
      voltage := Series(df.rows, U);
      current := Series(df.rows, I);
      if power == [] || voltage == [] || current == [] {
        return Raised(PlotTypeError), power, voltage, current;
      }
      Utils.SaveDataToCsv(dataDir, df.rows, dateName);
      r := Ok(());
    }
  }
}
