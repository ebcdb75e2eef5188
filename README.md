# PMD-USB power monitor: acquisition pipeline in Dafny

This project models the acquisition pipeline of MATLAB-Power-Monitor. The
scripts poll an ElmorLabs PMD-USB power sensor over a serial port, read the
CPU share of the watched processes, estimate the power they draw, keep the
readings in memory and save them to CSV. The pipeline exists in four
near-duplicate scripts: `main_v2.py`, `utils.py` (called by `main.py`),
`main.py` together with its byte-identical copy `old/main.py`, and
`old/main_windows.py`. The shared pieces are modelled once:

- `PortResolver` (port_resolver.dfy): the first-match port search. A port
  matches when its description contains one of the target strings, compared
  case-sensitively. Windows and Linux run the same loop; any other platform
  finds nothing.
- `SensorLink` (sensor_link.dfy): one `with serial.Serial(...)` block, as a
  `Connection` object.
  - It records the ordered trace of writes and reads.
  - It answers reads from a queue of device replies, truncated to the
    requested length.
  - It has a flag saying whether the port opens.
  - The handshake is specified by `HandshakeOf`: the operations it performs
    and the exception it ends with.
- `FrameDecoder` (frame_decoder.dfy): the EPS1 fields of a 16-byte frame.
  - Voltage comes from bytes 8..10 and current from bytes 10..12, each read
    little-endian with Python slice semantics.
  - Voltage is in units of 1/100 V and current in units of 1/10 A.
- `ProcessSampler` (process_sampler.dfy): the process table as an explicit
  input.
  - The summing `get_cpu_usage` of main_v2.py adds the CPU and memory
    percentages over every listed name and every process with that name.
  - The first-match `get_cpu_usage` of utils.py and old/main_windows.py
    returns the CPU of the first process with the name.
- `Energy` (energy.dfy): CPU normalisation, `calculate_energy`, and the
  clamped power formula, all over exact rationals.
- `Records`, `PowerSample` (records.dfy, power_sample.dfy):
  - the three-row P/U/I long format;
  - the wide row of main_v2.py;
  - the unit series that are plotted.
- `Telemetry` (telemetry.dfy):
  - the bounded row buffer (`RowBuffer`): append, then keep the newest 1000
    rows;
  - the unbounded table of main_v2.py (`SampleTable`);
  - the `groupby('elapsed_time').mean()` view.
- `Persistence` (persistence.dfy): the `./data` directory as a map from path
  to written CSV. It also holds the two file-name rules and the filter that
  keeps rows with a Power value.
- One module per script (`MainV2`, `Utils`, `Main`, `MainWindows`). Each
  holds that script's global state as a class and its `check_connection`,
  `get_new_sensor_values`, `animation_update` and `save_data_to_csv` as
  methods. Each method is specified against the functions above.

An exception that a script lets escape is modelled as a
`Result.Raised(PyError)` return. These are `SerialException` for a port that
does not open, `AssertionError` for a wrong welcome message,
`ProcessUnavailable` for a process whose CPU cannot be read, and
`PlotTypeError` for an empty unit series handed to the plot (main.py and
old/main_windows.py).

The handshake compares the 17-byte literal `b'ElmorLabs PMD-USB'` with the
result of an 18-byte read. So only a reply of exactly those 17 bytes
passes, and a device that sends an 18th byte fails the assertion
(`SensorLink.LongReplyRejected`).

## Model

| member | source | states |
|---|---|---|
| Common.Slice | utils.py:113-114 | Python slicing `s[lo:hi]`: its length is min(hi, len(s))-lo clipped at 0, and element k is `s[lo+k]` |
| Common.Take | utils.py:105 | `ser.read(n)` returns at most n bytes: a prefix of what the device sent, of length min(n, sent) |
| Common.FilterMembership | utils.py:139 | a row survives a row filter iff it was in the input and passes the test |
| Common.FilterAppend | main.py:29 | filtering a concatenation is the concatenation of the filtered parts (order is kept) |
| Common.FilterKeepsAll | main_v2.py:185 | a filter that every row passes returns its input unchanged |
| Common.FilterLength | main_v2.py:185 | filtering never adds rows, and keeps the length iff every row passes |
| PortResolver.ContainsIffOccurs | main_v2.py:66 | the substring test `desc in port.description` holds iff the target occurs at some index |
| PortResolver.ContainsTransitive | utils.py:41 | a description containing a string that contains a target contains that target |
| PortResolver.FirstMatchIsEarliest | main_v2.py:63-77 | the search gives None iff no port matches, else the device of the earliest matching port |
| PortResolver.DetectSerialPort | main_v2.py:56-77 | the early-return loop returns exactly `Resolve`: the first match on Windows and Linux alike, None on other systems |
| PortResolver.Ch340PortMatchesV2 | main_v2.py:61 | every port that the CH340 target of utils.py accepts is also accepted by the targets of main_v2.py |
| PortResolver.ShorterNeverContains | main_v2.py:66 | a description shorter than a target never contains it |
| PortResolver.MatchIsCaseSensitive | main_v2.py:66 | the lower-case description "usb-serial" matches neither target |
| SensorLink.Connection.Write | utils.py:83 | a write appends one operation to the trace and consumes no reply |
| SensorLink.Connection.Read | utils.py:85 | a read returns the next reply cut to the requested length, appends to the trace and consumes the reply |
| SensorLink.WelcomeIs17Bytes | utils.py:85-86 | the welcome literal is 17 bytes, one less than the read length 18 |
| SensorLink.HandshakeSucceedsIff | utils.py:82-89 | the handshake ends without exception iff the port opens and the reply equals the 17-byte literal |
| SensorLink.LongReplyRejected | main_v2.py:119-120 | a reply of 18 or more bytes fails the assertion after exactly the identify write and read |
| SensorLink.DescriptorOnlyAfterWelcome | main_v2.py:116-124 | the operations are a prefix of write 0x00, read 18, write 0x02, read 100; 0x02 is written iff the welcome matched; success iff the whole sequence ran |
| FrameDecoder.ToBytesLE16 | utils.py:113 | a 16-bit value encodes as two little-endian bytes |
| FrameDecoder.FromBytesLEBound | utils.py:113 | `int.from_bytes(..., 'little')` of 0, 1 and 2 bytes is 0, the byte, and b0+256*b1 below 65536 |
| FrameDecoder.DecodeFullFrame | utils.py:111-114 | on a frame of 12 or more bytes: raw voltage b8+256*b9, raw current b10+256*b11, both below 65536; scaled by 1/100 and 1/10 |
| FrameDecoder.DecodeShortFrame | main_v2.py:152-153 | a short frame raises nothing: the missing bytes drop out of the slice, so an empty slice is 0 and a one-byte slice is that byte |
| FrameDecoder.DecodeEncodedFields | old/main_windows.py:89-90 | encoding raw values into bytes 8..12 and decoding gives them back |
| FrameDecoder.EncodeDecodedFields | old/main_windows.py:89-90 | decoding the fields and encoding them again gives back bytes 8..12 of the frame |
| FrameDecoder.DecodeOneVoltOneAmp | main_v2.py:152-153 | bytes 64 00 0A 00 at offset 8 decode to 1 V and 1 A |
| ProcessSampler.GetCpuUsage | main_v2.py:79-99 | the nested loops give the summed CPU and memory over every name and every process with that name, and temperature 0 |
| ProcessSampler.UsageOfAppend | main_v2.py:88-89 | a name's usage over two parts of the table is the sum of the two |
| ProcessSampler.TotalUsageAppend | main_v2.py:87 | usage over two name lists is the sum of the usages over each |
| ProcessSampler.NamesOrderAndRepetition | main_v2.py:87-93 | the order of the names does not matter, and a name listed twice is counted twice |
| ProcessSampler.NoMatchesGiveZero | main_v2.py:81-85 | with no process matching any name the sums stay at 0.0 |
| ProcessSampler.NameAbsentGivesZero | main_v2.py:88-89 | a name no process carries contributes 0.0 |
| ProcessSampler.DeniedContributesNothing | main_v2.py:90-97 | a process that vanished or denied access can be removed from the table without changing the sums |
| ProcessSampler.UsageNonNegative | main_v2.py:92-93 | non-negative process readings give non-negative sums |
| ProcessSampler.UsageOfNonNegative | main_v2.py:92-93 | non-negative process readings give a non-negative usage per name |
| ProcessSampler.FirstCpu | utils.py:58-65 | the only exception is an unreadable process; a value is 0.0 or the CPU of a process with the name |
| ProcessSampler.GetFirstCpuUsage | old/main_windows.py:46-53 | the early-return loop returns exactly `FirstCpu` |
| ProcessSampler.FirstCpuIsEarliest | utils.py:58-65 | with no process of the name the result is 0.0; otherwise it is the earliest such process's CPU, or the exception if that one cannot be read |
| ProcessSampler.FirstCpuAgreesWithSum | utils.py:58-65 | for a single readable process of the name, the first-match value equals the summed value of main_v2.py |
| Energy.NormalizeIsClamp | main_v2.py:101-105 | the result lies in [0,100], equals x/n when that is already in range, is 0 for negative x and 100 above 100n |
| Energy.NormalizeIdempotent | utils.py:68-70 | normalising a normalised value on one core changes nothing |
| Energy.NormalizeExamples | old/main_windows.py:56-58 | -5 on 4 cores gives 0, 1000 gives 100, 200 gives 50 |
| Energy.EnergyWithoutTemperature | main_v2.py:129-131 | with temperature 0 the last factor is 1, and `calculate_energy(12,2,50,0,0) == 12` |
| Energy.EnergyNonNegative | main_v2.py:129-131 | non-negative inputs give a non-negative energy |
| Energy.EnergyNotClamped | main_v2.py:129-131 | nothing clamps: -1 V at 1 A and 100 % CPU gives -1 |
| Energy.ClampedPowerProperties | utils.py:119 | the clamped power is never negative, equals V*I*cpu/100 when that is non-negative, and is `calculate_energy` without memory and temperature, clamped at 0 |
| Records.ReadingRows | utils.py:124-131 | one reading is three rows P, U, I sharing timestamp and id EPS1, each non-null only in its own column |
| Records.RowsOfAt | main.py:29 | in a run of readings, row 3k+j is row j of reading k, and there are 3 rows per reading |
| Records.RowsOfAppend | main.py:29 | the rows of two runs of readings are the rows of the first followed by those of the second |
| Records.SeriesPartition | main.py:36-38 | every row is in exactly one of the P, U and I series |
| Records.SeriesOfOneReading | old/main.py:36-38 | each series takes exactly one of a reading's three rows, the one of its unit |
| Records.SeriesOfReadings | old/main_windows.py:125-127 | over whole readings, each series has one row per reading, in arrival order |
| PowerSample.ReadingOfDecodes | utils.py:108-114 | a reading carries the capture time, voltage (b8+256*b9)/100 and current (b10+256*b11)/10 |
| PowerSample.ReadingOfPowerBounds | utils.py:118-119 | the power is V*I*cpu_norm/100, never negative and never above V*I |
| PowerSample.ScaledProductBounds | old/main_windows.py:93 | for non-negative V and I and a CPU share in [0,100], the clamp does nothing and the power is at most V*I |
| PowerSample.SaturatedCpuGivesFullPower | old/main_windows.py:91-93 | a CPU reading at or above 100 % per core gives power V*I |
| Telemetry.AppendedReadingIsPlottable | main.py:29-48 | after a reading's three rows are appended and the buffer trimmed, the P, U and I series are all non-empty, so the plot does not raise |
| Telemetry.TrimKeepsNewest | main.py:32-33 | the retained rows are the newest min(len(s), 1000) rows in order, and nothing is dropped when they fit |
| Telemetry.TrimIncremental | main.py:29-33 | trimming after every append equals trimming once at the end: eviction removes only the oldest rows |
| Telemetry.FifoEviction | old/main_windows.py:118-122 | one row appended to a full buffer evicts exactly the oldest row |
| Telemetry.EvictionSplitsReading | main.py:11 | capacity counts rows: after 334 readings the buffer starts at the I row of the oldest reading |
| Telemetry.RowBuffer.constructor | main.py:14 | the buffer starts empty |
| Telemetry.RowBuffer.Append | main.py:29-33 | the buffer becomes Trim(old ++ new, 1000) and holds at most 1000 rows |
| Telemetry.SampleTable.Append | main_v2.py:185-189 | the table becomes old ++ (new rows without the all-NA ones): it never trims, and the old rows stay a prefix |
| Telemetry.CountSumAppend | main_v2.py:192 | appending a row changes a key's count and sum only when the row counts for that key |
| Telemetry.AbsentKeyCountsNothing | main_v2.py:192 | a key that no row carries has count 0 and sum 0 |
| Telemetry.GroupedMeanNewKey | main_v2.py:192-194 | a row with a new elapsed_time adds that key, valued at the row's own cell, and leaves every other key's mean unchanged |
| Telemetry.NewKeyMean | main_v2.py:192-194 | the mean under a key held by one row is that row's cell, or NaN when the cell is NaN |
| Telemetry.UniformSum | main_v2.py:192 | when all counted values under a key are equal, the sum is count times that value |
| Telemetry.GroupedMeanOfEqualValues | main_v2.py:192-194 | a key whose counted values are all v has mean v (n copies of v average to v); a key held by one row shows that row's value |
| Telemetry.CountPositive | main_v2.py:192 | a key carried by a row with a value has a positive count |
| Persistence.DataDir.WriteCsv | main_v2.py:273 | mode 'w' replaces the file at the path and leaves every other file alone |
| Persistence.AffixInjective | main_v2.py:272 | the prefix and suffix of a path determine its middle |
| Persistence.PathsInjective | old/main_windows.py:181-182 | distinct date names give distinct CSV paths under both naming rules |
| Persistence.PowerRecords | utils.py:139 | there is one saved record per row with a Power value |
| Persistence.PowerRecordsAppend | utils.py:139 | the saved records of two runs of rows are those of the first followed by those of the second |
| Persistence.PowerRecordsMembership | utils.py:139-141 | every row with a Power value is saved, and every saved record is the projection of such a row |
| Persistence.PowerRecordsOfReadings | utils.py:139-141 | over whole readings the saved records are exactly the P rows, one per reading, in order |
| Persistence.PowerRowOfReading | utils.py:128 | of a reading's three rows only the P row has a Power value |
| Persistence.EmptySnapshotSavesHeaderOnly | old/main_windows.py:180-183 | an empty buffer saves a file holding only the header |
| MainV2.SampleOfProperties | main_v2.py:147-170 | a sampled row holds the elapsed time, the decoded voltage and current, and an energy that is non-negative for non-negative readings; cleaning and saving keep it |
| MainV2.Script.constructor | main_v2.py:39-41 | the table starts empty, no port is set, and the date name and start time are fixed |
| MainV2.Script.CheckConnection | main_v2.py:107-127 | the port becomes the detected one; without a port there is no I/O; otherwise the trace is the handshake; the handshake uses up no device reply when the port does not open, one after a wrong welcome and two after a match, and a failure is logged, not raised |
| MainV2.Script.GetNewSensorValues | main_v2.py:133-175 | no port or a port that does not open gives no rows; otherwise one frame request and exactly one row built from that frame |
| MainV2.Script.AnimationUpdate | main_v2.py:177-194 | without a port or an open connection nothing is sent or consumed and the table is unchanged; otherwise exactly the sample request is sent, one reply is consumed, and the table grows by exactly the sampled row; the grouped views are those of the new table; the fixed CSV is overwritten |
| MainV2.SaveDataToCsv | main_v2.py:261-275 | the file named by the start-up date name is replaced by the rows with a Power value, in order |
| Utils.SensorRowsProperties | utils.py:115-133 | the sampler raises iff either first process cannot be read; otherwise three rows whose P row has the clamped power for the summed first readings |
| Utils.Settings.constructor | utils.py:13-21 | no port is set at start |
| Utils.Settings.CheckConnection | utils.py:73-89 | the port becomes the detected CH340 port; without one there is no I/O; otherwise the trace is the handshake; the handshake uses up no device reply when the port does not open, one after a wrong welcome and two after a match, and its failure is raised |
| Utils.Settings.GetNewSensorValues | utils.py:92-133 | the port is detected again on every call; none gives an empty table without I/O; otherwise one frame request followed by the process lookups |
| Utils.SaveDataToCsv | utils.py:136-143 | the date-named file is replaced by timestamp, id, unit and Power of the rows with a Power value |
| Main.Script.constructor | main.py:13-15 | the buffer starts empty and the date name is fixed for the run |
| Main.Script.AnimationUpdate | main.py:23-86 | the sampler's exception leaves buffer and files untouched; otherwise the buffer is Trim(old ++ new, 1000) and the series are the unit filters; when some unit has no row (only possible on a tick without a port) plotting raises and nothing is saved; the tick succeeds exactly when all three series are non-empty and the sampler did not raise, and every save overwrites the one file named at start-up (old/main.py is the same file) |
| MainWindows.SensorRowsProperties | old/main_windows.py:75-109 | the sampler raises iff the first MATLAB.exe process cannot be read; without MATLAB.exe the power is 0 |
| MainWindows.CheckConnection | old/main_windows.py:61-72 | the trace is the handshake on the fixed port; the handshake uses up no device reply when the port does not open, one after a wrong welcome and two after a match, and its failure is raised |
| MainWindows.GetNewSensorValues | old/main_windows.py:75-109 | a port that does not open raises; otherwise one frame request followed by the MATLAB.exe lookup |
| MainWindows.SaveDataToCsv | old/main_windows.py:177-186 | the file named by the minute of the save is replaced by the rows with a Power value |
| MainWindows.MinuteChangeKeepsEarlierFile | old/main_windows.py:181-183 | a save in a later minute leaves the earlier minute's file as it was |
| MainWindows.Script.constructor | old/main_windows.py:26-29 | the buffer starts empty |
| MainWindows.Script.AnimationUpdate | old/main_windows.py:112-174 | the sampler's exception leaves buffer and files untouched; otherwise the buffer is Trim(old ++ new, 1000), all three series are non-empty so plotting cannot raise, the series are the unit filters, and the current minute's file is overwritten |

## Left out

- Plotting is left out: all of matplotlib, including the axes, titles, tick formatters, y-limit padding and `FuncAnimation`. The plotted data is modelled (the series and the grouped views); drawing it has no contract. The one plotting failure that ends a tick before its save, pandas refusing to plot an empty unit series in main.py and old/main_windows.py, is modelled as `PlotTypeError`.
- data_visualization.py is not part of this model. It is an offline report over a fixed CSV.
- `list_ports`, `print` and `logging` are left out. They have no effect on the data. `MainV2.ConnectionLog` stands for the one log message that reports an outcome.
- Serial I/O is modelled only by the `Connection` object, which holds the given replies and a flag for whether the port opens.
  - Baud rate, time-outs and `flush` are left out.
  - Errors after a successful open (a read or write that raises) are left out.
  - A read returning fewer bytes than asked is modelled, through the replies given.
- `psutil` enumeration is replaced by a fixed process table taken as input. `cpu_percent(interval=…)` blocking and the table changing between lookups are left out.
  - `NUM_CORES` is a parameter with `numCores >= 1`.
  - In main_v2.py an `AccessDenied` that is raised by `memory_percent` after `cpu_percent` succeeded keeps the CPU part. This is the `CpuOnly` access value.
- Clocks (`time.time`, `datetime.now`, `pd.Timestamp`, `strftime`) are given values. main_v2.py's elapsed time is `now - startTime` over `real`. The timestamp of the long format is an opaque `int`. The date names are opaque strings.
- Floating point is not modelled: formulas are over exact `real`, and `round(power_value, 4)` is left out. Raw sensor units are integers.
- pandas column mechanics are left out. This covers the unused `timestamp` column of main_v2.py's initial `df`, and the KeyError that `groupby('elapsed_time')` raises while that `df` has never received a row. It also covers the duplicate-index error of `pivot` on equal timestamps, and the dtype and number formatting of `to_csv`.
- MainV2.Script.AnimationUpdate: on a tick before the table's first row (for example while no port is found), main_v2.py raises that KeyError at the `groupby` and saves nothing, while the model saves a header-only CSV at the start-up path. The KeyError is a pandas column detail and is left out.
- `os.makedirs('./data')` and CSV write failures (caught and logged in every script) are left out. Every save is modelled as succeeding.
- `MainWindows.Port` ("COM4") is recorded as a constant only. The connection passed to the old/main_windows.py methods stands for that port.
- Concurrency is left out: there is none. Ticks are successive method calls on the same objects.
