/** The long-format reading of utils.py and old/main_windows.py: decode the
    EPS1 fields, normalise the summed CPU percentage of the watched
    processes, and clamp the power at zero. */
module PowerSample {
  import opened Common
  import opened FrameDecoder
  import opened Energy
  import opened Records

  /** The reading built from a frame, the capture time and the raw CPU
      percentage of the watched processes. */
  function ReadingOf(frame: seq<byte>, timestamp: int, cpuUsage: real, numCores: int): Reading
    requires numCores >= 1
  {
    var voltage := Voltage(frame);
    var current := Current(frame);
    Reading(timestamp, ClampedPower(voltage, current, NormalizeCpuUsage(cpuUsage, numCores)), voltage, current)
  }

  /** The reading carries the capture time and the decoded EPS1 voltage
      and current. */
  lemma ReadingOfDecodes(frame: seq<byte>, timestamp: int, cpuUsage: real, numCores: int)
    requires numCores >= 1 && |frame| >= 12
    ensures ReadingOf(frame, timestamp, cpuUsage, numCores).timestamp == timestamp
    ensures ReadingOf(frame, timestamp, cpuUsage, numCores).voltage == (frame[8] as int + 256 * frame[9] as int) as real / 100.0
    ensures ReadingOf(frame, timestamp, cpuUsage, numCores).current == (frame[10] as int + 256 * frame[11] as int) as real / 10.0
  {
    DecodeFullFrame(frame);
  }

  /** The power is the product scaled by the normalised CPU share: never
      negative and never above voltage times current. */
  lemma ReadingOfPowerBounds(frame: seq<byte>, timestamp: int, cpuUsage: real, numCores: int)
    requires numCores >= 1
    ensures ReadingOf(frame, timestamp, cpuUsage, numCores).power
            == Voltage(frame) * Current(frame) * NormalizeCpuUsage(cpuUsage, numCores) / 100.0
    ensures 0.0 <= ReadingOf(frame, timestamp, cpuUsage, numCores).power <= Voltage(frame) * Current(frame)
  {
    var voltage := Voltage(frame);
    var current := Current(frame);
    var cpu := NormalizeCpuUsage(cpuUsage, numCores);
    assert voltage >= 0.0 && current >= 0.0;
    NormalizeIsClamp(cpuUsage, numCores);
    ScaledProductBounds(voltage, current, cpu);
    assert ReadingOf(frame, timestamp, cpuUsage, numCores).power == ClampedPower(voltage, current, cpu);
  }

  lemma ScaledProductBounds(voltage: real, current: real, cpu: real)
    requires voltage >= 0.0 && current >= 0.0 && 0.0 <= cpu <= 100.0
    ensures ClampedPower(voltage, current, cpu) == voltage * current * cpu / 100.0
    ensures 0.0 <= ClampedPower(voltage, current, cpu) <= voltage * current
  {
    var vi := voltage * current;
    NonNegativeProduct(voltage, current);
    NonNegativeProduct(vi, cpu);
    NonNegativeProduct(vi, 100.0 - cpu);
    assert vi * (100.0 - cpu) == vi * 100.0 - vi * cpu;
  }

  lemma NonNegativeProduct(x: real, y: real)
    requires x >= 0.0 && y >= 0.0
    ensures x * y >= 0.0
  {
  }

  /** A process reading above the core count's capacity saturates: the
      power is then voltage times current. */
  lemma SaturatedCpuGivesFullPower(frame: seq<byte>, timestamp: int, cpuUsage: real, numCores: int)
    requires numCores >= 1
    requires cpuUsage >= 100.0 * numCores as real
    ensures ReadingOf(frame, timestamp, cpuUsage, numCores).power == Voltage(frame) * Current(frame)
  {
    ReadingOfPowerBounds(frame, timestamp, cpuUsage, numCores);
    NormalizeIsClamp(cpuUsage, numCores);
    if cpuUsage == 100.0 * numCores as real {
      assert cpuUsage / numCores as real == 100.0;
    }
  }
}
