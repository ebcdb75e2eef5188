/** Energy estimator: CPU normalisation and the two power formulas, over
    exact rationals. */
module Energy {

  function MinReal(a: real, b: real): real { if a <= b then a else b }
  function MaxReal(a: real, b: real): real { if a >= b then a else b }

  /** `normalize_cpu_usage`: `min(max(cpu_usage / num_cores, 0.0), 100.0)`. */
  function NormalizeCpuUsage(cpuUsage: real, numCores: int): real
    requires numCores >= 1
  {
    MinReal(MaxReal(cpuUsage / numCores as real, 0.0), 100.0)
  }

  /** `calculate_energy` of main_v2.py; it clamps nothing. */
  function CalculateEnergy(voltage: real, current: real, cpuUsage: real, memoryUsage: real, temperature: real): real
  {
    (voltage * current * cpuUsage / 100.0) * (1.0 + memoryUsage / 100.0) * (1.0 + temperature / 100.0)
  }

  /** The power of utils.py and old/main_windows.py: `max(V * I * cpu / 100, 0)`. */
  function ClampedPower(voltage: real, current: real, cpuUsage: real): real
  {
    MaxReal(voltage * current * cpuUsage / 100.0, 0.0)
  }

  /** The normalised value is a percentage, equals the per-core share
      whenever that share already is one, and otherwise is the nearer bound. */
  lemma NormalizeIsClamp(cpuUsage: real, numCores: int)
    requires numCores >= 1
    ensures 0.0 <= NormalizeCpuUsage(cpuUsage, numCores) <= 100.0
    ensures 0.0 <= cpuUsage / numCores as real <= 100.0 ==>
              NormalizeCpuUsage(cpuUsage, numCores) == cpuUsage / numCores as real
    ensures cpuUsage < 0.0 ==> NormalizeCpuUsage(cpuUsage, numCores) == 0.0
    ensures cpuUsage > 100.0 * numCores as real ==> NormalizeCpuUsage(cpuUsage, numCores) == 100.0
  {
    var n := numCores as real;
    if cpuUsage < 0.0 {
      assert cpuUsage / n < 0.0;
    }
    if cpuUsage > 100.0 * n {
      assert cpuUsage / n > 100.0;
    }
  }

  /** Normalising an already normalised value on one core changes nothing. */
  lemma NormalizeIdempotent(cpuUsage: real, numCores: int)
    requires numCores >= 1
    ensures NormalizeCpuUsage(NormalizeCpuUsage(cpuUsage, numCores), 1) == NormalizeCpuUsage(cpuUsage, numCores)
  {
    NormalizeIsClamp(cpuUsage, numCores);
  }

  lemma NormalizeExamples()
    ensures NormalizeCpuUsage(-5.0, 4) == 0.0
    ensures NormalizeCpuUsage(1000.0, 4) == 100.0
    ensures NormalizeCpuUsage(200.0, 4) == 50.0
  {
  }

  /** With temperature 0 the last factor is 1, and 12 V at 2 A with half the
      CPU and no memory use gives 12. */
  lemma EnergyWithoutTemperature(voltage: real, current: real, cpuUsage: real, memoryUsage: real)
    ensures CalculateEnergy(voltage, current, cpuUsage, memoryUsage, 0.0)
            == (voltage * current * cpuUsage / 100.0) * (1.0 + memoryUsage / 100.0)
    ensures CalculateEnergy(12.0, 2.0, 50.0, 0.0, 0.0) == 12.0
  {
  }

  /** Non-negative inputs give non-negative energy. */
  lemma EnergyNonNegative(voltage: real, current: real, cpuUsage: real, memoryUsage: real, temperature: real)
    requires voltage >= 0.0 && current >= 0.0 && cpuUsage >= 0.0 && memoryUsage >= 0.0 && temperature >= 0.0
    ensures CalculateEnergy(voltage, current, cpuUsage, memoryUsage, temperature) >= 0.0
  {
    var base := voltage * current * cpuUsage / 100.0;
    assert voltage * current >= 0.0;
    assert base >= 0.0;
    assert base * (1.0 + memoryUsage / 100.0) >= 0.0;
  }

  /** Nothing inside `calculate_energy` clamps: a negative reading passes
      through to a negative energy. */
  lemma EnergyNotClamped()
    ensures CalculateEnergy(-1.0, 1.0, 100.0, 0.0, 0.0) == -1.0
  {
  }

  /** The clamped power is never negative, equals the uncorrected product
      whenever that is non-negative, and is that of `calculate_energy`
      without memory and temperature terms, clamped at zero. */
  lemma ClampedPowerProperties(voltage: real, current: real, cpuUsage: real)
    ensures ClampedPower(voltage, current, cpuUsage) >= 0.0
    ensures voltage * current * cpuUsage >= 0.0 ==>
              ClampedPower(voltage, current, cpuUsage) == voltage * current * cpuUsage / 100.0
    ensures ClampedPower(voltage, current, cpuUsage) == MaxReal(CalculateEnergy(voltage, current, cpuUsage, 0.0, 0.0), 0.0)
  {
  }
}
