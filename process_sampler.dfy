/** Process metrics sampler: CPU and memory percentages of the processes
    with given names, read from a snapshot of the process table. */
module ProcessSampler {
  import opened Common

  /** How far psutil got before NoSuchProcess or AccessDenied: `Denied` when
      opening the process or `cpu_percent` fails, `CpuOnly` when only
      `memory_percent` fails, `Full` when both readings succeed. */
  datatype Access = Full | CpuOnly | Denied

  /** One process as the sampler sees it: its name and the readings psutil
      would return for it. */
  datatype Process = Process(name: string, cpu: real, mem: real, access: Access)

  /** The `metrics` dictionary of main_v2.py. */
  datatype Metrics = Metrics(cpuUsage: real, memoryUsage: real, temperature: real)

  datatype Measure = CpuPercent | MemoryPercent

  /** What one matching process adds to the running sum of main_v2.py: the
      CPU reading is added before `memory_percent` is called, so a process
      that fails there still contributes its CPU. */
  function Contribution(p: Process, m: Measure): real
  {
    match m
    case CpuPercent => if p.access == Denied then 0.0 else p.cpu
    case MemoryPercent => if p.access == Full then p.mem else 0.0
  }

  /** Sum of the contributions of every process in `table` named `name`. */
  function UsageOf(table: seq<Process>, name: string, m: Measure): real
  {
    if table == [] then 0.0
    else
      var last := table[|table| - 1];
      UsageOf(table[..|table| - 1], name, m) + (if last.name == name then Contribution(last, m) else 0.0)
  }

  /** Sum over every listed name, a name listed twice being counted twice. */
  function TotalUsage(table: seq<Process>, names: seq<string>, m: Measure): real
  {
    if names == [] then 0.0
    else TotalUsage(table, names[..|names| - 1], m) + UsageOf(table, names[|names| - 1], m)
  }

  /** `get_cpu_usage` of main_v2.py: for every name, for every process of
      the table with exactly that name, add its readings. */
  method GetCpuUsage(names: seq<string>, table: seq<Process>) returns (metrics: Metrics)
    ensures metrics.cpuUsage == TotalUsage(table, names, CpuPercent)
    ensures metrics.memoryUsage == TotalUsage(table, names, MemoryPercent)
    ensures metrics.temperature == 0.0
  {
    metrics := Metrics(0.0, 0.0, 0.0);
    for i := 0 to |names|
      invariant metrics.cpuUsage == TotalUsage(table, names[..i], CpuPercent)
      invariant metrics.memoryUsage == TotalUsage(table, names[..i], MemoryPercent)
      invariant metrics.temperature == 0.0
    {
      var name := names[i];
      assert names[..i + 1][..i] == names[..i];
      for j := 0 to |table|
        invariant metrics.cpuUsage == TotalUsage(table, names[..i], CpuPercent) + UsageOf(table[..j], name, CpuPercent)
        invariant metrics.memoryUsage == TotalUsage(table, names[..i], MemoryPercent) + UsageOf(table[..j], name, MemoryPercent)
        invariant metrics.temperature == 0.0
      {
        var p := table[j];
        assert table[..j + 1][..j] == table[..j];
        if p.name == name && p.access != Denied {
          metrics := metrics.(cpuUsage := metrics.cpuUsage + p.cpu);
          if p.access == Full {
            metrics := metrics.(memoryUsage := metrics.memoryUsage + p.mem);
          }
        }
      }
      assert table[..|table|] == table;
    }
    assert names[..|names|] == names;
  }

  lemma {:induction false} UsageOfAppend(a: seq<Process>, b: seq<Process>, name: string, m: Measure)
    ensures UsageOf(a + b, name, m) == UsageOf(a, name, m) + UsageOf(b, name, m)
    decreases |b|
  {
    if b == [] {
      assert a + b == a;
    } else {
      assert (a + b)[..|a + b| - 1] == a + b[..|b| - 1];
      UsageOfAppend(a, b[..|b| - 1], name, m);
    }
  }

  lemma {:induction false} TotalUsageAppend(table: seq<Process>, a: seq<string>, b: seq<string>, m: Measure)
    ensures TotalUsage(table, a + b, m) == TotalUsage(table, a, m) + TotalUsage(table, b, m)
    decreases |b|
  {
    if b == [] {
      assert a + b == a;
    } else {
      assert (a + b)[..|a + b| - 1] == a + b[..|b| - 1];
      TotalUsageAppend(table, a, b[..|b| - 1], m);
    }
  }

  /** The order of the configured names does not matter, and a name listed
      twice is counted twice. */
  lemma NamesOrderAndRepetition(table: seq<Process>, a: seq<string>, b: seq<string>, name: string, m: Measure)
    ensures TotalUsage(table, a + b, m) == TotalUsage(table, b + a, m)
    ensures TotalUsage(table, [name, name], m) == 2.0 * UsageOf(table, name, m)
  {
    TotalUsageAppend(table, a, b, m);
    TotalUsageAppend(table, b, a, m);
    assert [name, name][..1] == [name];
    assert [name][..0] == [];
    assert TotalUsage(table, [name], m) == UsageOf(table, name, m);
    assert TotalUsage(table, [name, name], m) == TotalUsage(table, [name], m) + UsageOf(table, name, m);
  }

  /** With no process of any listed name, every sum is zero. */
  lemma {:induction false} NoMatchesGiveZero(table: seq<Process>, names: seq<string>, m: Measure)
    requires forall j, k :: 0 <= j < |table| && 0 <= k < |names| ==> table[j].name != names[k]
    ensures TotalUsage(table, names, m) == 0.0
    decreases |names|
  {
    if names != [] {
      NoMatchesGiveZero(table, names[..|names| - 1], m);
      NameAbsentGivesZero(table, names[|names| - 1], m);
    }
  }

  lemma {:induction false} NameAbsentGivesZero(table: seq<Process>, name: string, m: Measure)
    requires forall j :: 0 <= j < |table| ==> table[j].name != name
    ensures UsageOf(table, name, m) == 0.0
    decreases |table|
  {
    if table != [] {
      NameAbsentGivesZero(table[..|table| - 1], name, m);
    }
  }

  /** A process that vanished or denied access contributes nothing: removing
      it from the table leaves every sum unchanged. */
  lemma {:induction false} DeniedContributesNothing(a: seq<Process>, p: Process, b: seq<Process>, names: seq<string>, m: Measure)
    requires p.access == Denied
    ensures TotalUsage(a + [p] + b, names, m) == TotalUsage(a + b, names, m)
    decreases |names|
  {
    if names != [] {
      var name := names[|names| - 1];
      DeniedContributesNothing(a, p, b, names[..|names| - 1], m);
      UsageOfAppend(a + [p], b, name, m);
      UsageOfAppend(a, [p], name, m);
      UsageOfAppend(a, b, name, m);
      assert UsageOf([p], name, m) == 0.0 by {
        assert [p][..0] == [];
      }
    }
  }

  /** When every reading is non-negative, so are the sums. */
  lemma {:induction false} UsageNonNegative(table: seq<Process>, names: seq<string>, m: Measure)
    requires forall j :: 0 <= j < |table| ==> table[j].cpu >= 0.0 && table[j].mem >= 0.0
    ensures TotalUsage(table, names, m) >= 0.0
    decreases |names|
  {
    if names != [] {
      UsageNonNegative(table, names[..|names| - 1], m);
      UsageOfNonNegative(table, names[|names| - 1], m);
    }
  }

  lemma {:induction false} UsageOfNonNegative(table: seq<Process>, name: string, m: Measure)
    requires forall j :: 0 <= j < |table| ==> table[j].cpu >= 0.0 && table[j].mem >= 0.0
    ensures UsageOf(table, name, m) >= 0.0
    decreases |table|
  {
    if table != [] {
      UsageOfNonNegative(table[..|table| - 1], name, m);
    }
  }

  /** `get_cpu_usage` of utils.py and old/main_windows.py: the CPU of the
      first process with exactly that name, 0.0 when there is none. These
      versions catch nothing, so a first match that cannot be read raises. */
  function FirstCpu(table: seq<Process>, name: string): (r: Result<real>)
    ensures r.Raised? ==> r.error == ProcessUnavailable
    ensures r.Ok? ==> r.value == 0.0 || exists k :: 0 <= k < |table| && table[k].name == name && r.value == table[k].cpu
  {
    if table == [] then Ok(0.0)
    else if table[0].name == name then
      (if table[0].access == Denied then Raised(ProcessUnavailable) else Ok(table[0].cpu))
    else FirstCpu(table[1..], name)
  }

  /** The early-return loop of the single-name `get_cpu_usage`. */
  method GetFirstCpuUsage(name: string, table: seq<Process>) returns (cpu: Result<real>)
    ensures cpu == FirstCpu(table, name)
  {
    var i := 0;
    while i < |table|
      invariant 0 <= i <= |table|
      invariant FirstCpu(table[i..], name) == FirstCpu(table, name)
    {
      if table[i].name == name {
        if table[i].access == Denied {
          return Raised(ProcessUnavailable);
        }
        return Ok(table[i].cpu);
      }
      assert table[i..][1..] == table[i + 1..];
      i := i + 1;
    }
    return Ok(0.0);
  }

  /** FirstCpu reads the earliest process with the name, and gives 0.0
      exactly when no process has it. */
  lemma {:induction false} FirstCpuIsEarliest(table: seq<Process>, name: string)
    ensures (forall k :: 0 <= k < |table| ==> table[k].name != name) ==> FirstCpu(table, name) == Ok(0.0)
    ensures forall k :: (0 <= k < |table| && table[k].name == name
                         && forall j :: 0 <= j < k ==> table[j].name != name) ==>
                FirstCpu(table, name) == (if table[k].access == Denied then Raised(ProcessUnavailable) else Ok(table[k].cpu))
  {
    if table != [] && table[0].name != name {
      FirstCpuIsEarliest(table[1..], name);
      forall k | 0 <= k < |table| && table[k].name == name && (forall j :: 0 <= j < k ==> table[j].name != name)
        ensures FirstCpu(table, name) == (if table[k].access == Denied then Raised(ProcessUnavailable) else Ok(table[k].cpu))
      {
        assert k != 0;
        assert table[1..][k - 1] == table[k];
        assert forall j :: 0 <= j < k - 1 ==> table[1..][j] == table[j + 1];
      }
      assert (forall k :: 0 <= k < |table| ==> table[k].name != name) ==>
               (forall k :: 0 <= k < |table[1..]| ==> table[1..][k].name != name);
    }
  }

  /** The two sampling styles agree when the name belongs to exactly one
      process and its CPU can be read. */
  lemma FirstCpuAgreesWithSum(table: seq<Process>, name: string, k: nat)
    requires k < |table| && table[k].name == name && table[k].access != Denied
    requires forall j :: 0 <= j < |table| && j != k ==> table[j].name != name
    ensures FirstCpu(table, name) == Ok(UsageOf(table, name, CpuPercent))
  {
    FirstCpuIsEarliest(table, name);
    assert table == table[..k] + [table[k]] + table[k + 1..];
    UsageOfAppend(table[..k] + [table[k]], table[k + 1..], name, CpuPercent);
    UsageOfAppend(table[..k], [table[k]], name, CpuPercent);
    NameAbsentGivesZero(table[..k], name, CpuPercent);
    NameAbsentGivesZero(table[k + 1..], name, CpuPercent);
    assert [table[k]][..0] == [];
  }
}
