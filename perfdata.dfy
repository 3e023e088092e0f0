/** Performance-data collection: `StartGetPerfDataTask` and its `get*` helpers
    in internal/perfdata.go.

    The task reads the CPU and host properties once, then takes `count`
    samples of disk, memory, load and CPU usage, pausing `intervals` seconds
    after each. Any failed read of the properties, the disk, the memory or the
    load aborts the whole task with an error and no data; a failed CPU-usage
    read only puts -1 in that sample.

    The metrics library (gopsutil) is not modelled: its answers are the
    fields of a `Metrics` value, one answer per call, the per-sample ones
    indexed by the sample number. Every call the task makes to it, and every
    pause, is recorded as a `Probe`, so that the order of the reads can be
    stated. */
module PerfData {
  import opened Outcomes
  import Humanize

  // ---------------------------------------------------------------------------
  // The data the task returns (lines 18-74)

  datatype HostInfo = HostInfo(
    hostname: string, uptime: string, os: string, platform: string,
    platformFamily: string, platformVersion: string, kernelVersion: string,
    kernelArch: string, hostId: string)

  datatype CpuInfo = CpuInfo(physicalCoresCount: nat, logicalCoresCount: nat, modelName: string)

  /** Sizes in GB and a percentage, as the helpers produce them. */
  datatype DiskInfo = DiskInfo(total: real, free: real, used: real, usedPercent: real)

  datatype MemoryInfo = MemoryInfo(
    total: real, available: real, used: real, usedPercent: real, free: real, cached: real)

  datatype LoadInfo = LoadInfo(load1: real, load5: real, load15: real)

  /** One sample (`DynamicDataSummary`). */
  datatype Sample = Sample(
    timeStamp: string, cpuPercent: real, memInfo: MemoryInfo, diskInfo: DiskInfo, loadInfo: LoadInfo)

  datatype PropertiesSummary = PropertiesSummary(hostInfo: HostInfo, cpuInfo: CpuInfo)

  datatype PerfData = PerfData(properties: PropertiesSummary, data: seq<Sample>)

  // ---------------------------------------------------------------------------
  // The metrics library's answers

  /** What `host.Info()` reports; `uptime` in seconds. */
  datatype HostStat = HostStat(
    hostname: string, uptime: nat, os: string, platform: string,
    platformFamily: string, platformVersion: string, kernelVersion: string,
    kernelArch: string, hostId: string)

  /** `None` is a call that returned an error. */
  datatype Metrics = Metrics(
    physicalCores: Option<int>,          // cpu.Counts(false)
    logicalCores: Option<int>,           // cpu.Counts(true)
    cpuModels: Option<seq<string>>,      // cpu.Info(): the model name of each CPU entry
    host: Option<HostStat>,              // host.Info()
    disk: nat -> Option<DiskInfo>,       // getDiskInfo's result during sample i
    memory: nat -> Option<MemoryInfo>,   // getMemoryInfo's result during sample i
    load: nat -> Option<LoadInfo>,       // getLoadInfo's result during sample i
    cpuPercent: nat -> Option<seq<real>>,// cpu.Percent(time.Second, false) during sample i
    clock: nat -> string)                // the formatted time.Now() of sample i

  /** A call the task makes, in the order it makes them. */
  datatype Probe =
    | CpuProperties          // getCpuProperties
    | HostProperties         // getHostInfo
    | Disk(sample: nat)      // getDiskInfo
    | Memory(sample: nat)    // getMemoryInfo
    | Load(sample: nat)      // getLoadInfo
    | CpuPercent(sample: nat)// getCpuPercent
    | Sleep(seconds: nat)    // time.Sleep after a sample

  /** What a computation produced, with the calls it made. */
  datatype Run<+T> = Run(outcome: Outcome<T>, probes: seq<Probe>)

  // ---------------------------------------------------------------------------
  // The helpers (lines 76-174)

  /** Go's `uint16(n)`: the low 16 bits. */
  function Uint16(n: int): (r: nat)
    ensures r < 0x1_0000
    ensures 0 <= n < 0x1_0000 ==> r == n
    ensures (n - r) % 0x1_0000 == 0
  {
    n % 0x1_0000
  }

  /** getCpuProperties (lines 77-97): the first failing read decides the error;
      an empty `cpu.Info()` list makes `info[0]` panic. */
  function GetCpuProperties(m: Metrics): (r: Outcome<CpuInfo>)
    ensures r.Ok? <==> m.physicalCores.Some? && m.logicalCores.Some? && m.cpuModels.Some? && m.cpuModels.value != []
    ensures r.Ok? ==> r.value.modelName == m.cpuModels.value[0]
    ensures r.Ok? ==> r.value.physicalCoresCount == Uint16(m.physicalCores.value)
                      && r.value.logicalCoresCount == Uint16(m.logicalCores.value)
    ensures r.Panic? <==> m.physicalCores.Some? && m.logicalCores.Some? && m.cpuModels == Some([])
    ensures m.physicalCores.None? ==> r == Fail("get cpu physical cores count failed")
    ensures m.physicalCores.Some? && m.logicalCores.None? ==> r == Fail("get cpu logical cores count failed")
    ensures m.physicalCores.Some? && m.logicalCores.Some? && m.cpuModels.None? ==> r == Fail("get cpu info failed")
  {
    if m.physicalCores.None? then Fail("get cpu physical cores count failed")
    else if m.logicalCores.None? then Fail("get cpu logical cores count failed")
    else if m.cpuModels.None? then Fail("get cpu info failed")
    else if m.cpuModels.value == [] then Panic("index out of range [0] with length 0")
    else Ok(CpuInfo(Uint16(m.physicalCores.value), Uint16(m.logicalCores.value), m.cpuModels.value[0]))
  }

  /** humanizePercent (lines 191-202) without its two-decimal rounding: values
      of 100 and above are capped at 100. */
  function HumanizePercent(p: real): (r: real)
    ensures p >= 100.0 ==> r == 100.0
    ensures p < 100.0 ==> r == p
  {
    if p >= 100.0 then 100.0 else p
  }

  /** getCpuPercent (lines 100-108): a failed read is recorded as -1, an empty
      list of readings makes `cpuPercent[0]` panic. */
  function GetCpuPercent(reading: Option<seq<real>>): (r: Outcome<real>)
    ensures !r.Fail?
    ensures reading.None? ==> r == Ok(-1.0)
    ensures r.Panic? <==> reading == Some([])
    ensures reading.Some? && r.Ok? ==> r.value <= 100.0
    ensures reading.Some? && reading.value != [] ==> r == Ok(HumanizePercent(reading.value[0]))
  {
    match reading
    case None => Ok(-1.0)
    case Some(ps) => if ps == [] then Panic("index out of range [0] with length 0") else Ok(HumanizePercent(ps[0]))
  }

  /** getHostInfo (lines 157-174): the uptime is humanized, the rest copied. */
  function GetHostInfo(stat: Option<HostStat>): (r: Outcome<HostInfo>)
    ensures !r.Panic?
    ensures r.Ok? <==> stat.Some?
    ensures r.Ok? ==> r.value.uptime == Humanize.HumanizeDuration(stat.value.uptime)
    ensures r.Ok? ==> Humanize.ParseDuration(r.value.uptime) == Some(stat.value.uptime)
    ensures r.Ok? ==> r.value.hostname == stat.value.hostname && r.value.hostId == stat.value.hostId
    ensures r.Ok? ==> r.value.os == stat.value.os && r.value.platform == stat.value.platform
                      && r.value.platformFamily == stat.value.platformFamily
                      && r.value.platformVersion == stat.value.platformVersion
                      && r.value.kernelVersion == stat.value.kernelVersion
                      && r.value.kernelArch == stat.value.kernelArch
    ensures r.Fail? ==> r.error == "get host info failed"
  {
    match stat
    case None => Fail("get host info failed")
    case Some(h) =>
      Humanize.ParseHumanizeDuration(h.uptime);
      Ok(HostInfo(h.hostname, Humanize.HumanizeDuration(h.uptime), h.os, h.platform,
                  h.platformFamily, h.platformVersion, h.kernelVersion, h.kernelArch, h.hostId))
  }

  // ---------------------------------------------------------------------------
  // What the task computes

  /** Sample number `i` (the body of the loop, lines 248-267): the reads in
      order disk, memory, load, CPU usage, then the pause. A failed disk,
      memory or load read stops the sample with the matching error. */
  function SampleRun(m: Metrics, intervals: nat, i: nat): Run<Sample>
  {
    match m.disk(i)
    case None => Run(Fail("get disk info failed"), [Disk(i)])
    case Some(disk) =>
      match m.memory(i)
      case None => Run(Fail("get memory info failed"), [Disk(i), Memory(i)])
      case Some(mem) =>
        match m.load(i)
        case None => Run(Fail("get load info failed"), [Disk(i), Memory(i), Load(i)])
        case Some(load) =>
          var cpu := GetCpuPercent(m.cpuPercent(i));
          if !cpu.Ok? then Run(cpu.Propagate(), [Disk(i), Memory(i), Load(i), CpuPercent(i)])
          else Run(Ok(Sample(m.clock(i), cpu.value, mem, disk, load)),
                   [Disk(i), Memory(i), Load(i), CpuPercent(i), Sleep(intervals)])
  }

  /** Which read a failed sample's error names (lines 249-258): the disk
      error iff the disk read failed, the memory error iff the disk read
      succeeded and the memory read failed, the load error iff both succeeded
      and the load read failed. */
  predicate NamesFailedRead<T>(m: Metrics, j: nat, outcome: Outcome<T>)
  {
    && (outcome == Fail("get disk info failed") <==> m.disk(j).None?)
    && (outcome == Fail("get memory info failed") <==> m.disk(j).Some? && m.memory(j).None?)
    && (outcome == Fail("get load info failed") <==> m.disk(j).Some? && m.memory(j).Some? && m.load(j).None?)
  }

  /** The first `n` turns of the loop: the samples so far, or the failure of
      the first sample that failed. */
  function SamplesRun(m: Metrics, intervals: nat, n: nat): Run<seq<Sample>>
  {
    if n == 0 then Run(Ok([]), [])
    else
      var before := SamplesRun(m, intervals, n - 1);
      if !before.outcome.Ok? then before
      else
        var step := SampleRun(m, intervals, n - 1);
        Run(if step.outcome.Ok? then Ok(before.outcome.value + [step.outcome.value])
            else step.outcome.Propagate(),
            before.probes + step.probes)
  }

  /** The whole task (lines 237-277). */
  function PerfRun(m: Metrics, intervals: nat, count: nat): Run<PerfData>
  {
    var cpu := GetCpuProperties(m);
    if !cpu.Ok? then
      Run(if cpu.Fail? then Fail("get cpu properties failed") else cpu.Propagate(), [CpuProperties])
    else
      var host := GetHostInfo(m.host);
      if !host.Ok? then
        Run(if host.Fail? then Fail("get host properties failed") else host.Propagate(),
            [CpuProperties, HostProperties])
      else
        var samples := SamplesRun(m, intervals, count);
        Run(if samples.outcome.Ok? then Ok(PerfData(PropertiesSummary(host.value, cpu.value), samples.outcome.value))
            else samples.outcome.Propagate(),
            [CpuProperties, HostProperties] + samples.probes)
  }

  // ---------------------------------------------------------------------------
  // The task as the code runs it

  /** StartGetPerfDataTask(intervals, count): the counted loop appending to the
      sample list, with an early return on every failed read. */
  method StartGetPerfDataTask(m: Metrics, intervals: nat, count: nat) returns (r: Outcome<PerfData>, probes: seq<Probe>)
    ensures Run(r, probes) == PerfRun(m, intervals, count)
  {
    probes := [CpuProperties];
    var cpuInfo := GetCpuProperties(m);
    if !cpuInfo.Ok? {
      r := if cpuInfo.Fail? then Fail("get cpu properties failed") else cpuInfo.Propagate();
      return;
    }
    probes := probes + [HostProperties];
    var hostInfo := GetHostInfo(m.host);
    if !hostInfo.Ok? {
      r := Fail("get host properties failed");
      return;
    }
    var properties := PropertiesSummary(hostInfo.value, cpuInfo.value);
    PerfRunAfterProperties(m, intervals, count);
    var dynamicData: seq<Sample> := [];
    ghost var taken: seq<Probe> := [];
    for i := 0 to count
      invariant SamplesRun(m, intervals, i) == Run(Ok(dynamicData), taken)
      invariant probes == [CpuProperties, HostProperties] + taken
    {
      var sample, calls := TakeSample(m, intervals, i);
      assert SamplesRun(m, intervals, i + 1) ==
        Run(if sample.Ok? then Ok(dynamicData + [sample.value]) else sample.Propagate(), taken + calls);
      AppendAssociates([CpuProperties, HostProperties], taken, calls);
      probes, taken := probes + calls, taken + calls;
      if !sample.Ok? {
        r := sample.Propagate();
        FailedSamplesStay(m, intervals, i + 1, count);
        return;
      }
      dynamicData := dynamicData + [sample.value];
    }
    r := Ok(PerfData(properties, dynamicData));
  }

  /** One turn of the loop (lines 248-267): disk, memory and load are read,
      each failure returning its own error, then the time stamp and the CPU
      usage are taken and the task pauses for `intervals` seconds. */
  method TakeSample(m: Metrics, intervals: nat, i: nat) returns (sample: Outcome<Sample>, probes: seq<Probe>)
    ensures Run(sample, probes) == SampleRun(m, intervals, i)
  {
    probes := [Disk(i)];
    var diskInfo := m.disk(i);
    if diskInfo.None? {
      return Fail("get disk info failed"), probes;
    }
    probes := probes + [Memory(i)];
    var memInfo := m.memory(i);
    if memInfo.None? {
      return Fail("get memory info failed"), probes;
    }
    probes := probes + [Load(i)];
    var loadAvg := m.load(i);
    if loadAvg.None? {
      return Fail("get load info failed"), probes;
    }
    var timeStamp := m.clock(i);
    probes := probes + [CpuPercent(i)];
    var cpuPercent := GetCpuPercent(m.cpuPercent(i));
    if !cpuPercent.Ok? {
      return cpuPercent.Propagate(), probes;
    }
    sample := Ok(Sample(timeStamp, cpuPercent.value, memInfo.value, diskInfo.value, loadAvg.value));
    probes := probes + [Sleep(intervals)];
  }

  lemma AppendAssociates<T>(a: seq<T>, b: seq<T>, c: seq<T>)
    ensures a + (b + c) == (a + b) + c
  {
  }

  /** Once the properties are read, the task is its loop. */
  lemma PerfRunAfterProperties(m: Metrics, intervals: nat, count: nat)
    requires GetCpuProperties(m).Ok? && GetHostInfo(m.host).Ok?
    ensures var samples := SamplesRun(m, intervals, count);
      PerfRun(m, intervals, count) ==
        Run(if samples.outcome.Ok?
            then Ok(PerfData(PropertiesSummary(GetHostInfo(m.host).value, GetCpuProperties(m).value), samples.outcome.value))
            else samples.outcome.Propagate(),
            [CpuProperties, HostProperties] + samples.probes)
  {
  }

  // ---------------------------------------------------------------------------
  // Properties of the task

  /** Once a sample has failed, later turns change nothing: the task returns
      that failure and makes no further call. */
  lemma {:induction false} FailedSamplesStay(m: Metrics, intervals: nat, j: nat, n: nat)
    requires j <= n
    requires !SamplesRun(m, intervals, j).outcome.Ok?
    ensures SamplesRun(m, intervals, n) == SamplesRun(m, intervals, j)
    decreases n
  {
    if n > j {
      FailedSamplesStay(m, intervals, j, n - 1);
    }
  }

  /** Without a failure, the loop yields exactly `n` samples, sample `k` being
      the `k`-th one taken, and each sample's five calls in a row. */
  lemma {:induction false} SamplesInOrder(m: Metrics, intervals: nat, n: nat)
    requires SamplesRun(m, intervals, n).outcome.Ok?
    ensures var run := SamplesRun(m, intervals, n);
      && |run.outcome.value| == n
      && |run.probes| == 5 * n
      && forall k :: 0 <= k < n ==>
           && SampleRun(m, intervals, k).outcome == Ok(run.outcome.value[k])
           && run.probes[5 * k..5 * k + 5] == [Disk(k), Memory(k), Load(k), CpuPercent(k), Sleep(intervals)]
  {
    if n > 0 {
      var before := SamplesRun(m, intervals, n - 1);
      SamplesInOrder(m, intervals, n - 1);
      var run := SamplesRun(m, intervals, n);
      forall k | 0 <= k < n
        ensures run.probes[5 * k..5 * k + 5] == [Disk(k), Memory(k), Load(k), CpuPercent(k), Sleep(intervals)]
      {
        if k < n - 1 {
          assert run.probes[5 * k..5 * k + 5] == before.probes[5 * k..5 * k + 5];
        } else {
          assert run.probes[5 * k..5 * k + 5] == SampleRun(m, intervals, k).probes;
        }
      }
    }
  }

  /** The loop succeeds exactly when every sample succeeds. */
  lemma {:induction false} SamplesOkIff(m: Metrics, intervals: nat, n: nat)
    ensures SamplesRun(m, intervals, n).outcome.Ok? <==>
      forall k :: 0 <= k < n ==> SampleRun(m, intervals, k).outcome.Ok?
  {
    if n > 0 {
      SamplesOkIff(m, intervals, n - 1);
    }
  }

  /** A failed loop fails with the error of its first failed sample, and that
      error names the disk, memory or load read (or is a panic). */
  lemma {:induction false} SamplesFirstFailure(m: Metrics, intervals: nat, n: nat)
    requires !SamplesRun(m, intervals, n).outcome.Ok?
    ensures exists j :: (0 <= j < n
      && (forall k :: 0 <= k < j ==> SampleRun(m, intervals, k).outcome.Ok?)
      && !SampleRun(m, intervals, j).outcome.Ok?
      && SamplesRun(m, intervals, n).outcome == SampleRun(m, intervals, j).outcome.Propagate()
      && NamesFailedRead(m, j, SamplesRun(m, intervals, n).outcome))
    ensures SamplesRun(m, intervals, n).outcome.Fail? ==>
      SamplesRun(m, intervals, n).outcome.error in {"get disk info failed", "get memory info failed", "get load info failed"}
  {
    var before := SamplesRun(m, intervals, n - 1);
    if before.outcome.Ok? {
      SamplesOkIff(m, intervals, n - 1);
      var j := n - 1;
      assert !SampleRun(m, intervals, j).outcome.Ok?;
      assert forall k :: 0 <= k < j ==> SampleRun(m, intervals, k).outcome.Ok?;
      assert NamesFailedRead(m, j, SamplesRun(m, intervals, n).outcome);
    } else {
      SamplesFirstFailure(m, intervals, n - 1);
      var j :| 0 <= j < n - 1
        && (forall k :: 0 <= k < j ==> SampleRun(m, intervals, k).outcome.Ok?)
        && !SampleRun(m, intervals, j).outcome.Ok?
        && before.outcome == SampleRun(m, intervals, j).outcome.Propagate()
        && NamesFailedRead(m, j, before.outcome);
      assert SamplesRun(m, intervals, n) == before;
    }
  }

  /** A failed CPU-usage read does not abort the sample: it records -1. */
  lemma CpuPercentFailureRecordsMinusOne(m: Metrics, intervals: nat, i: nat)
    requires m.disk(i).Some? && m.memory(i).Some? && m.load(i).Some?
    requires m.cpuPercent(i).None?
    ensures SampleRun(m, intervals, i).outcome.Ok?
    ensures SampleRun(m, intervals, i).outcome.value.cpuPercent == -1.0
  {
  }

  /** The task succeeds exactly when the properties and every sample are read;
      it then returns the properties read and exactly `count` samples in the
      order they were taken. */
  lemma PerfRunSucceeds(m: Metrics, intervals: nat, count: nat)
    ensures var run := PerfRun(m, intervals, count);
      run.outcome.Ok? <==>
        && GetCpuProperties(m).Ok? && GetHostInfo(m.host).Ok?
        && forall k :: 0 <= k < count ==> SampleRun(m, intervals, k).outcome.Ok?
    ensures var run := PerfRun(m, intervals, count);
      run.outcome.Ok? ==>
        && run.outcome.value.properties == PropertiesSummary(GetHostInfo(m.host).value, GetCpuProperties(m).value)
        && |run.outcome.value.data| == count
        && forall k :: 0 <= k < count ==> SampleRun(m, intervals, k).outcome == Ok(run.outcome.value.data[k])
  {
    SamplesOkIff(m, intervals, count);
    if PerfRun(m, intervals, count).outcome.Ok? {
      SamplesInOrder(m, intervals, count);
    }
  }

  /** All or nothing: a failed task carries no data, and its error names the
      step that failed. */
  lemma PerfRunFailure(m: Metrics, intervals: nat, count: nat)
    ensures var r := PerfRun(m, intervals, count).outcome;
      r.Fail? ==> r.error in {"get cpu properties failed", "get host properties failed",
                              "get disk info failed", "get memory info failed", "get load info failed"}
    ensures var r := PerfRun(m, intervals, count).outcome;
      GetCpuProperties(m).Fail? ==> r == Fail("get cpu properties failed")
    ensures var r := PerfRun(m, intervals, count).outcome;
      GetCpuProperties(m).Ok? && GetHostInfo(m.host).Fail? ==> r == Fail("get host properties failed")
    ensures var r := PerfRun(m, intervals, count).outcome;
      GetCpuProperties(m).Ok? && GetHostInfo(m.host).Ok? && !r.Ok? ==>
        exists j :: 0 <= j < count
          && (forall k :: 0 <= k < j ==> SampleRun(m, intervals, k).outcome.Ok?)
          && !SampleRun(m, intervals, j).outcome.Ok?
          && NamesFailedRead(m, j, r)
  {
    if GetCpuProperties(m).Ok? && GetHostInfo(m.host).Ok? && !SamplesRun(m, intervals, count).outcome.Ok? {
      SamplesFirstFailure(m, intervals, count);
      var samples := SamplesRun(m, intervals, count).outcome;
      var j :| 0 <= j < count
        && (forall k :: 0 <= k < j ==> SampleRun(m, intervals, k).outcome.Ok?)
        && !SampleRun(m, intervals, j).outcome.Ok?
        && NamesFailedRead(m, j, samples);
      PropagateNamesFailedRead<seq<Sample>, PerfData>(m, j, samples);
    }
  }

  /** Passing a sample's failure up keeps the read it names. */
  lemma PropagateNamesFailedRead<T, U>(m: Metrics, j: nat, outcome: Outcome<T>)
    requires !outcome.Ok? && NamesFailedRead(m, j, outcome)
    ensures NamesFailedRead(m, j, outcome.Propagate<U>())
  {
  }

  /** The properties are read first, once each: the CPU properties, then the
      host properties; every later call belongs to a sample. */
  lemma {:induction false} PropertiesReadOnceFirst(m: Metrics, intervals: nat, count: nat)
    ensures var p := PerfRun(m, intervals, count).probes;
      && |p| >= 1 && p[0] == CpuProperties
      && (|p| >= 2 ==> p[1] == HostProperties)
      && forall i :: 2 <= i < |p| ==> p[i] != CpuProperties && p[i] != HostProperties
  {
    var cpu := GetCpuProperties(m);
    var host := GetHostInfo(m.host);
    if cpu.Ok? && host.Ok? {
      SampleProbesOnly(m, intervals, count);
      var p := PerfRun(m, intervals, count).probes;
      assert p[2..] == SamplesRun(m, intervals, count).probes;
    }
  }

  lemma {:induction false} SampleProbesOnly(m: Metrics, intervals: nat, n: nat)
    ensures forall i :: 0 <= i < |SamplesRun(m, intervals, n).probes| ==>
      !SamplesRun(m, intervals, n).probes[i].CpuProperties? && !SamplesRun(m, intervals, n).probes[i].HostProperties?
  {
    if n > 0 {
      SampleProbesOnly(m, intervals, n - 1);
    }
  }

  /** With `count` 0 the task reads only the properties and returns them with
      an empty sample list: no sample, no pause. */
  lemma ZeroCountReturnsPropertiesOnly(m: Metrics, intervals: nat)
    requires GetCpuProperties(m).Ok? && GetHostInfo(m.host).Ok?
    ensures PerfRun(m, intervals, 0) ==
      Run(Ok(PerfData(PropertiesSummary(GetHostInfo(m.host).value, GetCpuProperties(m).value), [])),
          [CpuProperties, HostProperties])
  {
    assert [CpuProperties, HostProperties] + [] == [CpuProperties, HostProperties];
  }
}
