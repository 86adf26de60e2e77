/**
 * `NativeHostMetricsCollector_Linux`: one tick reads /proc/stat, /proc/meminfo,
 * the /proc directory listing and /proc/sys/fs/file-nr into three partial
 * records, and copies each group of fields whose record is filled into the
 * caller's `HostMetrics`. The CPU times go to a CPU utilization collector instead.
 */
module NativeHostCollector {
  import opened Wrappers
  import opened ClrIntegers
  import opened FileParser
  import opened ProcFs

  /** The fields of `HostMetrics` that this collector writes. */
  class HostMetrics {
    var memoryAvailable: Int64
    var memoryCached: Int64
    var memoryKernel: Int64
    var memoryTotal: Int64
    var handleCount: Int32
    var threadCount: Int32
    var processCount: Int32

    constructor ()
      ensures memoryAvailable == 0 && memoryCached == 0 && memoryKernel == 0 && memoryTotal == 0
      ensures handleCount == 0 && threadCount == 0 && processCount == 0
    {
      memoryAvailable, memoryCached, memoryKernel, memoryTotal := 0, 0, 0, 0;
      handleCount, threadCount, processCount := 0, 0, 0;
    }
  }

  /** The arguments of one `HostCpuUtilizationCollector.Collect` call. */
  datatype HostCpuCall = HostCpuCall(usedTime: UInt64, idleTime: UInt64)

  /**
   * `HostCpuUtilizationCollector`, whose code is not part of this model: it is
   * represented by the list of the arguments it has been called with.
   */
  class HostCpuUtilizationCollector {
    var calls: seq<HostCpuCall>

    constructor ()
      ensures calls == []
    {
      calls := [];
    }

    method Collect(metrics: HostMetrics, usedTime: UInt64, idleTime: UInt64)
      modifies this
      ensures calls == old(calls) + [HostCpuCall(usedTime, idleTime)]
    {
      calls := calls + [HostCpuCall(usedTime, idleTime)];
    }
  }

  /** CPU times (in clock ticks) from the aggregate "cpu" line of /proc/stat. */
  datatype SystemStat = SystemStat(
    userTime: Option<UInt64>, nicedTime: Option<UInt64>,
    systemTime: Option<UInt64>, idleTime: Option<UInt64>)
  {
    predicate Filled() { userTime.Some? && nicedTime.Some? && systemTime.Some? && idleTime.Some? }
  }

  /** Memory amounts in bytes from /proc/meminfo. */
  datatype MemoryInfo = MemoryInfo(
    availableMemory: Option<Int64>, kernelMemory: Option<Int64>,
    cacheMemory: Option<Int64>, totalMemory: Option<Int64>)
  {
    predicate Filled() { availableMemory.Some? && kernelMemory.Some? && cacheMemory.Some? && totalMemory.Some? }
  }

  /** Process, thread and open-handle counts. */
  datatype PerformanceInfo = PerformanceInfo(
    processCount: Option<Int32>, threadCount: Option<Int32>, handleCount: Option<Int32>)
  {
    predicate Filled() { processCount.Some? && threadCount.Some? && handleCount.Some? }
  }

  /**
   * One entry of the /proc listing: its path, and the number of entries of its
   * task/ subdirectory, or `None` when enumerating that subdirectory throws (the
   * process has exited in between, say).
   */
  datatype ProcEntry = ProcEntry(path: string, tasks: Option<nat>)

  /** The /proc listing; when `complete` is false, the enumeration throws after `entries`. */
  datatype Listing = Listing(entries: seq<ProcEntry>, complete: bool)

  /** Everything one tick reads. */
  datatype HostFiles = HostFiles(stat: TextFile, meminfo: TextFile, proc: Listing, fileNr: TextFile)

  const NoSystemStat := SystemStat(None, None, None, None)
  const NoPerformanceInfo := PerformanceInfo(None, None, None)

  /** The number of /proc/stat fields the reader asks for. */
  const STAT_PARTS: nat := 7

  /** What `ReadSystemStat` returns. */
  function SystemStatOf(stat: TextFile): SystemStat
  {
    match CpuLineParts(stat, STAT_PARTS)
    case Some(parts) =>
      SystemStat(ParseULong(parts[1]), ParseULong(parts[2]), ParseULong(parts[3]), ParseULong(parts[4]))
    case None => NoSystemStat
  }

  /** What `ReadMemoryInfo` returns: for each key, its last line in the file, in bytes. */
  function MemoryInfoOf(meminfo: TextFile): MemoryInfo
  {
    MemoryInfo(
      KbToBytes(LastParsed(meminfo.lines, "MemAvailable")),
      KbToBytes(LastParsed(meminfo.lines, "Slab")),
      KbToBytes(LastParsed(meminfo.lines, "Cached")),
      KbToBytes(LastParsed(meminfo.lines, "MemTotal")))
  }

  /**
   * `pidRegex.IsMatch(path)` for the pattern "[0-9]+$": a digit right before the
   * end of the path, or right before a final line feed (where .NET's `$` also matches).
   */
  predicate IsPidPath(path: string)
  {
    || (|path| >= 1 && IsDigit(path[|path| - 1]))
    || (|path| >= 2 && path[|path| - 1] == '\n' && IsDigit(path[|path| - 2]))
  }

  /** The number of process directories among the first `n` entries of the listing. */
  function ProcessesIn(entries: seq<ProcEntry>, n: nat): nat
    requires n <= |entries|
  {
    if n == 0 then 0
    else ProcessesIn(entries, n - 1) + if IsPidPath(entries[n - 1].path) then 1 else 0
  }

  /** The exact total of the task counts of the process directories among the first `n` entries. */
  function ThreadsIn(entries: seq<ProcEntry>, n: nat): nat
    requires n <= |entries|
  {
    if n == 0 then 0
    else ThreadsIn(entries, n - 1) + if IsPidPath(entries[n - 1].path) then entries[n - 1].tasks.GetOr(0) else 0
  }

  /**
   * Counting this entry's task/ directory, if it is a process directory, does
   * not throw: the enumeration goes through, and the checked `Count()` stays
   * within `int`.
   */
  predicate TasksReadable(entry: ProcEntry)
  {
    IsPidPath(entry.path) ==> entry.tasks.Some? && entry.tasks.value < 0x8000_0000
  }

  /** Enumerating the listing and every process's task/ directory goes through without throwing. */
  predicate ListingReadable(proc: Listing)
  {
    proc.complete && forall k :: 0 <= k < |proc.entries| ==> TasksReadable(proc.entries[k])
  }

  /** `allocated - free` from the first two fields of file-nr, when both parse as `int`. */
  function HandleCountOf(fileNr: TextFile): Option<Int32>
  {
    match SplitFirstLine(fileNr, 3)
    case Some(parts) =>
      var allocatedCount, freeCount := ParseInt32(parts[0]), ParseInt32(parts[1]);
      if allocatedCount.Some? && freeCount.Some? then Some(WrapI32(allocatedCount.value - freeCount.value)) else None
    case None => None
  }

  /**
   * What `ReadPerformanceInfo` returns. The two counts are set together after the
   * listing has been walked; file-nr is read only after that.
   */
  function PerformanceInfoOf(proc: Listing, fileNr: TextFile): PerformanceInfo
  {
    if ListingReadable(proc) then
      var n := |proc.entries|;
      PerformanceInfo(Some(WrapI32(ProcessesIn(proc.entries, n))), Some(WrapI32(ThreadsIn(proc.entries, n))),
                      HandleCountOf(fileNr))
    else NoPerformanceInfo
  }

  class NativeHostMetricsCollectorLinux {
    const cpuCollector: HostCpuUtilizationCollector

    constructor ()
      ensures fresh(cpuCollector) && cpuCollector.calls == []
    {
      cpuCollector := new HostCpuUtilizationCollector();
    }

    /**
     * One tick. The CPU collector is called once exactly when all four CPU times
     * were read; each group of host metrics is written as a whole when its record
     * is filled and left as it was otherwise.
     */
    method Collect(metrics: HostMetrics, files: HostFiles)
      modifies metrics, cpuCollector
      ensures var s := SystemStatOf(files.stat);
        cpuCollector.calls == old(cpuCollector.calls) +
          if s.Filled() then
            [HostCpuCall(WrapU64(s.userTime.value + s.nicedTime.value + s.systemTime.value + s.idleTime.value),
                         s.idleTime.value)]
          else []
      ensures var m := MemoryInfoOf(files.meminfo);
        if m.Filled() then
          && metrics.memoryAvailable == m.availableMemory.value && metrics.memoryCached == m.cacheMemory.value
          && metrics.memoryKernel == m.kernelMemory.value && metrics.memoryTotal == m.totalMemory.value
        else
          && metrics.memoryAvailable == old(metrics.memoryAvailable) && metrics.memoryCached == old(metrics.memoryCached)
          && metrics.memoryKernel == old(metrics.memoryKernel) && metrics.memoryTotal == old(metrics.memoryTotal)
      ensures var p := PerformanceInfoOf(files.proc, files.fileNr);
        if p.Filled() then
          && metrics.handleCount == p.handleCount.value && metrics.threadCount == p.threadCount.value
          && metrics.processCount == p.processCount.value
        else
          && metrics.handleCount == old(metrics.handleCount) && metrics.threadCount == old(metrics.threadCount)
          && metrics.processCount == old(metrics.processCount)
    {
      var systemStat := ReadSystemStat(files.stat);
      var memInfo := ReadMemoryInfo(files.meminfo);
      var perfInfo := ReadPerformanceInfo(files.proc, files.fileNr);
      ReportCpuTimes(metrics, systemStat);
      WriteMemoryInfo(metrics, memInfo);
      WritePerformanceInfo(metrics, perfInfo);
    }

    /** The first block of `Collect`: hand the CPU times to the CPU collector when all four were read. */
    method ReportCpuTimes(metrics: HostMetrics, s: SystemStat)
      modifies cpuCollector
      ensures cpuCollector.calls == old(cpuCollector.calls) +
          if s.Filled() then
            [HostCpuCall(WrapU64(s.userTime.value + s.nicedTime.value + s.systemTime.value + s.idleTime.value),
                         s.idleTime.value)]
          else []
    {
      if s.Filled() {
        // ulong additions are unchecked: the sum wraps modulo 2^64.
        var usedTime := WrapU64(s.userTime.value + s.nicedTime.value + s.systemTime.value + s.idleTime.value);
        cpuCollector.Collect(metrics, usedTime, s.idleTime.value);
      }
    }

    /** The second block of `Collect`: the memory group is written as a whole, or not at all. */
    method WriteMemoryInfo(metrics: HostMetrics, m: MemoryInfo)
      modifies metrics`memoryAvailable, metrics`memoryCached, metrics`memoryKernel, metrics`memoryTotal
      ensures if m.Filled() then
          && metrics.memoryAvailable == m.availableMemory.value && metrics.memoryCached == m.cacheMemory.value
          && metrics.memoryKernel == m.kernelMemory.value && metrics.memoryTotal == m.totalMemory.value
        else
          && metrics.memoryAvailable == old(metrics.memoryAvailable) && metrics.memoryCached == old(metrics.memoryCached)
          && metrics.memoryKernel == old(metrics.memoryKernel) && metrics.memoryTotal == old(metrics.memoryTotal)
    {
      if m.Filled() {
        metrics.memoryAvailable := m.availableMemory.value;
        metrics.memoryCached := m.cacheMemory.value;
        metrics.memoryKernel := m.kernelMemory.value;
        metrics.memoryTotal := m.totalMemory.value;
      }
    }

    /** The third block of `Collect`: the three counts are written together, or not at all. */
    method WritePerformanceInfo(metrics: HostMetrics, p: PerformanceInfo)
      modifies metrics`handleCount, metrics`threadCount, metrics`processCount
      ensures if p.Filled() then
          && metrics.handleCount == p.handleCount.value && metrics.threadCount == p.threadCount.value
          && metrics.processCount == p.processCount.value
        else
          && metrics.handleCount == old(metrics.handleCount) && metrics.threadCount == old(metrics.threadCount)
          && metrics.processCount == old(metrics.processCount)
    {
      if p.Filled() {
        metrics.handleCount := p.handleCount.value;
        metrics.threadCount := p.threadCount.value;
        metrics.processCount := p.processCount.value;
      }
    }

    /** Reads the aggregate CPU line; a read failure is caught and leaves every time absent. */
    method ReadSystemStat(stat: TextFile) returns (result: SystemStat)
      ensures result == SystemStatOf(stat)
    {
      result := NoSystemStat;
      var first := ReadFirstLine(stat);
      if first.ReadFailed? {
        return;  // the exception is caught and logged
      }
      var parts := SplitFirstLine(stat, STAT_PARTS);
      if parts.Some? && parts.value[0] == "cpu" {
        var p := parts.value;
        var utime := ParseULong(p[1]);
        if utime.Some? { result := result.(userTime := utime); }
        var ntime := ParseULong(p[2]);
        if ntime.Some? { result := result.(nicedTime := ntime); }
        var stime := ParseULong(p[3]);
        if stime.Some? { result := result.(systemTime := stime); }
        var itime := ParseULong(p[4]);
        if itime.Some? { result := result.(idleTime := itime); }
      }
    }

    /**
     * Reads /proc/meminfo line by line, overwriting a field on every line that
     * carries its key. A read failure is caught and keeps what the lines read
     * before it gave.
     */
    method ReadMemoryInfo(meminfo: TextFile) returns (result: MemoryInfo)
      ensures result == MemoryInfoOf(meminfo)
    {
      result := MemoryInfo(None, None, None, None);
      var lines := meminfo.lines;
      var i := 0;
      while i < |lines|
        invariant 0 <= i <= |lines|
        invariant result == MemoryInfoOf(TextFile(lines[..i], true))
      {
        var line := lines[i];
        LastParsedStep(lines, i, "MemTotal");
        LastParsedStep(lines, i, "MemAvailable");
        LastParsedStep(lines, i, "Cached");
        LastParsedStep(lines, i, "Slab");
        var memTotal := TryParseLong(line, "MemTotal");
        if memTotal.Some? { result := result.(totalMemory := KbToBytes(memTotal)); }
        var memAvailable := TryParseLong(line, "MemAvailable");
        if memAvailable.Some? { result := result.(availableMemory := KbToBytes(memAvailable)); }
        var memCached := TryParseLong(line, "Cached");
        if memCached.Some? { result := result.(cacheMemory := KbToBytes(memCached)); }
        var memKernel := TryParseLong(line, "Slab");
        if memKernel.Some? { result := result.(kernelMemory := KbToBytes(memKernel)); }
        i := i + 1;
      }
      assert lines[..i] == meminfo.lines;
      // when !meminfo.complete the exception is caught here, after the last line read
    }

    /**
     * Counts process directories and their threads, then reads file-nr. Any
     * exception is caught: one raised while walking the listing leaves every
     * count absent, one raised reading file-nr leaves only the handle count absent.
     */
    method ReadPerformanceInfo(proc: Listing, fileNr: TextFile) returns (result: PerformanceInfo)
      ensures result == PerformanceInfoOf(proc, fileNr)
    {
      result := NoPerformanceInfo;
      var walked, processCount, threadCount := CountProcesses(proc.entries);
      if !walked || !proc.complete {
        return;  // the enumeration threw; the exception is caught and logged
      }
      result := result.(processCount := Some(processCount), threadCount := Some(threadCount));
      var handleCount := ReadHandleCount(fileNr);
      result := result.(handleCount := handleCount);
    }

    /**
     * The loop of `ReadPerformanceInfo` over the /proc listing: `processCount++`
     * and `threadCount +=` for each process directory. `walked` is false when
     * enumerating some process's task/ directory throws, which ends the loop.
     */
    method CountProcesses(entries: seq<ProcEntry>) returns (walked: bool, processCount: Int32, threadCount: Int32)
      ensures walked <==> forall k :: 0 <= k < |entries| ==> TasksReadable(entries[k])
      ensures walked ==> processCount == WrapI32(ProcessesIn(entries, |entries|))
      ensures walked ==> threadCount == WrapI32(ThreadsIn(entries, |entries|))
    {
      processCount, threadCount := 0, 0;
      var i := 0;
      while i < |entries|
        invariant 0 <= i <= |entries|
        invariant forall k :: 0 <= k < i ==> TasksReadable(entries[k])
        invariant processCount == WrapI32(ProcessesIn(entries, i))
        invariant threadCount == WrapI32(ThreadsIn(entries, i))
      {
        var entry := entries[i];
        if IsPidPath(entry.path) {
          if entry.tasks.None? || entry.tasks.value >= 0x8000_0000 {
            return false, processCount, threadCount;  // Count() overflows past int.MaxValue
          }
          var tasks := entry.tasks.value;
          CountStep(ProcessesIn(entries, i), 1);
          CountStep(ThreadsIn(entries, i), tasks);
          processCount := WrapI32(processCount as int + 1);
          threadCount := WrapI32(threadCount as int + tasks as int);
        }
        i := i + 1;
      }
      walked := true;
    }

    /**
     * The file-nr part of `ReadPerformanceInfo`: `allocated - free`. A read failure
     * is caught by `ReadPerformanceInfo`'s handler, after the counts were set.
     */
    method ReadHandleCount(fileNr: TextFile) returns (handleCount: Option<Int32>)
      ensures handleCount == HandleCountOf(fileNr)
    {
      handleCount := None;
      var first := ReadFirstLine(fileNr);
      if first.ReadFailed? {
        return;
      }
      var parts := SplitFirstLine(fileNr, 3);
      if parts.Some? {
        var allocatedDescriptors := ParseInt32(parts.value[0]);
        if allocatedDescriptors.Some? {
          var freeDescriptors := ParseInt32(parts.value[1]);
          if freeDescriptors.Some? {
            // int subtraction is unchecked
            var difference := allocatedDescriptors.value as int - freeDescriptors.value as int;
            handleCount := Some(WrapI32(difference));
          }
        }
      }
    }
  }

  lemma {:induction false} ProcessesAtMost(entries: seq<ProcEntry>, n: nat)
    requires n <= |entries|
    ensures ProcessesIn(entries, n) <= n
  {
    if n > 0 {
      ProcessesAtMost(entries, n - 1);
    }
  }

  /** One unchecked `+=` on a counter that tracks `WrapI32(exact)` keeps tracking it. */
  lemma CountStep(exact: nat, step: nat)
    ensures WrapI32(WrapI32(exact) as int + step) == WrapI32(exact + step)
  {
    WrapI32Add(exact, step);
  }

  /** The process directories: the listing filtered by `pidRegex`, in order. */
  function PidDirectories(entries: seq<ProcEntry>): (r: seq<ProcEntry>)
    ensures |r| <= |entries|
    ensures forall k :: 0 <= k < |r| ==> IsPidPath(r[k].path)
  {
    if entries == [] then []
    else (if IsPidPath(entries[0].path) then [entries[0]] else []) + PidDirectories(entries[1..])
  }

  /** The exact total of the task counts of the given entries. */
  function TaskTotal(dirs: seq<ProcEntry>): nat
  {
    if dirs == [] then 0 else dirs[0].tasks.GetOr(0) + TaskTotal(dirs[1..])
  }

  lemma {:induction false} PidDirectoriesSnoc(entries: seq<ProcEntry>, entry: ProcEntry)
    ensures PidDirectories(entries + [entry]) ==
            PidDirectories(entries) + (if IsPidPath(entry.path) then [entry] else [])
  {
    if entries == [] {
      assert [entry][1..] == [];
    } else {
      assert (entries + [entry])[1..] == entries[1..] + [entry];
      PidDirectoriesSnoc(entries[1..], entry);
    }
  }

  lemma {:induction false} TaskTotalSnoc(dirs: seq<ProcEntry>, entry: ProcEntry)
    ensures TaskTotal(dirs + [entry]) == TaskTotal(dirs) + entry.tasks.GetOr(0)
  {
    if dirs == [] {
      assert [entry][1..] == [];
    } else {
      assert (dirs + [entry])[1..] == dirs[1..] + [entry];
      TaskTotalSnoc(dirs[1..], entry);
    }
  }

  // Properties of one tick's readings.

  /**
   * The four CPU times come from parts 1 to 4 of a first line whose part 0 is
   * "cpu", each on its own: a part that does not parse leaves only its own time
   * absent, and a line with fewer than seven parts sets none.
   */
  lemma SystemStatOfCpuLine(line: string, more: seq<string>, complete: bool)
    requires |Split(line)| >= 1 && Split(line)[0] == "cpu"
    ensures var s, parts := SystemStatOf(TextFile([line] + more, complete)), Split(line);
      if |parts| >= STAT_PARTS then
        s == SystemStat(ParseULong(parts[1]), ParseULong(parts[2]), ParseULong(parts[3]), ParseULong(parts[4]))
      else s == NoSystemStat
  {
  }

  /** A first line whose first part is not exactly "cpu" (such as "cpu0" or "intr") sets no time. */
  lemma SystemStatNeedsCpuPart(line: string, more: seq<string>, complete: bool)
    requires |Split(line)| == 0 || Split(line)[0] != "cpu"
    ensures SystemStatOf(TextFile([line] + more, complete)) == NoSystemStat
  {
  }

  /**
   * The memory group is filled exactly when each of the four keys is carried by
   * some line read before the file ended or the read failed.
   */
  lemma MemoryInfoFilledIffAllKeys(meminfo: TextFile)
    ensures MemoryInfoOf(meminfo).Filled() <==>
      && (exists i :: 0 <= i < |meminfo.lines| && TryParseLong(meminfo.lines[i], "MemAvailable").Some?)
      && (exists i :: 0 <= i < |meminfo.lines| && TryParseLong(meminfo.lines[i], "Slab").Some?)
      && (exists i :: 0 <= i < |meminfo.lines| && TryParseLong(meminfo.lines[i], "Cached").Some?)
      && (exists i :: 0 <= i < |meminfo.lines| && TryParseLong(meminfo.lines[i], "MemTotal").Some?)
  {
    LastParsedNoneIffNoMatch(meminfo.lines, "MemAvailable");
    LastParsedNoneIffNoMatch(meminfo.lines, "Slab");
    LastParsedNoneIffNoMatch(meminfo.lines, "Cached");
    LastParsedNoneIffNoMatch(meminfo.lines, "MemTotal");
  }

  /** The indices among the first `n` entries of the listing that the pid pattern accepts. */
  function PidIndices(entries: seq<ProcEntry>, n: nat): set<int>
    requires n <= |entries|
  {
    set k | 0 <= k < n && IsPidPath(entries[k].path)
  }

  /** The number of process directories is the number of listing entries the pid pattern accepts. */
  lemma {:induction false} ProcessCountIsPidEntries(entries: seq<ProcEntry>, n: nat)
    requires n <= |entries|
    ensures ProcessesIn(entries, n) == |PidIndices(entries, n)|
  {
    if n > 0 {
      ProcessCountIsPidEntries(entries, n - 1);
      assert n - 1 !in PidIndices(entries, n - 1);
      if IsPidPath(entries[n - 1].path) {
        assert PidIndices(entries, n) == PidIndices(entries, n - 1) + {n - 1};
      } else {
        assert PidIndices(entries, n) == PidIndices(entries, n - 1);
      }
    }
  }

  /**
   * Counting in the loop agrees with the query it runs: the listing filtered by
   * the pid pattern, and the task counts of what is left, added up.
   */
  lemma {:induction false} CountsFollowFilter(entries: seq<ProcEntry>, n: nat)
    requires n <= |entries|
    ensures ProcessesIn(entries, n) == |PidDirectories(entries[..n])|
    ensures ThreadsIn(entries, n) == TaskTotal(PidDirectories(entries[..n]))
  {
    if n > 0 {
      CountsFollowFilter(entries, n - 1);
      assert entries[..n] == entries[..n - 1] + [entries[n - 1]];
      PidDirectoriesSnoc(entries[..n - 1], entries[n - 1]);
      if IsPidPath(entries[n - 1].path) {
        TaskTotalSnoc(PidDirectories(entries[..n - 1]), entries[n - 1]);
      } else {
        assert PidDirectories(entries[..n]) == PidDirectories(entries[..n - 1]);
      }
    } else {
      assert entries[..n] == [];
    }
  }

  /**
   * The two counts are present together, exactly when the listing was walked
   * without an exception; the handle count needs that as well.
   */
  lemma PerformanceCountsTogether(proc: Listing, fileNr: TextFile)
    ensures var p := PerformanceInfoOf(proc, fileNr);
      && (p.processCount.Some? <==> ListingReadable(proc))
      && (p.threadCount.Some? <==> ListingReadable(proc))
      && (p.handleCount.Some? ==> ListingReadable(proc))
      && (ListingReadable(proc) && ReadFirstLine(fileNr).ReadFailed? ==> !p.Filled())
  {
  }

  /**
   * A process whose task/ directory holds more than `int.MaxValue` entries makes
   * the checked `Count()` throw inside the `try`, so no count is reported at all.
   */
  lemma TaskCountOverflowLosesCounts(proc: Listing, fileNr: TextFile, k: nat)
    requires k < |proc.entries| && IsPidPath(proc.entries[k].path)
    requires proc.entries[k].tasks.Some? && proc.entries[k].tasks.value >= 0x8000_0000
    ensures PerformanceInfoOf(proc, fileNr) == NoPerformanceInfo
  {
    assert !TasksReadable(proc.entries[k]);
  }

  /**
   * Without wrap-around the counts are exact: as many processes as there are
   * process directories, as many threads as their task/ entries add up to.
   */
  lemma PerformanceCountsExact(proc: Listing, fileNr: TextFile)
    requires ListingReadable(proc)
    requires ThreadsIn(proc.entries, |proc.entries|) < 0x8000_0000
    requires |proc.entries| < 0x8000_0000
    ensures PerformanceInfoOf(proc, fileNr).processCount == Some(|PidIndices(proc.entries, |proc.entries|)|)
    ensures PerformanceInfoOf(proc, fileNr).threadCount == Some(TaskTotal(PidDirectories(proc.entries)))
  {
    ProcessCountIsPidEntries(proc.entries, |proc.entries|);
    ProcessesAtMost(proc.entries, |proc.entries|);
    CountsFollowFilter(proc.entries, |proc.entries|);
    assert proc.entries[..|proc.entries|] == proc.entries;
  }

  /**
   * The handle count of a file-nr line "allocated free maximum" is present
   * exactly when the line has three parts and the first two parse as `int`.
   */
  lemma HandleCountPresent(line: string, more: seq<string>, complete: bool)
    ensures var parts := Split(line);
      HandleCountOf(TextFile([line] + more, complete)).Some? <==>
        |parts| >= 3 && ParseInt32(parts[0]).Some? && ParseInt32(parts[1]).Some?
  {
    var f := TextFile([line] + more, complete);
    assert f.lines[0] == line;
    assert SplitFirstLine(f, 3) == TrySplitLine(line, 3);
  }

  /**
   * The handle count is allocated minus free, an exact difference for the
   * non-negative counts the kernel writes.
   */
  lemma HandleCountIsDifference(fileNr: TextFile, allocatedCount: Int32, freeCount: Int32)
    requires SplitFirstLine(fileNr, 3).Some?
    requires ParseInt32(SplitFirstLine(fileNr, 3).value[0]) == Some(allocatedCount)
    requires ParseInt32(SplitFirstLine(fileNr, 3).value[1]) == Some(freeCount)
    ensures HandleCountOf(fileNr) == Some(WrapI32(allocatedCount as int - freeCount as int))
    ensures allocatedCount >= 0 && freeCount >= 0 ==> HandleCountOf(fileNr) == Some(allocatedCount - freeCount)
  {
  }
}
