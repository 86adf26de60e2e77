/**
 * The Linux collector of the current process's metrics
 * (`NativeMetricsCollector_Linux`): each tick reads /proc/stat, /proc/self/stat,
 * the /proc/self/fd/ directory and /proc/self/status, copies what was read into
 * `CurrentProcessMetrics` and hands the CPU times to the CPU utilization collector.
 */
module NativeProcessCollector {
  import opened Wrappers
  import opened ClrIntegers
  import opened FileParser
  import opened ProcFs

  /** The fields of `CurrentProcessMetrics` this collector writes. */
  class CurrentProcessMetrics {
    var handlesCount: Int32
    var memoryResident: Int64
    var memoryPrivate: Int64

    constructor ()
      ensures handlesCount == 0 && memoryResident == 0 && memoryPrivate == 0
    {
      handlesCount, memoryResident, memoryPrivate := 0, 0, 0;
    }
  }

  /** The arguments of one call of `CpuUtilizationCollector.Collect`. */
  datatype CpuCall = CpuCall(systemTime: UInt64, processTime: UInt64, cpuCount: Option<Int32>)

  /**
   * The CPU utilization collector, whose code is not part of this model: it is
   * represented by the calls it receives, in order.
   */
  class CpuUtilizationCollector {
    var calls: seq<CpuCall>

    constructor ()
      ensures calls == []
    {
      calls := [];
    }

    method Collect(metrics: CurrentProcessMetrics, systemTime: UInt64, processTime: UInt64, cpuCount: Option<Int32>)
      modifies this
      ensures calls == old(calls) + [CpuCall(systemTime, processTime, cpuCount)]
    {
      calls := calls + [CpuCall(systemTime, processTime, cpuCount)];
    }
  }

  /** What /proc/stat gives: the number of CPUs and three of the aggregate CPU times. */
  datatype SystemStat = SystemStat(
    cpuCount: Option<Int32>, idleTime: Option<UInt64>, userTime: Option<UInt64>, systemTime: Option<UInt64>)
  {
    /** The CPU count is not needed. */
    predicate Filled() { idleTime.Some? && userTime.Some? && systemTime.Some? }
  }

  /** The process's own CPU times from /proc/self/stat. */
  datatype ProcessStat = ProcessStat(userTime: Option<UInt64>, systemTime: Option<UInt64>)
  {
    predicate Filled() { userTime.Some? && systemTime.Some? }
  }

  /** The open descriptor count and two memory amounts (in bytes) from /proc/self/status. */
  datatype ProcessStatus = ProcessStatus(
    fileDescriptorsCount: Option<Int32>, virtualMemoryResident: Option<Int64>, virtualMemoryData: Option<Int64>)
  {
    predicate Filled() { fileDescriptorsCount.Some? && virtualMemoryResident.Some? && virtualMemoryData.Some? }
  }

  /**
   * The /proc/self/fd/ directory: the number of its entries, or missing (the
   * process is exiting). Any other failure to enumerate it, and a count past
   * `int.MaxValue`, raise an exception that escapes `Collect`; those are not modelled.
   */
  datatype FdDirectory = FdEntries(count: Count32) | FdMissing

  /** Everything one tick reads. */
  datatype ProcessFiles = ProcessFiles(systemStat: TextFile, processStat: TextFile, fd: FdDirectory, status: TextFile)

  /** The number of /proc/stat fields the reader asks for. */
  const SYSTEM_STAT_PARTS: nat := 5
  /** The number of /proc/self/stat fields the reader asks for. */
  const PROCESS_STAT_PARTS: nat := 15

  /** `line.StartsWith("cpu")`: the aggregate line and the per-core lines of /proc/stat. */
  predicate IsCpuLine(line: string)
  {
    "cpu" <= line
  }

  /** The exact number of lines starting with "cpu". */
  function CpuLineCount(lines: seq<string>): nat
  {
    if lines == [] then 0 else (if IsCpuLine(lines[0]) then 1 else 0) + CpuLineCount(lines[1..])
  }

  /**
   * `ReadLines().Count(line => line.StartsWith("cpu")) - 1`, or absent when the
   * read throws or the checked `Count` would pass `int.MaxValue`.
   */
  function CpuCountOf(stat: TextFile): Option<Int32>
  {
    if stat.complete && CpuLineCount(stat.lines) < 0x8000_0000 then Some(CpuLineCount(stat.lines) - 1) else None
  }

  /** What `ReadSystemStat` returns. */
  function SystemStatOf(stat: TextFile): SystemStat
  {
    match CpuLineParts(stat, SYSTEM_STAT_PARTS)
    case Some(parts) => SystemStat(CpuCountOf(stat), ParseULong(parts[4]), ParseULong(parts[1]), ParseULong(parts[3]))
    case None => SystemStat(CpuCountOf(stat), None, None, None)
  }

  /** What `ReadProcessStat` returns: utime and stime, fields 14 and 15 of the line (0-based parts 13 and 14). */
  function ProcessStatOf(stat: TextFile): ProcessStat
  {
    match SplitFirstLine(stat, PROCESS_STAT_PARTS)
    case Some(parts) => ProcessStat(ParseULong(parts[13]), ParseULong(parts[14]))
    case None => ProcessStat(None, None)
  }

  /** The descriptor count: a missing fd directory counts as zero. */
  function FileDescriptorsOf(fd: FdDirectory): Int32
  {
    match fd
    case FdEntries(n) => n
    case FdMissing => 0
  }

  /** The status record after reading `lines`, each key taking its last line, in bytes. */
  function StatusAfter(fdCount: Int32, lines: seq<string>): ProcessStatus
  {
    ProcessStatus(Some(fdCount), KbToBytes(LastParsed(lines, "RssAnon")), KbToBytes(LastParsed(lines, "VmData")))
  }

  /** Both memory keys have been seen among `lines`. */
  predicate BothKeysIn(lines: seq<string>)
  {
    LastParsed(lines, "RssAnon").Some? && LastParsed(lines, "VmData").Some?
  }

  /**
   * The number of lines the status loop reads when it has read `i` without
   * stopping: it stops after the first line that completes both keys.
   */
  function StopFrom(lines: seq<string>, i: nat): (n: nat)
    requires i <= |lines|
    ensures i <= n <= |lines|
    decreases |lines| - i
  {
    if i == |lines| then |lines|
    else if BothKeysIn(lines[..i + 1]) then i + 1
    else StopFrom(lines, i + 1)
  }

  /** The number of /proc/self/status lines the loop reads. */
  function StopLength(lines: seq<string>): (n: nat)
    ensures n <= |lines|
  {
    StopFrom(lines, 0)
  }

  /** What `ReadProcessStatus` returns. A read failure keeps what the lines before it gave. */
  function ProcessStatusOf(fd: FdDirectory, status: TextFile): ProcessStatus
  {
    StatusAfter(FileDescriptorsOf(fd), status.lines[..StopLength(status.lines)])
  }

  class NativeMetricsCollectorLinux {
    const cpuCollector: CpuUtilizationCollector

    constructor ()
      ensures fresh(cpuCollector) && cpuCollector.calls == []
    {
      cpuCollector := new CpuUtilizationCollector();
    }

    /**
     * One tick. Each status value present is copied on its own; the CPU
     * collector is called once exactly when both CPU records are filled.
     */
    method Collect(metrics: CurrentProcessMetrics, files: ProcessFiles)
      modifies metrics, cpuCollector
      ensures var st := ProcessStatusOf(files.fd, files.status);
        && metrics.handlesCount == st.fileDescriptorsCount.GetOr(old(metrics.handlesCount))
        && metrics.memoryResident == st.virtualMemoryResident.GetOr(old(metrics.memoryResident))
        && metrics.memoryPrivate == st.virtualMemoryData.GetOr(old(metrics.memoryPrivate))
      ensures var s, p := SystemStatOf(files.systemStat), ProcessStatOf(files.processStat);
        cpuCollector.calls == old(cpuCollector.calls) +
          if s.Filled() && p.Filled() then
            [CpuCall(WrapU64(s.systemTime.value + s.userTime.value + s.idleTime.value),
                     WrapU64(p.systemTime.value + p.userTime.value), s.cpuCount)]
          else []
    {
      var systemStat := ReadSystemStat(files.systemStat);
      var processStat := ReadProcessStat(files.processStat);
      var processStatus := ReadProcessStatus(files.fd, files.status);
      WriteProcessStatus(metrics, processStatus);
      ReportCpuTimes(metrics, systemStat, processStat);
    }

    /** The first part of `Collect`: every status value present is copied, each on its own. */
    method WriteProcessStatus(metrics: CurrentProcessMetrics, st: ProcessStatus)
      modifies metrics`handlesCount, metrics`memoryResident, metrics`memoryPrivate
      ensures metrics.handlesCount == st.fileDescriptorsCount.GetOr(old(metrics.handlesCount))
      ensures metrics.memoryResident == st.virtualMemoryResident.GetOr(old(metrics.memoryResident))
      ensures metrics.memoryPrivate == st.virtualMemoryData.GetOr(old(metrics.memoryPrivate))
    {
      if st.fileDescriptorsCount.Some? {
        metrics.handlesCount := st.fileDescriptorsCount.value;
      }
      if st.virtualMemoryResident.Some? {
        metrics.memoryResident := st.virtualMemoryResident.value;
      }
      if st.virtualMemoryData.Some? {
        metrics.memoryPrivate := st.virtualMemoryData.value;
      }
    }

    /**
     * The second part of `Collect`: system time is system + user + idle (nice
     * time is not read), process time is system + user, both unchecked `ulong`.
     */
    method ReportCpuTimes(metrics: CurrentProcessMetrics, s: SystemStat, p: ProcessStat)
      modifies cpuCollector
      ensures cpuCollector.calls == old(cpuCollector.calls) +
          if s.Filled() && p.Filled() then
            [CpuCall(WrapU64(s.systemTime.value + s.userTime.value + s.idleTime.value),
                     WrapU64(p.systemTime.value + p.userTime.value), s.cpuCount)]
          else []
    {
      if s.Filled() && p.Filled() {
        var systemTime := WrapU64(s.systemTime.value + s.userTime.value + s.idleTime.value);
        var processTime := WrapU64(p.systemTime.value + p.userTime.value);
        cpuCollector.Collect(metrics, systemTime, processTime, s.cpuCount);
      }
    }

    /**
     * Reads the aggregate CPU line, then counts the "cpu" lines of the file,
     * whatever the first line held. A failure is caught and keeps what was set before it.
     */
    method ReadSystemStat(stat: TextFile) returns (result: SystemStat)
      ensures result == SystemStatOf(stat)
    {
      result := SystemStat(None, None, None, None);
      var first := ReadFirstLine(stat);
      if first.ReadFailed? {
        return;  // the exception is caught and logged
      }
      var parts := SplitFirstLine(stat, SYSTEM_STAT_PARTS);
      if parts.Some? && parts.value[0] == "cpu" {
        var p := parts.value;
        var utime := ParseULong(p[1]);
        if utime.Some? { result := result.(userTime := utime); }
        var stime := ParseULong(p[3]);
        if stime.Some? { result := result.(systemTime := stime); }
        var itime := ParseULong(p[4]);
        if itime.Some? { result := result.(idleTime := itime); }
      }
      if !stat.complete {
        return;  // ReadLines throws; caught and logged
      }
      var count: int := CpuLineCount(stat.lines);
      if count >= 0x8000_0000 {
        return;  // the checked Count throws OverflowException; caught and logged
      }
      result := result.(cpuCount := Some(count - 1));
    }

    /** Reads utime and stime from the process's stat line; a read failure is caught. */
    method ReadProcessStat(stat: TextFile) returns (result: ProcessStat)
      ensures result == ProcessStatOf(stat)
    {
      result := ProcessStat(None, None);
      var first := ReadFirstLine(stat);
      if first.ReadFailed? {
        return;  // the exception is caught and logged
      }
      var parts := SplitFirstLine(stat, PROCESS_STAT_PARTS);
      if parts.Some? {
        var p := parts.value;
        var utime := ParseULong(p[13]);
        if utime.Some? { result := result.(userTime := utime); }
        var stime := ParseULong(p[14]);
        if stime.Some? { result := result.(systemTime := stime); }
      }
    }

    /**
     * Counts the open descriptors, then scans the status lines, overwriting a
     * memory value on every line that carries its key and leaving the loop as
     * soon as the record is filled. A read failure is caught and keeps what the
     * lines before it gave.
     */
    method ReadProcessStatus(fd: FdDirectory, status: TextFile) returns (result: ProcessStatus)
      ensures result == ProcessStatusOf(fd, status)
    {
      result := ProcessStatus(None, None, None);
      match fd {
        case FdEntries(n) => result := result.(fileDescriptorsCount := Some(n));
        case FdMissing => result := result.(fileDescriptorsCount := Some(0));  // DirectoryNotFoundException
      }
      var lines := status.lines;
      var i := 0;
      while i < |lines|
        invariant 0 <= i <= |lines|
        invariant result == StatusAfter(FileDescriptorsOf(fd), lines[..i])
        invariant StopFrom(lines, i) == StopLength(lines)
      {
        var line := lines[i];
        LastParsedStep(lines, i, "RssAnon");
        LastParsedStep(lines, i, "VmData");
        var vmRss := TryParseLong(line, "RssAnon");
        if vmRss.Some? { result := result.(virtualMemoryResident := KbToBytes(vmRss)); }
        var vmData := TryParseLong(line, "VmData");
        if vmData.Some? { result := result.(virtualMemoryData := KbToBytes(vmData)); }
        assert result == StatusAfter(FileDescriptorsOf(fd), lines[..i + 1]);
        assert result.Filled() <==> BothKeysIn(lines[..i + 1]);
        if result.Filled() {
          assert StopLength(lines) == i + 1;
          return;
        }
        i := i + 1;
      }
      assert lines[..i] == status.lines;
    }
  }

  // Properties of one tick's readings.

  /**
   * The three times come from parts 1, 3 and 4 of a first line whose part 0 is
   * "cpu", each on its own; a line with fewer than five parts sets none.
   */
  lemma SystemStatOfCpuLine(line: string, more: seq<string>, complete: bool)
    requires |Split(line)| >= 1 && Split(line)[0] == "cpu"
    ensures var s, parts := SystemStatOf(TextFile([line] + more, complete)), Split(line);
      if |parts| >= SYSTEM_STAT_PARTS then
        s.userTime == ParseULong(parts[1]) && s.systemTime == ParseULong(parts[3]) && s.idleTime == ParseULong(parts[4])
      else s.userTime.None? && s.systemTime.None? && s.idleTime.None?
  {
  }

  /** Part 2 of the first line (nice time) is not read: lines that differ only there give the same times. */
  lemma NiceTimeIgnored(line: string, other: string, more: seq<string>, complete: bool)
    requires |Split(line)| == |Split(other)|
    requires forall k :: 0 <= k < |Split(line)| && k != 2 ==> Split(line)[k] == Split(other)[k]
    ensures var s, t := SystemStatOf(TextFile([line] + more, complete)), SystemStatOf(TextFile([other] + more, complete));
      s.userTime == t.userTime && s.systemTime == t.systemTime && s.idleTime == t.idleTime
  {
    var f, g := TextFile([line] + more, complete), TextFile([other] + more, complete);
    assert f.lines[0] == line && g.lines[0] == other;
  }

  /** utime and stime are parts 13 and 14 of the process stat line; a line with fewer than fifteen parts sets neither. */
  lemma ProcessStatOfLine(line: string, more: seq<string>, complete: bool)
    ensures var p, parts := ProcessStatOf(TextFile([line] + more, complete)), Split(line);
      if |parts| >= PROCESS_STAT_PARTS then p == ProcessStat(ParseULong(parts[13]), ParseULong(parts[14]))
      else p == ProcessStat(None, None)
  {
    var f := TextFile([line] + more, complete);
    assert f.lines[0] == line;
  }

  /** `Count` over a concatenation adds up. */
  lemma {:induction false} CpuLineCountAppend(a: seq<string>, b: seq<string>)
    ensures CpuLineCount(a + b) == CpuLineCount(a) + CpuLineCount(b)
  {
    if a != [] {
      assert (a + b)[1..] == a[1..] + b;
      CpuLineCountAppend(a[1..], b);
    } else {
      assert a + b == b;
    }
  }

  lemma {:induction false} CpuLineCountAll(lines: seq<string>)
    requires forall k :: 0 <= k < |lines| ==> IsCpuLine(lines[k])
    ensures CpuLineCount(lines) == |lines|
  {
    if lines != [] {
      CpuLineCountAll(lines[1..]);
    }
  }

  lemma {:induction false} CpuLineCountNone(lines: seq<string>)
    requires forall k :: 0 <= k < |lines| ==> !IsCpuLine(lines[k])
    ensures CpuLineCount(lines) == 0
  {
    if lines != [] {
      CpuLineCountNone(lines[1..]);
    }
  }

  /**
   * The CPU count is the number of per-core lines: a /proc/stat made of the
   * aggregate "cpu" line, one "cpuN" line per core and other lines reports
   * as many CPUs as there are per-core lines, whatever the first line parses to.
   */
  lemma CpuCountIsPerCoreLines(aggregate: string, cores: seq<string>, rest: seq<string>)
    requires IsCpuLine(aggregate)
    requires forall k :: 0 <= k < |cores| ==> IsCpuLine(cores[k])
    requires forall k :: 0 <= k < |rest| ==> !IsCpuLine(rest[k])
    requires |cores| < 0x7FFF_FFFF
    ensures SystemStatOf(TextFile([aggregate] + cores + rest, true)).cpuCount == Some(|cores|)
  {
    CpuLineCountAppend([aggregate] + cores, rest);
    CpuLineCountAppend([aggregate], cores);
    CpuLineCountAll(cores);
    CpuLineCountNone(rest);
  }

  /** The CPU count is absent exactly when reading the whole file fails (or the count overflows). */
  lemma CpuCountNeedsWholeFile(stat: TextFile)
    requires |stat.lines| < 0x8000_0000
    ensures SystemStatOf(stat).cpuCount.Some? <==> stat.complete
  {
    CpuLineCountAtMost(stat.lines);
  }

  lemma {:induction false} CpuLineCountAtMost(lines: seq<string>)
    ensures CpuLineCount(lines) <= |lines|
  {
    if lines != [] {
      CpuLineCountAtMost(lines[1..]);
    }
  }

  /** The descriptor count is always present; a missing fd directory gives zero rather than nothing. */
  lemma DescriptorCountAlwaysPresent(fd: FdDirectory, status: TextFile)
    ensures ProcessStatusOf(fd, status).fileDescriptorsCount == Some(if fd.FdMissing? then 0 else fd.count)
    ensures ProcessStatusOf(fd, status).Filled() <==> BothKeysIn(status.lines[..StopLength(status.lines)])
  {
  }

  lemma {:induction false} StopFromIsFirst(lines: seq<string>, i: nat)
    requires i <= |lines|
    requires forall n :: 0 <= n <= i ==> !BothKeysIn(lines[..n])
    ensures forall n :: 0 <= n < StopFrom(lines, i) ==> !BothKeysIn(lines[..n])
    ensures StopFrom(lines, i) < |lines| ==> BothKeysIn(lines[..StopFrom(lines, i)])
    decreases |lines| - i
  {
    if i < |lines| && !BothKeysIn(lines[..i + 1]) {
      StopFromIsFirst(lines, i + 1);
    }
  }

  /**
   * The status loop stops right after the first line that completes both keys:
   * no shorter prefix has both, and the loop stops early only once it has them.
   */
  lemma StopIsFirstCompletingLine(lines: seq<string>)
    ensures forall n :: 0 <= n < StopLength(lines) ==> !BothKeysIn(lines[..n])
    ensures StopLength(lines) < |lines| ==> BothKeysIn(lines[..StopLength(lines)])
  {
    assert lines[..0] == [];
    StopFromIsFirst(lines, 0);
  }

  /** A key seen among some lines is seen among any lines extending them. */
  lemma KeySeenInPrefix(lines: seq<string>, n: nat, name: string)
    requires n <= |lines| && LastParsed(lines[..n], name).Some?
    ensures LastParsed(lines, name).Some?
  {
    LastParsedNoneIffNoMatch(lines[..n], name);
    var i :| 0 <= i < n && TryParseLong(lines[..n][i], name).Some?;
    assert lines[..n][i] == lines[i];
    LastParsedNoneIffNoMatch(lines, name);
  }

  /**
   * The status record is filled exactly when some line carries RssAnon and some
   * line carries VmData: stopping early never loses a value the whole file has.
   */
  lemma ProcessStatusFilledIffBothKeys(fd: FdDirectory, status: TextFile)
    ensures ProcessStatusOf(fd, status).Filled() <==>
      && (exists i :: 0 <= i < |status.lines| && TryParseLong(status.lines[i], "RssAnon").Some?)
      && (exists i :: 0 <= i < |status.lines| && TryParseLong(status.lines[i], "VmData").Some?)
  {
    var lines := status.lines;
    var n := StopLength(lines);
    StopIsFirstCompletingLine(lines);
    LastParsedNoneIffNoMatch(lines, "RssAnon");
    LastParsedNoneIffNoMatch(lines, "VmData");
    if BothKeysIn(lines[..n]) {
      KeySeenInPrefix(lines, n, "RssAnon");
      KeySeenInPrefix(lines, n, "VmData");
    }
    if n == |lines| {
      assert lines[..n] == lines;
    }
  }

  lemma {:induction false} StopFromIgnoresLaterLines(lines: seq<string>, more: seq<string>, i: nat)
    requires i < |lines| && BothKeysIn(lines)
    ensures StopFrom(lines + more, i) == StopFrom(lines, i)
    decreases |lines| - i
  {
    assert (lines + more)[..i + 1] == lines[..i + 1];
    if i + 1 == |lines| {
      assert lines[..i + 1] == lines;
    } else if !BothKeysIn(lines[..i + 1]) {
      StopFromIgnoresLaterLines(lines, more, i + 1);
    }
  }

  /**
   * Once the lines read hold both keys, what follows them is never looked at:
   * neither further lines nor a read failure after them change the record.
   */
  lemma ProcessStatusIgnoresLaterLines(fd: FdDirectory, lines: seq<string>, more: seq<string>, c: bool, d: bool)
    requires BothKeysIn(lines)
    ensures ProcessStatusOf(fd, TextFile(lines + more, c)) == ProcessStatusOf(fd, TextFile(lines, d))
  {
    assert lines != [];
    StopFromIgnoresLaterLines(lines, more, 0);
    var n := StopLength(lines);
    assert (lines + more)[..n] == lines[..n];
  }
}
