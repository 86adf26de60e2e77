# Vostok.Metrics.System — Linux collectors and host monitor

This project models, in Dafny, the per-tick logic of the two Linux metric
collectors of Vostok.Metrics.System and the period-keyed registry of
`HostMonitor`:

- `NativeHostMetricsCollector_Linux` (module `NativeHostCollector`):
  - reads the aggregate "cpu" line of /proc/stat, the keys of /proc/meminfo,
    the /proc listing (process directories and their task/ entries) and
    /proc/sys/fs/file-nr;
  - copies each group of values into `HostMetrics` all-or-nothing;
  - hands the tick sum and the idle time to the host CPU utilization collector.
- `NativeMetricsCollector_Linux` (module `NativeProcessCollector`):
  - reads /proc/stat (three CPU times and the CPU count), /proc/self/stat
    (utime and stime), the /proc/self/fd/ directory and /proc/self/status
    (RssAnon and VmData, with an early exit from the loop);
  - copies each status value into `CurrentProcessMetrics` on its own;
  - calls the CPU utilization collector when both CPU records are filled.
- `HostMonitor` (module `HostMonitoring`): a dictionary from period to
  observable, filled lazily.

Shared pieces:

- `ClrIntegers` writes out C#'s unchecked arithmetic:
  - `ulong` sums wrap modulo 2^64;
  - `int` and `long` wrap in two's complement (allocated − free,
    `processCount++`, `threadCount +=`, kB × 1024).
  Wrap-around is modelled, not excluded by preconditions.
- `FileParser` holds concrete stand-ins for the text helpers, whose code is not
  part of this model:
  - `TrySplitLine` splits on blanks and drops empty parts;
  - `TryParse` reads an optional sign and decimal digits, with the type's range;
  - `TryParseLong(line, key)` takes part 1 of a line that starts with `key`.
- `ProcFs` represents each file as the lines one read delivers plus a flag that
  says whether the read then throws. A missing file throws at once.

Each `Read*` method builds its record step by step, as the source does. It is
proved equal to a specification function (`SystemStatOf`, `MemoryInfoOf`,
`PerformanceInfoOf`, `ProcessStatOf`, `ProcessStatusOf`, …), and the lemmas
state what those functions promise. Each `try`/`catch` becomes an early return
that keeps the partial record.

The tokens of the stat and file-nr lines are 0-based parts of the split
line. The process stat line's utime and stime are fields 14 and 15 in the
numbering of the proc(5) manual page, that is, parts 13 and 14 when field 2
(the command name in parentheses) contains no blank. A blank in the command
name splits it into two parts and shifts every later part by one; the reader
then takes fields 13 and 14 (cmajflt and utime), and the model does the same.

## Model

| member | source | states |
|---|---|---|
| NativeHostCollector.NativeHostMetricsCollectorLinux.Collect | Vostok.Metrics.System/Host/NativeHostMetricsCollector_Linux.cs:26-54 | One tick. The CPU collector gets one call, with user+nice+system+idle (wrapped `ulong`) and idle, exactly when all four times were read; otherwise no call. The memory group is written as a whole when all four values are present, else left unchanged; the same holds for the process/thread/handle group. |
| NativeHostCollector.NativeHostMetricsCollectorLinux.ReportCpuTimes | Vostok.Metrics.System/Host/NativeHostMetricsCollector_Linux.cs:32-38 | The call list grows by exactly the one call (usedTime, idle) when the record is filled, and by nothing otherwise. |
| NativeHostCollector.NativeHostMetricsCollectorLinux.WriteMemoryInfo | Vostok.Metrics.System/Host/NativeHostMetricsCollector_Linux.cs:40-46 | All four memory fields take the record's values, or none of them changes. Only those four fields may change. |
| NativeHostCollector.NativeHostMetricsCollectorLinux.WritePerformanceInfo | Vostok.Metrics.System/Host/NativeHostMetricsCollector_Linux.cs:48-53 | All three count fields take the record's values, or none of them changes. Only those three fields may change. |
| NativeHostCollector.NativeHostMetricsCollectorLinux.ReadSystemStat | Vostok.Metrics.System/Host/NativeHostMetricsCollector_Linux.cs:56-83 | Setting the fields one by one, with a caught read failure, gives exactly `SystemStatOf` of the file. |
| NativeHostCollector.NativeHostMetricsCollectorLinux.ReadMemoryInfo | Vostok.Metrics.System/Host/NativeHostMetricsCollector_Linux.cs:85-112 | The line loop, which overwrites a field on every matching line, gives exactly `MemoryInfoOf` of the file. The loop invariant is that the record equals `MemoryInfoOf` of the lines read so far. |
| NativeHostCollector.NativeHostMetricsCollectorLinux.ReadPerformanceInfo | Vostok.Metrics.System/Host/NativeHostMetricsCollector_Linux.cs:114-146 | Gives exactly `PerformanceInfoOf`: no count when the walk throws; the two counts without a handle count when file-nr fails. |
| NativeHostCollector.NativeHostMetricsCollectorLinux.CountProcesses | Vostok.Metrics.System/Host/NativeHostMetricsCollector_Linux.cs:120-131 | The walk goes through exactly when no process directory's task/ enumeration throws and no task/ count exceeds `int.MaxValue` (where the checked `Count()` throws). The `int` counters then equal the wrapped exact number of process directories and the wrapped exact sum of their task counts. |
| NativeHostCollector.NativeHostMetricsCollectorLinux.ReadHandleCount | Vostok.Metrics.System/Host/NativeHostMetricsCollector_Linux.cs:135-138 | Gives exactly `HandleCountOf` of file-nr. |
| NativeHostCollector.HostCpuUtilizationCollector.Collect | Vostok.Metrics.System/Host/NativeHostMetricsCollector_Linux.cs:37 | The opaque collector records the arguments of each call, in order. |
| NativeHostCollector.SystemStatOfCpuLine | Vostok.Metrics.System/Host/NativeHostMetricsCollector_Linux.cs:62-75 | For a first line whose part 0 is "cpu": with at least seven parts, user, nice, system and idle are `ulong.TryParse` of parts 1 to 4, each on its own; with fewer parts, none is set. |
| NativeHostCollector.SystemStatNeedsCpuPart | Vostok.Metrics.System/Host/NativeHostMetricsCollector_Linux.cs:62 | A first line whose part 0 is not exactly "cpu" sets no time. |
| NativeHostCollector.MemoryInfoFilledIffAllKeys | Vostok.Metrics.System/Host/NativeHostMetricsCollector_Linux.cs:91-104 | The memory record is filled if and only if each of MemAvailable, Slab, Cached and MemTotal is parsed on some line read. |
| NativeHostCollector.ProcessCountIsPidEntries | Vostok.Metrics.System/Host/NativeHostMetricsCollector_Linux.cs:120-128 | The exact process count equals the number of listing entries that the pid pattern accepts. |
| NativeHostCollector.CountsFollowFilter | Vostok.Metrics.System/Host/NativeHostMetricsCollector_Linux.cs:120-130 | Counting inside the loop agrees with the query itself: the count is the length of the filtered listing, and the thread total is the sum of the filtered entries' task counts. |
| NativeHostCollector.PerformanceCountsTogether | Vostok.Metrics.System/Host/NativeHostMetricsCollector_Linux.cs:118-143 | The two counts are present together, exactly when the listing was walked without an exception. The handle count needs that too. When reading file-nr fails, the record is not filled. |
| NativeHostCollector.TaskCountOverflowLosesCounts | Vostok.Metrics.System/Host/NativeHostMetricsCollector_Linux.cs:118-143 | A process directory whose task/ directory holds more than `int.MaxValue` entries makes the checked `Count()` throw inside the `try`; the handler catches it and no count is reported. |
| NativeHostCollector.PerformanceCountsExact | Vostok.Metrics.System/Host/NativeHostMetricsCollector_Linux.cs:123-133 | Without wrap-around, the process count is the number of entries the pid pattern accepts, and the thread count is the sum of their task counts. |
| NativeHostCollector.HandleCountPresent | Vostok.Metrics.System/Host/NativeHostMetricsCollector_Linux.cs:135-137 | The handle count is present if and only if file-nr's first line has at least three parts and parts 0 and 1 both parse as `int`. |
| NativeHostCollector.HandleCountIsDifference | Vostok.Metrics.System/Host/NativeHostMetricsCollector_Linux.cs:135-138 | The handle count is allocated − free, wrapped as `int`; for non-negative counts it is the exact difference. |
| ProcFs.ReadFirstLine | Vostok.Metrics.System/Host/NativeHostMetricsCollector_Linux.cs:62 | There is a line exactly when the file has one, and it is the first line. The read throws exactly when nothing could be read at all. |
| ProcFs.SplitFirstLine | Vostok.Metrics.System/Host/NativeHostMetricsCollector_Linux.cs:62 | Succeeds if and only if there is a first line and it splits into at least `minParts` parts. |
| ProcFs.CpuLineParts | Vostok.Metrics.System/Host/NativeHostMetricsCollector_Linux.cs:62 | The guard holds if and only if the first line splits and part 0 is "cpu". The parts then number at least `minParts`. |
| ProcFs.KbToBytes | Vostok.Metrics.System/Host/NativeHostMetricsCollector_Linux.cs:94 | A value is present if and only if the kB value is. Without overflow it is the kB value × 1024. |
| ProcFs.LastParsedStep | Vostok.Metrics.System/Host/NativeHostMetricsCollector_Linux.cs:91-104 | Reading one more line overrides the value when that line carries the key, and keeps it otherwise. |
| ProcFs.LastParsedNoneIffNoMatch | Vostok.Metrics.System/Host/NativeHostMetricsCollector_Linux.cs:91-104 | A key has no value if and only if no line carries it. |
| ProcFs.LastParsedIsLastMatch | Vostok.Metrics.System/Host/NativeHostMetricsCollector_Linux.cs:91-104 | Last line wins: the value is that of the matching line after which no line matches. |
| ClrIntegers.WrapU64 | Vostok.Metrics.System/Host/NativeHostMetricsCollector_Linux.cs:34-35 | The unchecked `ulong` result lies in range and equals the exact sum when the sum does not overflow. |
| ClrIntegers.WrapI32 | Vostok.Metrics.System/Host/NativeHostMetricsCollector_Linux.cs:138 | The unchecked `int` result lies in range and equals the exact value when it fits. |
| ClrIntegers.WrapI64 | Vostok.Metrics.System/Host/NativeHostMetricsCollector_Linux.cs:94 | The unchecked `long` result lies in range and equals the exact value when it fits. |
| ClrIntegers.WrapI32Add | Vostok.Metrics.System/Host/NativeHostMetricsCollector_Linux.cs:128-129 | Wrapping after each `+=` gives the same `int` as wrapping the exact total once. |
| FileParser.TrySplitLine | Vostok.Metrics.System/Host/NativeHostMetricsCollector_Linux.cs:62 | A successful split has at least `minParts` parts, all non-empty and without blanks; the indexing into the parts relies on this. |
| FileParser.Split | Vostok.Metrics.System/Host/NativeHostMetricsCollector_Linux.cs:62 | Every part is a non-empty run of non-blank characters. |
| FileParser.SplitJoin | Vostok.Metrics.System/Host/NativeHostMetricsCollector_Linux.cs:62 | Splitting parts joined by single spaces gives the parts back. |
| FileParser.ParseULong | Vostok.Metrics.System/Host/NativeHostMetricsCollector_Linux.cs:64 | Succeeds if and only if the text is an integer within the `ulong` range. |
| FileParser.ParseInt32 | Vostok.Metrics.System/Host/NativeHostMetricsCollector_Linux.cs:136-137 | Succeeds if and only if the text is an integer within the `int` range. |
| FileParser.ParseInt64 | Vostok.Metrics.System/Host/NativeHostMetricsCollector_Linux.cs:93 | Succeeds if and only if the text is an integer within the `long` range. |
| FileParser.TryParseLong | Vostok.Metrics.System/Host/NativeHostMetricsCollector_Linux.cs:93 | A value is parsed only from a line that starts with the key. |
| FileParser.ParseShowNat | Vostok.Metrics.System/Host/NativeHostMetricsCollector_Linux.cs:64 | The decimal rendering of any natural number parses back to that number. |
| FileParser.ParseShowULong | Vostok.Metrics.System/Host/NativeHostMetricsCollector_Linux.cs:64 | `ulong.TryParse` reads back the decimal rendering of every `ulong`. |
| FileParser.ParseShowInt32 | Vostok.Metrics.System/Host/NativeHostMetricsCollector_Linux.cs:136 | `int.TryParse` reads back the decimal rendering of every non-negative `int`. |
| FileParser.ParseShowInt64 | Vostok.Metrics.System/Host/NativeHostMetricsCollector_Linux.cs:93 | `long.TryParse` reads back the decimal rendering of every non-negative `long`. |
| NativeProcessCollector.NativeMetricsCollectorLinux.Collect | Vostok.Metrics.System/Process/NativeMetricsCollector_Linux.cs:24-46 | One tick. HandlesCount, MemoryResident and MemoryPrivate each take their own status value when present and keep the old value otherwise. The CPU collector gets one call exactly when the system stat (idle, user, system) and the process stat (user, system) are both filled. The call carries system+user+idle, system+user and the CPU count, which may be absent. |
| NativeProcessCollector.NativeMetricsCollectorLinux.WriteProcessStatus | Vostok.Metrics.System/Process/NativeMetricsCollector_Linux.cs:30-37 | Each of the three fields is copied independently when its value is present, and is unchanged otherwise. |
| NativeProcessCollector.NativeMetricsCollectorLinux.ReportCpuTimes | Vostok.Metrics.System/Process/NativeMetricsCollector_Linux.cs:39-45 | Exactly one recorded call with (system+user+idle, system+user, CpuCount) when both records are filled, none otherwise. Nice time is not included. |
| NativeProcessCollector.NativeMetricsCollectorLinux.ReadSystemStat | Vostok.Metrics.System/Process/NativeMetricsCollector_Linux.cs:48-74 | Gives exactly `SystemStatOf`: the times of the "cpu" line, and the count of "cpu" lines − 1, which is computed whatever the first line held. |
| NativeProcessCollector.NativeMetricsCollectorLinux.ReadProcessStat | Vostok.Metrics.System/Process/NativeMetricsCollector_Linux.cs:76-97 | Gives exactly `ProcessStatOf` of /proc/self/stat. |
| NativeProcessCollector.NativeMetricsCollectorLinux.ReadProcessStatus | Vostok.Metrics.System/Process/NativeMetricsCollector_Linux.cs:99-133 | The descriptor count (0 for a missing directory) and the loop with its early `break` give exactly `ProcessStatusOf`: the last values among the lines up to the first one that completes the record. |
| NativeProcessCollector.CpuUtilizationCollector.Collect | Vostok.Metrics.System/Process/NativeMetricsCollector_Linux.cs:44 | The opaque collector records the arguments of each call, in order. |
| NativeProcessCollector.SystemStatOfCpuLine | Vostok.Metrics.System/Process/NativeMetricsCollector_Linux.cs:54-64 | For a first line whose part 0 is "cpu": with at least five parts, user, system and idle are `ulong.TryParse` of parts 1, 3 and 4; otherwise none is set. |
| NativeProcessCollector.NiceTimeIgnored | Vostok.Metrics.System/Process/NativeMetricsCollector_Linux.cs:54-64 | Two first lines whose parts differ only at part 2 give the same three times. |
| NativeProcessCollector.ProcessStatOfLine | Vostok.Metrics.System/Process/NativeMetricsCollector_Linux.cs:82-89 | With at least fifteen parts, utime and stime are `ulong.TryParse` of parts 13 and 14; otherwise neither is set. |
| NativeProcessCollector.CpuLineCountAppend | Vostok.Metrics.System/Process/NativeMetricsCollector_Linux.cs:66 | The "cpu" line count of two blocks of lines is the sum of their counts. |
| NativeProcessCollector.CpuCountIsPerCoreLines | Vostok.Metrics.System/Process/NativeMetricsCollector_Linux.cs:66 | A /proc/stat made of the aggregate line, one "cpuN" line per core and then other lines gives a CpuCount equal to the number of per-core lines. |
| NativeProcessCollector.CpuCountNeedsWholeFile | Vostok.Metrics.System/Process/NativeMetricsCollector_Linux.cs:66 | For any file with fewer than 2^31 lines, the CPU count is present if and only if the whole file could be read. |
| NativeProcessCollector.DescriptorCountAlwaysPresent | Vostok.Metrics.System/Process/NativeMetricsCollector_Linux.cs:103-111 | The descriptor count is always present, and is 0 when the fd directory is missing. The status record is therefore filled exactly when both memory values are. |
| NativeProcessCollector.StopIsFirstCompletingLine | Vostok.Metrics.System/Process/NativeMetricsCollector_Linux.cs:115-124 | The loop reads no more lines than it needs: no shorter prefix holds both keys. It leaves before the end only once both keys have been seen. |
| NativeProcessCollector.ProcessStatusFilledIffBothKeys | Vostok.Metrics.System/Process/NativeMetricsCollector_Linux.cs:115-124 | The status record is filled if and only if some line carries RssAnon and some line carries VmData. Stopping early never loses a value that the whole file has. |
| NativeProcessCollector.ProcessStatusIgnoresLaterLines | Vostok.Metrics.System/Process/NativeMetricsCollector_Linux.cs:115-124 | Once the lines read hold both keys, further lines and a read failure after them do not change the record. |
| HostMonitoring.HostMonitor.constructor | Vostok.Metrics.System/Host/HostMonitor.cs:14-15 | The dictionary starts empty, and the invariant holds. |
| HostMonitoring.HostMonitor.ObserveMetrics | Vostok.Metrics.System/Host/HostMonitor.cs:17-18 | Afterwards the period is in the dictionary and the result is its entry. For a known period, the dictionary is unchanged and the stored observable is returned. Otherwise exactly one entry is added: a fresh observable built with that period and a fresh collector. No other entry is removed or replaced, the keys only grow, and the invariant (each observable's period is its key; no two entries share a collector) is kept. |
| HostMonitoring.PeriodicObservable.constructor | Vostok.Metrics.System/Host/HostMonitor.cs:18 | The observable keeps the period and the collector it was built with. |
| HostMonitoring.ObserveSamePeriodTwice | Vostok.Metrics.System/Host/HostMonitor.cs:17-18 | Two requests for the same period return the identical observable. |
| HostMonitoring.ObserveTwoPeriods | Vostok.Metrics.System/Host/HostMonitor.cs:18 | Requests for two different periods return two different observables, each built for its own period and calling its own collector. |

## Left out

- File and directory access (`ReusableFileReader`, `Directory.EnumerateDirectories` and `EnumerateFiles`, `Dispose`): these become input values. A file is the lines one read delivers plus whether the read then throws; a directory is its entries or an entry count.
- The second read of /proc/stat in the process collector (`ReadLines` after `ReadFirstLine`) is assumed to see the same content as the first.
- The bodies of `FileParser.TrySplitLine`, `FileParser.TryParseLong` and the `TryParse` methods are not part of this model. The stand-ins split on space and tab only, accept ASCII digits with an optional sign and no surrounding white space, and compare keys ordinally. .NET's culture-sensitive `StartsWith` and its wider white-space set are not modelled.
- The pid pattern "[0-9]+$" is the predicate `IsPidPath` (a digit at the end of the path, or just before a final line feed), not a regular-expression engine.
- The CPU utilization collectors, `HostMetricsCollector` and `PeriodicObservable` are not part of this model. They are opaque: the collectors record their calls, and the observable keeps its period and collector. The collectors are assumed to write none of the `HostMetrics` and `CurrentProcessMetrics` fields modelled here, although the source passes them `metrics`; the "left unchanged" clauses of both `Collect` methods rest on this. Their rate math and timers are not modelled.
- Exceptions that escape `Collect` are not modelled. These are the failures of the /proc/self/fd/ enumeration other than a missing directory, and a descriptor count past `int.MaxValue`, which are thrown outside any `try`; the `Count32` type of the descriptor count excludes them. (A task/ count past `int.MaxValue` does not escape: it is caught in `ReadPerformanceInfo` and is modelled.)
- What `ReadFirstLine` returns for an empty but readable file, and whether `TrySplitLine` then throws, is code outside this model. The model assumes no line and no exception, so an empty /proc/stat gives the process collector a CPU count of −1; if the real call throws instead, the CPU count stays absent.
- Logging (`InternalErrorLogger.Warn`) has no effect on any result, so it is left out.
- Concurrency: `ConcurrentDictionary.GetOrAdd` is modelled sequentially. Under concurrent first requests its factory may run more than once; this model cannot express that.
- `NativeHostCollector.NativeHostMetricsCollectorLinux.Collect` and `NativeProcessCollector.NativeMetricsCollectorLinux.Collect`: each block of the source's `Collect` body is its own method (`ReportCpuTimes`, `WriteMemoryInfo`, …) that `Collect` calls in the source's order.
- `NativeHostCollector.NativeHostMetricsCollectorLinux.ReadPerformanceInfo`: its loop over the listing (`CountProcesses`) and its file-nr step (`ReadHandleCount`) are separate methods. The /proc enumeration is lazy, so a throw mid-walk is `complete = false` on the listing, and no count is set.
- `NativeHostCollector.SystemStatOfCpuLine`, `NativeProcessCollector.SystemStatOfCpuLine` and `NativeProcessCollector.ProcessStatOfLine` state token selection in terms of the split parts. The round trip from formatted numbers to parsed values is proved separately in `FileParser`, not on whole /proc lines.
- `CurrentProcessMetrics` and `HostMetrics` are reduced to the fields these collectors write.
