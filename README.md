# dssg_monitor core, modelled in Dafny

`dssg_monitor` is a Prometheus exporter. `MetricExporter` reads a YAML configuration. It looks
up each configured collector name in its table of supported collectors, keeping the recognised
ones in configuration order and logging every other name. It then starts the metrics HTTP
server and, once a second forever, calls `collect_metrics()` on every instantiated collector. A
collector that raises is logged and the loop moves on to the next one.

The model covers the exporter and two collectors:

- **DS18B20 temperature collector.** It pairs the discovered one-wire device directories with
  the configured `names`, one `DS18B20Reader` (and one `temp_<name>` gauge) per device. Its
  `collect_metrics()` reads each device's `temperature` file, which holds millidegrees, and sets
  its gauge to that value divided by 1000, in degrees.
- **System-usage collector.** It registers seven gauges labelled `machine`. The machine name is
  `MACHINE_NAME` or the host name, cut at the first `.`. `collect_metrics()` sets the gauges
  from psutil's figures, from two shell pipelines' counts, which fall back to 0, and from the
  preferred CPU temperature sensor.

Modules:

- `Python` (python.dfy): the exceptions and results the Python code raises and passes on, and
  configuration values.
- `PyInt` (pyint.dfy): `str.strip()`, base-10 `int()` and `str()` on integers.
- `Metrics` (metrics.dfy): the Prometheus registry as a `MetricSink` class, with registered
  gauges and the value of each labelled series. It also holds `RunSets`/`RunOn`, the meaning of
  a run of `gauge.set(expression)` statements in which the first expression that raises ends the
  run.
- `Exporter` (exporter.dfy): class `MetricExporter`, covering resolution, a tick, the bounded
  serving loop and `start()`.
- `Temperature` (temperature.dfy): `NewReader`, the construction loop as the function
  `Pairing` and the method `PairDevices`, the collection loop `ReadAll`, and class
  `DS18B20TemperatureCollector` with the methods `Create` and `CollectMetrics`.
- `SystemUsage` (system_usage.dfy): the machine name, the CPU temperature, the count
  fallbacks, the seven gauges, and class `SystemUsageCollector`.

Inputs:

- Everything the code gets from outside is an input: the environment variable and host name,
  the device directories that `Path.glob` finds, the files `open()` can open and the files'
  contents, psutil's results (or the exception they raise), the output of the subprocess calls,
  and how each collector's call ends in each tick.
- The table of supported collectors is also an input. The source builds it by calling the
  collector constructors (`dssg_monitor/src/dssg_monitor/exporter_server.py:41-45`).
  `SystemUsageCollector()` and `BME280TemperatureCollector()` are called without the `options`
  argument their signatures require, so each raises `TypeError`. `DS18B20TemperatureCollector`
  is called with `self.config["ds18b20_names"]`, which raises `KeyError` when the configuration
  lacks that key. When the key holds a names list, the constructor subscripts the list with
  `"names"`; that `TypeError` is caught, and the collector has no devices. As written, the first
  call raises, so construction fails before resolution starts. The model takes the table as a
  given map from collector names to collector instances and models resolution as the loop at
  lines 48-53 does it.

The DS18B20 constructor's `try` block (`dssg_monitor/src/dssg_monitor/collectors/temperature.py:64-77`)
fixes what happens when the options and the devices do not match:

- With too few names, the constructor keeps the readers it made before the `IndexError`
  (temperature.py:67-71, 76-77); see `Temperature.PairingWithNameList`.
- Extra names are ignored, and nothing reports them.
- A mapping without `names` lets the `KeyError` of temperature.py:65 escape the constructor; see
  `Temperature.ConstructRaisesKeyError`.
- A name that makes `temp_<name>` an invalid metric name lets Prometheus's `ValueError` escape
  the constructor (temperature.py:17); see `Temperature.PairingInvalidName`.

## Model

| member | source | states |
|---|---|---|
| Exporter.Resolve | dssg_monitor/src/dssg_monitor/exporter_server.py:48-53 | the collectors resolution instantiates: the table's instance for each recognised name, in configuration order; its properties are `ResolveAppend`, `ResolveSkipsUnknown`, `ResolveDuplicate`, `ResolveLength` and `ResolveMembers` |
| Exporter.ResolutionLog | dssg_monitor/src/dssg_monitor/exporter_server.py:48-53 | the lines resolution logs, one per configured name; stated by `ResolutionLogAt` and `ResolveAppend` |
| Exporter.MetricExporter.constructor | dssg_monitor/src/dssg_monitor/exporter_server.py:34-53 | keeps server address, port and collector list from the configuration; the instantiated list is `Resolve` of the configured names and the log is `ResolutionLog`, established by a loop invariant over the names processed so far |
| Exporter.ResolveAppend | dssg_monitor/src/dssg_monitor/exporter_server.py:48-53 | resolution and its log go name by name: resolving a concatenation concatenates results and log lines |
| Exporter.ResolveSkipsUnknown | dssg_monitor/src/dssg_monitor/exporter_server.py:52-53 | an unrecognised name contributes no collector and exactly one "not recognised" line, and the names after it are still resolved |
| Exporter.ResolveDuplicate | dssg_monitor/src/dssg_monitor/exporter_server.py:49-50 | a name configured twice appends the same table instance twice |
| Exporter.ResolveLength | dssg_monitor/src/dssg_monitor/exporter_server.py:48-53 | the instantiated list is never longer than the configured list; equal length holds iff every name is recognised, and then position i holds the table's instance for name i |
| Exporter.ResolveMembers | dssg_monitor/src/dssg_monitor/exporter_server.py:49-50 | a collector is instantiated iff some configured name maps to it in the table |
| Exporter.ResolutionLogAt | dssg_monitor/src/dssg_monitor/exporter_server.py:51-53 | one log line per configured name, in order: "instantiated" for a recognised name, "not recognised" otherwise |
| Exporter.TickLogRange | dssg_monitor/src/dssg_monitor/exporter_server.py:90-94 | the failure lines a tick logs for a range of list positions; split by `TickLogSplit` |
| Exporter.TickLog | dssg_monitor/src/dssg_monitor/exporter_server.py:90-94 | the lines one tick logs: one failure line per raising call, in list order; stated by `FailureIsolated`, `TickLogEmpty`, `TickLogEntries` and `TickLogFailures` |
| Exporter.MetricExporter.Tick | dssg_monitor/src/dssg_monitor/exporter_server.py:90-94 | one tick calls every instantiated collector once, in list order, and appends exactly `TickLog`: one failure line per raising call, and every later collector is still called |
| Exporter.FailureIsolated | dssg_monitor/src/dssg_monitor/exporter_server.py:91-94 | a raising collector is logged once, with its identity and exception, between the lines of the collectors before and after it |
| Exporter.TickLogEmpty | dssg_monitor/src/dssg_monitor/exporter_server.py:91-94 | a tick logs nothing iff every call returns |
| Exporter.TickLogEntries | dssg_monitor/src/dssg_monitor/exporter_server.py:93-94 | every line a tick logs is a failure of a listed collector whose call raised that exception; at most one line per call |
| Exporter.TickLogFailures | dssg_monitor/src/dssg_monitor/exporter_server.py:90-94 | every line one tick logs is a failure of a listed collector |
| Exporter.TickLogSplit | dssg_monitor/src/dssg_monitor/exporter_server.py:90-94 | the log of a range of positions is the log of its first part followed by that of its rest |
| Exporter.Repeat | dssg_monitor/src/dssg_monitor/exporter_server.py:89-92 | the collector calls n ticks make, the whole list once per tick; stated by `RepeatAt` |
| Exporter.RepeatAt | dssg_monitor/src/dssg_monitor/exporter_server.py:89-92 | over n ticks there are n times as many calls as collectors, and call t·len + i is collector i |
| Exporter.RunLog | dssg_monitor/src/dssg_monitor/exporter_server.py:89-94 | the lines n ticks log, tick after tick; stated by `RunLogFailures` and `RunLogQuiet` |
| Exporter.RunLogFailures | dssg_monitor/src/dssg_monitor/exporter_server.py:89-94 | over any number of ticks every logged line is a failed call of a listed collector |
| Exporter.RunLogQuiet | dssg_monitor/src/dssg_monitor/exporter_server.py:89-94 | ticks in which every call returns log nothing |
| Exporter.MetricExporter.Serve | dssg_monitor/src/dssg_monitor/exporter_server.py:89-95 | the collection loop, bounded to `rounds` ticks: the calls are the instantiated list repeated once per tick and the log grows by the ticks' logs, proved by a loop invariant |
| Exporter.Truncate | dssg_monitor/src/dssg_monitor/exporter_server.py:86 | `int()` of a float, truncating toward zero; stated by `TruncateBounds` |
| Exporter.PortValue | dssg_monitor/src/dssg_monitor/exporter_server.py:86 | `int(self.host_port)` raises only for a missing port (`TypeError`) or for text that is not an integer (`ValueError`) |
| Exporter.TruncateBounds | dssg_monitor/src/dssg_monitor/exporter_server.py:86 | `int()` of a float truncates toward zero: the result is within 1 of it, on the side of 0 |
| Exporter.PortValueCases | dssg_monitor/src/dssg_monitor/exporter_server.py:86 | an integer port, the same integer as a float and its decimal text with surrounding whitespace all give that port; a missing port raises `TypeError` |
| Exporter.MetricExporter.Start | dssg_monitor/src/dssg_monitor/exporter_server.py:86-95 | a port `int()` rejects raises its exception (`TypeError` or `ValueError`) with nothing started or logged; otherwise the server is started once on the configured address and converted port, recorded with the number of collector calls made before it (so it is up before the first tick), the address line is logged, then the ticks run |
| Exporter.Run | dssg_monitor/src/dssg_monitor/exporter_server.py:34-55 | constructing the exporter resolves the collectors then starts: the whole log is the resolution log, the address line and the ticks' logs, and the one server started was started before any collector call |
| PyInt.Strip | dssg_monitor/src/dssg_monitor/collectors/system_usage.py:38 | `str.strip()`: `lstrip()` then `rstrip()`; stated by `TrimStartDrops`, `TrimEndDrops`, `StripPadded`, `TrimStartPadded` and `TrimEndPadded` |
| PyInt.ParseInt | dssg_monitor/src/dssg_monitor/collectors/system_usage.py:39 | base-10 `int()` of text: the stripped text must be an optionally signed run of digits, with single underscores between digits; stated by `ParseStrippedNat`, `ParseStrippedDecimal`, `ParseDecimal`, `ParseBare` and `ParseNoDigit` |
| PyInt.Decimal | dssg_monitor/src/dssg_monitor/collectors/system_usage.py:39 | `str(n)` of an integer, the reference text `int()` reads back; stated by `NatDecimal`, `NatDecimalValue`, `DecimalDigitGroups`, `DecimalEnds` and `ParseDecimal` |
| PyInt.TrimStartDrops | dssg_monitor/src/dssg_monitor/collectors/system_usage.py:38 | `lstrip()` leaves a suffix, drops only whitespace, and leaves no leading whitespace |
| PyInt.TrimEndDrops | dssg_monitor/src/dssg_monitor/collectors/system_usage.py:38 | `rstrip()` leaves a prefix, drops only whitespace, and leaves no trailing whitespace |
| PyInt.StripPadded | dssg_monitor/src/dssg_monitor/collectors/system_usage.py:38 | `strip()` removes exactly the surrounding whitespace of text that does not start or end with whitespace |
| PyInt.TrimStartPadded | dssg_monitor/src/dssg_monitor/collectors/system_usage.py:38 | `lstrip()` of whitespace followed by text starting with non-whitespace is that text |
| PyInt.TrimEndPadded | dssg_monitor/src/dssg_monitor/collectors/system_usage.py:38 | `rstrip()` of text ending with non-whitespace followed by whitespace is that text |
| PyInt.NatDecimal | dssg_monitor/src/dssg_monitor/collectors/system_usage.py:39 | `str(n)` of a non-negative integer is a non-empty string of decimal digits |
| PyInt.NatDecimalValue | dssg_monitor/src/dssg_monitor/collectors/system_usage.py:39 | the digits `str(n)` writes have the value n |
| PyInt.DecimalDigitGroups | dssg_monitor/src/dssg_monitor/collectors/system_usage.py:39 | `str(n)` of a non-negative integer is a digit string `int()` accepts |
| PyInt.ParseStrippedNat | dssg_monitor/src/dssg_monitor/collectors/system_usage.py:39 | `int()` reads a non-negative `str(n)` back as n |
| PyInt.ParseStrippedDecimal | dssg_monitor/src/dssg_monitor/collectors/system_usage.py:39 | `int()` reads `str(n)`, sign included, back as n |
| PyInt.ParseDecimal | dssg_monitor/src/dssg_monitor/collectors/system_usage.py:38-39 | `int()` of `str(n)` surrounded by any whitespace is n |
| PyInt.DecimalEnds | dssg_monitor/src/dssg_monitor/collectors/system_usage.py:39 | `str(n)` is non-empty and starts and ends with non-whitespace |
| PyInt.ParseBare | dssg_monitor/src/dssg_monitor/collectors/temperature.py:23 | `int(str(n)) == n` |
| PyInt.ParseNoDigit | dssg_monitor/src/dssg_monitor/collectors/system_usage.py:39-41 | `int()` of text without a decimal digit raises `ValueError` |
| Metrics.Apply | dssg_monitor/src/dssg_monitor/collectors/system_usage.py:85-91 | the series values after a run of `set` calls, each overwriting its series; stated by `ApplyOverrides`, `ApplyUntouched`, `ApplyIdempotent`, `ApplyDistinct` and `ApplyPrepend` |
| Metrics.ApplyOverrides | dssg_monitor/src/dssg_monitor/collectors/system_usage.py:85-91 | `set` calls touch exactly the series they name: those hold the value last set, every other series keeps its value |
| Metrics.ApplyUntouched | dssg_monitor/src/dssg_monitor/collectors/system_usage.py:85-91 | a series no update names keeps its value, or stays absent |
| Metrics.ApplyIdempotent | dssg_monitor/src/dssg_monitor/collectors/system_usage.py:85-91 | making the same `set` calls twice leaves the series as making them once |
| Metrics.ApplyDistinct | dssg_monitor/src/dssg_monitor/collectors/system_usage.py:85-91 | when no two updates name the same series, each series holds its update's value |
| Metrics.ApplyPrepend | dssg_monitor/src/dssg_monitor/collectors/system_usage.py:85-91 | a first `set` call applies under all later ones |
| Metrics.RunSets | dssg_monitor/src/dssg_monitor/collectors/system_usage.py:85-91 | the sets made by a run of statements are a prefix of them, each with its computed value; the run returns iff all were made, and otherwise raises the exception of the first statement not made |
| Metrics.RunSetsAt | dssg_monitor/src/dssg_monitor/collectors/temperature.py:81-82 | when the statements before i were made, statement i is made iff its value computes, else the run ends there with its exception |
| Metrics.RunSetsStep | dssg_monitor/src/dssg_monitor/collectors/temperature.py:81-82 | the same step on series values: a made set extends the values by its update, a raising one ends the run with every set made so far |
| Metrics.RunOn | dssg_monitor/src/dssg_monitor/collectors/system_usage.py:85-91 | statement-by-statement execution of `gauge.set(expression)` statements, ending at the first expression that raises; stated by `RunOnStep` and `RunOnSets` |
| Metrics.RunOnStep | dssg_monitor/src/dssg_monitor/collectors/system_usage.py:85-91 | running from statement k: it raises and ends the run, leaving the values, or is made and the run goes on from k + 1 |
| Metrics.RunOnSets | dssg_monitor/src/dssg_monitor/collectors/system_usage.py:85-91 | executing the statements one by one ends as `RunSets` says and leaves the values of the sets it made |
| Metrics.MetricNameCharsAll | dssg_monitor/src/dssg_monitor/collectors/temperature.py:17 | the characters after the first of a metric name are valid iff each of them is a letter, digit, `_` or `:` |
| Metrics.MetricSink.Register | dssg_monitor/src/dssg_monitor/collectors/system_usage.py:22-28 | a gauge construction appends one registration; an unlabelled gauge's one series exists from then on with value 0, and a labelled gauge changes no series |
| Metrics.MetricSink.Set | dssg_monitor/src/dssg_monitor/collectors/system_usage.py:85 | `labels(...).set(v)` sets that one series to v and changes nothing else |
| Metrics.MetricSink.Run | dssg_monitor/src/dssg_monitor/collectors/temperature.py:23 | `gauge.set(expression)`: the expression's value is set, or its exception is raised with every series as it was |
| Temperature.NewReader | dssg_monitor/src/dssg_monitor/collectors/temperature.py:7-17 | `DS18B20Reader(address, name)`: `OSError` when the temperature file cannot be opened, `TypeError` for a name that is not a string, `ValueError` for a name that makes no metric name, otherwise the reader; stated by `TempNameValid`, `ReaderNaming`, `PairingUnopenable` and `PairingInvalidName` |
| Temperature.TempNameValid | dssg_monitor/src/dssg_monitor/collectors/temperature.py:17 | `temp_` followed by a name is a valid metric name iff every character of the name is a letter, digit, `_` or `:` |
| Temperature.ReaderNaming | dssg_monitor/src/dssg_monitor/collectors/temperature.py:13-17 | for names giving valid metric names, a reader's temperature file is its directory followed by `/temperature` and its gauge is `temp_` followed by its name; two readers share a file iff they share a directory, and a gauge iff they share a name |
| Temperature.GetNames | dssg_monitor/src/dssg_monitor/collectors/temperature.py:65 | `options["names"]`: `KeyError` for a mapping without it, `TypeError` for options that are not a mapping; stated by `OptionsWithoutNames` |
| Temperature.NameAt | dssg_monitor/src/dssg_monitor/collectors/temperature.py:69 | `names[i]`: item i of a list, character i of a string, `IndexError` past the end of either, `KeyError` for a mapping, `TypeError` for anything else; used by `PairingWithNameList` and `ConstructRaisesKeyError` |
| Temperature.Pairing | dssg_monitor/src/dssg_monitor/collectors/temperature.py:67-71 | the loop over the first k device paths: the readers made and the exception that ended it; stated by `PairingReaders`, `PairingNext`, `PairingStops`, `PairingWithNameList`, `PairingUnopenable` and `PairingInvalidName` |
| Temperature.PairingReaders | dssg_monitor/src/dssg_monitor/collectors/temperature.py:67-71 | the loop appends reader i pairing path i with `names[i]` for the longest run of steps that work; it ends early iff some step raised, and then with the first such step's exception |
| Temperature.PairingNext | dssg_monitor/src/dssg_monitor/collectors/temperature.py:67-71 | one step of the loop: a name lookup or reader construction that raises ends the loop with that exception, the readers kept; otherwise the new reader is appended |
| Temperature.PairingStops | dssg_monitor/src/dssg_monitor/collectors/temperature.py:64-77 | once a step raised, later paths change nothing |
| Temperature.PairingWithNameList | dssg_monitor/src/dssg_monitor/collectors/temperature.py:67-77 | with a list of string names giving valid metric names and openable files, the loop makes min(len(paths), len(names)) readers, reader i pairing path i with name i; too few names end it with `IndexError`, extra names are ignored |
| Temperature.PairingInvalidName | dssg_monitor/src/dssg_monitor/collectors/temperature.py:67-71 | the first name that does not give a valid metric name ends the loop with `ValueError`, the readers before it kept |
| Temperature.PairingUnopenable | dssg_monitor/src/dssg_monitor/collectors/temperature.py:16 | with valid names, a temperature file that cannot be opened ends the loop with `OSError`, the readers before it kept |
| Temperature.Construct | dssg_monitor/src/dssg_monitor/collectors/temperature.py:64-77 | the `try` block: the names lookup, then `Pairing` over all paths; stated by `OptionsWithoutNames` and `ConstructRaisesKeyError`, and `Create` is proved against it |
| Temperature.OptionsWithoutNames | dssg_monitor/src/dssg_monitor/collectors/temperature.py:64-65 | a mapping without "names" gives `KeyError` and options that are not a mapping give `TypeError`, with no reader made |
| Temperature.ConstructRaisesKeyError | dssg_monitor/src/dssg_monitor/collectors/temperature.py:64-77 | construction raises `KeyError` iff the options mapping has no "names" entry, or that entry is a mapping and some device was found |
| Temperature.RegistrationsAt | dssg_monitor/src/dssg_monitor/collectors/temperature.py:17 | registration i is reader i's gauge, with no labels |
| Temperature.ZeroUpdatesSnoc | dssg_monitor/src/dssg_monitor/collectors/temperature.py:17 | making one more reader registers one more gauge and adds its series at 0 |
| Temperature.ZeroUpdatesAt | dssg_monitor/src/dssg_monitor/collectors/temperature.py:17 | every reader made has its gauge's series at 0 |
| Temperature.PairStep | dssg_monitor/src/dssg_monitor/collectors/temperature.py:67-71 | one loop step, proved against `Pairing`: the readers and error are `Pairing` one path further, and the sink gains the new reader's gauge at 0 |
| Temperature.PairDevices | dssg_monitor/src/dssg_monitor/collectors/temperature.py:67-71 | the loop, proved against `Pairing` by its invariant: it ends with the readers and exception of `Pairing` over all paths, one gauge registered per reader made, each at 0 |
| Temperature.DS18B20TemperatureCollector.Empty | dssg_monitor/src/dssg_monitor/collectors/temperature.py:61-62 | a collector with the discovered paths and no readers yet |
| Temperature.DS18B20TemperatureCollector.Create | dssg_monitor/src/dssg_monitor/collectors/temperature.py:57-77 | the constructor's loop, proved against `Construct`: readers and report are what `Construct` gives, one unlabelled gauge is registered per reader made and holds 0, a caught `TypeError`/`IndexError` keeps the readers made so far, and a `KeyError`, `OSError` or `ValueError` propagates |
| Temperature.ReadTemp | dssg_monitor/src/dssg_monitor/collectors/temperature.py:22-23 | `int(data[:-1]) / 1000` of a file's contents, `ValueError` when `int()` rejects the text; stated by `ReadTempOfSysfs` and `ReadTempWithoutNewline` |
| Temperature.ReadTempOfSysfs | dssg_monitor/src/dssg_monitor/collectors/temperature.py:21-23 | a file holding millidegrees and a newline reads as that value divided by 1000 |
| Temperature.ReadTempWithoutNewline | dssg_monitor/src/dssg_monitor/collectors/temperature.py:22 | exactly one character is dropped, so a file without its final newline reads ten times too low |
| Temperature.DeviceReading | dssg_monitor/src/dssg_monitor/collectors/temperature.py:19-23 | what `read_temp()` computes for one reader: `ReadTemp` of its file, `OSError` when the file cannot be read; used by `TempAttemptsAt` and `CollectStopsAtFailure` |
| Temperature.TempAttempts | dssg_monitor/src/dssg_monitor/collectors/temperature.py:81-82 | one `set` statement per device |
| Temperature.TempAttemptsAt | dssg_monitor/src/dssg_monitor/collectors/temperature.py:81-82 | statement i sets device i's gauge to device i's reading |
| Temperature.ReadInto | dssg_monitor/src/dssg_monitor/collectors/temperature.py:19-23 | `read_temp()`: sets the reader's gauge to the file's temperature, or raises (`ValueError` for text `int()` rejects, `OSError` for a file that cannot be read) leaving the series unchanged |
| Temperature.CollectStopsAtFailure | dssg_monitor/src/dssg_monitor/collectors/temperature.py:79-82 | devices are read in list order; the first that fails ends the call with its exception after exactly the earlier devices' sets |
| Temperature.CollectIdempotent | dssg_monitor/src/dssg_monitor/collectors/temperature.py:79-82 | reading the same files twice leaves the gauges as reading them once |
| Temperature.ReadNext | dssg_monitor/src/dssg_monitor/collectors/temperature.py:81-82 | one pass of the loop: reading device i either raises, ending the run from i with the series unchanged, or sets its gauge and the run goes on from i + 1 |
| Temperature.ReadAll | dssg_monitor/src/dssg_monitor/collectors/temperature.py:81-82 | the loop, proved by its invariant against `RunOn` and `RunSets`: the outcome and new series values are those of the device statements run in order, and no gauge is registered |
| Temperature.DS18B20TemperatureCollector.CollectMetrics | dssg_monitor/src/dssg_monitor/collectors/temperature.py:79-82 | `collect_metrics()` on the collector's readers: the outcome and new series values are those of its device statements run in order, the first failure propagating |
| SystemUsage.Split | dssg_monitor/src/dssg_monitor/collectors/system_usage.py:19 | `split` yields at least one piece |
| SystemUsage.JoinSplit | dssg_monitor/src/dssg_monitor/collectors/system_usage.py:19 | joining the pieces with the separator gives the text back |
| SystemUsage.SplitPieces | dssg_monitor/src/dssg_monitor/collectors/system_usage.py:19 | no piece contains the separator |
| SystemUsage.SplitFirst | dssg_monitor/src/dssg_monitor/collectors/system_usage.py:19 | the first piece is a prefix without the separator, the whole text or followed by the separator |
| SystemUsage.MachineSource | dssg_monitor/src/dssg_monitor/collectors/system_usage.py:19 | `os.getenv("MACHINE_NAME", socket.gethostname())`: the variable when set, the host name otherwise; stated by `MachineNameOfQualified` |
| SystemUsage.MachineName | dssg_monitor/src/dssg_monitor/collectors/system_usage.py:19 | `source.split(".")[0]`; stated by `MachineNamePrefix`, `MachineNameWhole` and `MachineNameOfQualified` |
| SystemUsage.MachineNamePrefix | dssg_monitor/src/dssg_monitor/collectors/system_usage.py:19 | the machine name is the source up to its first `.` |
| SystemUsage.MachineNameWhole | dssg_monitor/src/dssg_monitor/collectors/system_usage.py:19 | the machine name is the whole source iff it has no `.` |
| SystemUsage.MachineNameOfQualified | dssg_monitor/src/dssg_monitor/collectors/system_usage.py:19 | `MACHINE_NAME` wins when set; otherwise a qualified host name gives its first label |
| SystemUsage.Preferred | dssg_monitor/src/dssg_monitor/collectors/system_usage.py:67-72 | a family it picks is present and one of the preferred families |
| SystemUsage.PreferredAt | dssg_monitor/src/dssg_monitor/collectors/system_usage.py:67-72 | the family at position i is picked when present and no earlier one is |
| SystemUsage.PreferredNone | dssg_monitor/src/dssg_monitor/collectors/system_usage.py:67-73 | nothing is picked iff none of the families is present |
| SystemUsage.CpuTemperature | dssg_monitor/src/dssg_monitor/collectors/system_usage.py:58-75 | the `if`/`elif` chain over coretemp, cpu-thermal and acpitz, with 0 on a caught exception; stated by `CpuTemperatureByPreference`, `CpuTemperaturePriority` and `CpuTemperatureFallback` |
| SystemUsage.CpuTemperatureByPreference | dssg_monitor/src/dssg_monitor/collectors/system_usage.py:58-75 | the CPU temperature is the first reading of the most preferred present family among coretemp, cpu-thermal, acpitz, and 0 when none is present or the sensor query raised |
| SystemUsage.CpuTemperaturePriority | dssg_monitor/src/dssg_monitor/collectors/system_usage.py:66-72 | a present family is used when no more preferred one is present; an empty reading list there gives 0 |
| SystemUsage.CpuTemperatureFallback | dssg_monitor/src/dssg_monitor/collectors/system_usage.py:73 | without any of the three families the temperature is 0 |
| SystemUsage.CommandCount | dssg_monitor/src/dssg_monitor/collectors/system_usage.py:30-56 | a count from a pipeline's output: `int(output.strip())`, and 0 when the call or `int()` raised; stated by `CommandCountReadsBack` and `CommandCountNoDigit` |
| SystemUsage.CommandCountReadsBack | dssg_monitor/src/dssg_monitor/collectors/system_usage.py:30-56 | a count printed with surrounding whitespace reads back as that count |
| SystemUsage.CommandCountNoDigit | dssg_monitor/src/dssg_monitor/collectors/system_usage.py:37-41 | output without a digit counts as 0 |
| SystemUsage.UsageRegistrations | dssg_monitor/src/dssg_monitor/collectors/system_usage.py:22-28 | the seven `Gauge(name, ..., ["machine"])` constructions in order; stated by `UsageRegistrationsDistinct` and `SetsRegisteredSeries`, and the constructor appends exactly these |
| SystemUsage.UsageRegistrationsDistinct | dssg_monitor/src/dssg_monitor/collectors/system_usage.py:22-28 | seven gauges, no name twice, each labelled by `machine` alone |
| SystemUsage.SystemUsageCollector.constructor | dssg_monitor/src/dssg_monitor/collectors/system_usage.py:19-28 | the machine name comes from `MACHINE_NAME` or the host name, cut at the first `.`; the seven registrations are appended and no series changes |
| SystemUsage.SetsRegisteredSeries | dssg_monitor/src/dssg_monitor/collectors/system_usage.py:85-91 | statement i of `collect_metrics()` sets a series of gauge i as registered by the constructor, with exactly its declared label names |
| SystemUsage.UsageAttempts | dssg_monitor/src/dssg_monitor/collectors/system_usage.py:85-91 | seven statements, statement i setting gauge i of this machine |
| SystemUsage.CollectOutcome | dssg_monitor/src/dssg_monitor/collectors/system_usage.py:85-91 | a call raises only from psutil's four direct figures, with the first that raises, after 0, 1, 2 or 5 sets; otherwise it returns after all seven |
| SystemUsage.CollectTouchesOnlyMachine | dssg_monitor/src/dssg_monitor/collectors/system_usage.py:85-91 | a series other than this machine's seven keeps its value or stays absent |
| SystemUsage.CollectSetsEach | dssg_monitor/src/dssg_monitor/collectors/system_usage.py:85-91 | with psutil's four figures available, statement i is made and its series holds its value |
| SystemUsage.CollectSetsAll | dssg_monitor/src/dssg_monitor/collectors/system_usage.py:85-91 | with psutil's four figures available, each gauge holds its figure: the parsed counts and the preferred sensor's temperature |
| SystemUsage.CollectIdempotent | dssg_monitor/src/dssg_monitor/collectors/system_usage.py:85-91 | collecting the same figures twice leaves the gauges as collecting them once |
| SystemUsage.SystemUsageCollector.CollectMetrics | dssg_monitor/src/dssg_monitor/collectors/system_usage.py:85-91 | the seven sets in order under `machine = machineName`, proved against `RunOn` and `RunSets`: the outcome and new values are those of the statements run in order, the first raising figure propagating |

## Left out

- Loading the configuration (`load_config`: opening the file, YAML parsing, `exit()` on failure) is not modelled. The configuration's three fields are given as an `ExporterConfig` value, and a missing key (a `KeyError` at exporter_server.py:35-37) is not modelled.
- The constructor calls at exporter_server.py:42-44 do not match the collector constructors' signatures. The table of supported collectors is an input instead; see above.
- `start_http_server` is modelled only as a record of the address and port it was called with. Binding and serving HTTP, a bind failure and scraping are left out because they are I/O.
- The loop `while True` is modelled as a number of ticks, `rounds`; the model says nothing about the process running forever.
- `time.sleep(1)`, the logging configuration and message texts are left out: they are time and formatting. Log lines are kept as structured entries.
- What a collector's `collect_metrics()` does inside the exporter is left out there: the exporter knows a collector only by its identity, and whether each call returns or raises is an input. The collectors' own `collect_metrics()` are modelled in their modules.
- Prometheus's `ValueError` on registering the same gauge name twice is left out: the sink records registrations but does not reject duplicates.
- A labelled gauge's `labels(...)` child is created on first use with value 0; the model has it only from the first `set` on.
- Collector list items are strings only. An item that is a mapping (whose `in` test raises `TypeError` and aborts the exporter's construction) and non-string scalars (logged as not recognised) are not modelled.
- Configuration mappings have string keys only, so a `names` mapping with integer keys (`{0: a}`) is not modelled: `NameAt` gives `KeyError` for every mapping.
- Metric-name validation follows the Prometheus client's `[a-zA-Z_:][a-zA-Z0-9_:]*`. Client releases with relaxed validation are not modelled.
- A boolean port (`int(True)`) and a NaN or infinite float port are left out.
- Temperature.ReaderNaming, Temperature.PairingWithNameList, Temperature.PairingUnopenable: these assume that every name the loop reads before the step they describe is a string giving a valid metric name. Names the loop never reaches are unconstrained. A string name that gives no valid metric name raises `ValueError` (`Temperature.PairingInvalidName`). A name that is not a string raises `TypeError`, which the constructor catches, keeping the readers made so far (`Temperature.PairingReaders`).
- Gauge values, psutil's percentages, the load average and `int(data) / 1000` are exact reals. Floating-point rounding and the float type are left out.
- `int()` accepts ASCII digits only in the model. Python also accepts other Unicode decimal digits, which are left out.
- psutil (`cpu_percent`, `virtual_memory`, `disk_usage`, `getloadavg`, `sensors_temperatures`), `subprocess.check_output`, `os.getenv`, `socket.gethostname`, `Path.glob` and `open` are foreign calls. Their results are inputs: for `getloadavg()`, only its first element is taken; for the pipelines, their text output, or `None` when the call raised; for `open`, the set of openable files; for reads, the files' contents.
- The shell pipelines' own behaviour (`ls | wc -l`, `ps | grep | awk | sort -u | wc -l`) is input text; their counting is not modelled.
- A temperature file that cannot be read at collection time (it was opened at construction) raises `OSError`. Seeking and the shared file handle are left out.
- Exceptions other than the ones named (an `AttributeError` from a psutil entry, say) are left out; `OSError` stands for every failure of a foreign call.
- The `print` the DS18B20 constructor makes for a caught error is kept as the `report` field holding the exception; its text is left out.
- `self.names` (temperature.py:65) is not kept as a field; it is read only by the loop.
- The `options` parameter of `SystemUsageCollector` is unused in the source and is not modelled.
- `BME280Reader` and `BME280TemperatureCollector` (temperature.py:26-51) are not part of this model. They depend entirely on the `odin_devices` hardware driver.
- `dssg_monitor/src/dssg_monitor/main.py` (argument handling) and the older `dssg_monitor/dssg_monitor/exporter_server.py` are not part of this model.
