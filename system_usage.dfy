/** The system-usage collector: seven gauges labelled with the machine's name, set from psutil's
    figures, two shell pipelines' counts and the preferred CPU temperature sensor. The results of
    psutil and of the subprocess calls are inputs. */
module SystemUsage {
  import opened Python
  import opened Metrics
  import PyInt

  // ---------------------------------------------------------------- machine name

  /** `s.split(sep)` for a one-character separator: the pieces between separators, in order;
      there is always at least one. */
  function Split(s: string, sep: char): (parts: seq<string>)
    ensures |parts| > 0
  {
    if s == [] then [""]
    else
      var rest := Split(s[1..], sep);
      if s[0] == sep then [""] + rest else [[s[0]] + rest[0]] + rest[1..]
  }

  /** `sep.join(parts)`. */
  function Join(parts: seq<string>, sep: char): string
    requires |parts| > 0
  {
    if |parts| == 1 then parts[0] else parts[0] + [sep] + Join(parts[1..], sep)
  }

  /** Joining the pieces with the separator gives the text back. */
  lemma {:induction false} JoinSplit(s: string, sep: char)
    ensures Join(Split(s, sep), sep) == s
  {
    if s != [] {
      var rest := Split(s[1..], sep);
      JoinSplit(s[1..], sep);
      var parts := Split(s, sep);
      if s[0] == sep {
        assert parts[1..] == rest;
      } else if |rest| == 1 {
        assert parts == [[s[0]] + rest[0]];
      } else {
        assert parts[1..] == rest[1..];
        assert Join(rest, sep) == rest[0] + [sep] + Join(rest[1..], sep);
      }
    }
  }

  /** No piece contains the separator. */
  lemma {:induction false} SplitPieces(s: string, sep: char)
    ensures forall i :: 0 <= i < |Split(s, sep)| ==> sep !in Split(s, sep)[i]
  {
    if s != [] {
      var rest := Split(s[1..], sep);
      SplitPieces(s[1..], sep);
      var parts := Split(s, sep);
      if s[0] == sep {
        assert forall i :: 1 <= i < |parts| ==> parts[i] == rest[i - 1];
      } else {
        assert forall i :: 1 <= i < |parts| ==> parts[i] == rest[i];
        assert sep !in [s[0]] + rest[0];
      }
    }
  }

  /** The first piece is the text up to its first separator: a prefix of the text without the
      separator, which is the whole text or is followed by the separator. */
  lemma {:induction false} SplitFirst(s: string, sep: char)
    ensures var f := Split(s, sep)[0];
      f <= s && sep !in f && (f == s || s[|f|] == sep)
  {
    if s != [] && s[0] != sep {
      SplitFirst(s[1..], sep);
      var f := Split(s, sep)[0];
      var g := Split(s[1..], sep)[0];
      assert f == [s[0]] + g;
      assert s == [s[0]] + s[1..];
    }
  }

  /** Where the machine's name comes from: `MACHINE_NAME` when the environment sets it, the
      host name otherwise. */
  function MachineSource(machineNameVariable: Option<string>, hostname: string): string {
    machineNameVariable.GetOr(hostname)
  }

  /** The machine label: the source up to its first `.`. */
  function MachineName(source: string): string {
    Split(source, '.')[0]
  }

  /** The machine name is a prefix of its source without a `.`, and ends where the source ends
      or at the source's first `.`. */
  lemma MachineNamePrefix(source: string)
    ensures var m := MachineName(source);
      m <= source && '.' !in m && (m == source || source[|m|] == '.')
  {
    SplitFirst(source, '.');
  }

  /** The machine name is its whole source exactly when the source has no `.`. */
  lemma MachineNameWhole(source: string)
    ensures MachineName(source) == source <==> '.' !in source
  {
    MachineNamePrefix(source);
  }

  /** A fully qualified host name gives its first label: `MACHINE_NAME` wins over the host name
      when set. */
  lemma MachineNameOfQualified(machineNameVariable: Option<string>, host: string, domain: string)
    requires '.' !in host
    ensures MachineName(MachineSource(machineNameVariable, host + "." + domain))
      == if machineNameVariable.Some? then MachineName(machineNameVariable.value) else host
  {
    if machineNameVariable.None? {
      var s := host + "." + domain;
      MachineNamePrefix(s);
      var m := MachineName(s);
      assert s[..|host|] == host && s[|host|] == '.';
      assert m == s[..|m|];
    }
  }

  // ---------------------------------------------------------------- CPU temperature

  /** The sensor families `get_cpu_temperature()` looks for, most preferred first. */
  const SensorOrder: seq<string> := ["coretemp", "cpu-thermal", "acpitz"]

  /** `readings[0].current`, 0 when the list is empty (the `IndexError` is caught). */
  function FirstCurrent(readings: seq<real>): real {
    if |readings| > 0 then readings[0] else 0.0
  }

  /** `get_cpu_temperature()`, given what `psutil.sensors_temperatures()` returned (each
      family with the `current` values of its sensors) or that it raised. */
  function CpuTemperature(temps: Result<map<string, seq<real>>>): real {
    match temps
    case Err(_) => 0.0
    case Ok(t) =>
      if "coretemp" in t then FirstCurrent(t["coretemp"])
      else if "cpu-thermal" in t then FirstCurrent(t["cpu-thermal"])
      else if "acpitz" in t then FirstCurrent(t["acpitz"])
      else 0.0
  }

  /** The first of `order` that `t` has. */
  function Preferred(t: map<string, seq<real>>, order: seq<string>): (r: Option<string>)
    ensures r.Some? ==> r.value in t && r.value in order
  {
    if order == [] then None
    else if order[0] in t then Some(order[0])
    else Preferred(t, order[1..])
  }

  /** `Preferred` picks the family at position `i` when `t` has it and none before it. */
  lemma {:induction false} PreferredAt(t: map<string, seq<real>>, order: seq<string>, i: nat)
    requires i < |order| && order[i] in t
    requires forall j :: 0 <= j < i ==> order[j] !in t
    ensures Preferred(t, order) == Some(order[i])
  {
    if i > 0 {
      assert order[0] !in t;
      PreferredAt(t, order[1..], i - 1);
    }
  }

  /** `Preferred` finds nothing exactly when `t` has none of the families. */
  lemma {:induction false} PreferredNone(t: map<string, seq<real>>, order: seq<string>)
    ensures Preferred(t, order).None? <==> forall j :: 0 <= j < |order| ==> order[j] !in t
  {
    if order != [] {
      PreferredNone(t, order[1..]);
      assert forall j :: 1 <= j < |order| ==> order[j] == order[1..][j - 1];
    }
  }

  /** The CPU temperature is the first reading of the most preferred family present, and 0
      when no family is present or the sensor query raised. */
  lemma CpuTemperatureByPreference(temps: Result<map<string, seq<real>>>)
    ensures temps.Err? ==> CpuTemperature(temps) == 0.0
    ensures temps.Ok? ==>
      CpuTemperature(temps) == (
        match Preferred(temps.value, SensorOrder)
        case None => 0.0
        case Some(family) => FirstCurrent(temps.value[family]))
  {
    if temps.Ok? {
      var t := temps.value;
      if "coretemp" in t {
        PreferredAt(t, SensorOrder, 0);
      } else if "cpu-thermal" in t {
        PreferredAt(t, SensorOrder, 1);
      } else if "acpitz" in t {
        PreferredAt(t, SensorOrder, 2);
      } else {
        PreferredNone(t, SensorOrder);
      }
    }
  }

  /** The family at position `i` is used when it is present and no more preferred one is; an
      empty list there gives 0 and no later family is consulted. */
  lemma CpuTemperaturePriority(t: map<string, seq<real>>, i: nat)
    requires i < |SensorOrder| && SensorOrder[i] in t
    requires forall j :: 0 <= j < i ==> SensorOrder[j] !in t
    ensures CpuTemperature(Ok(t)) == FirstCurrent(t[SensorOrder[i]])
  {
    CpuTemperatureByPreference(Ok(t));
    PreferredAt(t, SensorOrder, i);
  }

  /** Without any of the three families, the CPU temperature is 0. */
  lemma CpuTemperatureFallback(t: map<string, seq<real>>)
    requires forall j :: 0 <= j < |SensorOrder| ==> SensorOrder[j] !in t
    ensures CpuTemperature(Ok(t)) == 0.0
  {
    CpuTemperatureByPreference(Ok(t));
    PreferredNone(t, SensorOrder);
  }

  // ---------------------------------------------------------------- counts

  /** `get_terminal_count()` and `get_unique_users()`: `int()` of the stripped output of the
      pipeline, 0 when the pipeline failed (`None`) or the text is not an integer. */
  function CommandCount(output: Option<string>): int {
    match output
    case None => 0
    case Some(text) => PyInt.ParseInt(PyInt.Strip(text)).GetOr(0)
  }

  /** A count printed by `wc -l`, padded with any whitespace (its trailing newline, BSD's
      leading spaces), reads back as that count. */
  lemma CommandCountReadsBack(ws1: string, n: int, ws2: string)
    requires PyInt.AllSpace(ws1) && PyInt.AllSpace(ws2)
    ensures CommandCount(Some(ws1 + PyInt.Decimal(n) + ws2)) == n
  {
    PyInt.DecimalEnds(n);
    PyInt.StripPadded(ws1, PyInt.Decimal(n), ws2);
    PyInt.ParseBare(n);
  }

  /** Output without a decimal digit (an error message, nothing at all) counts as 0. */
  lemma CommandCountNoDigit(text: string)
    requires forall i :: 0 <= i < |text| ==> !PyInt.IsDigit(text[i])
    ensures CommandCount(Some(text)) == 0
  {
    var a := PyInt.TrimStart(text);
    var t := PyInt.Strip(text);
    PyInt.TrimStartDrops(text);
    PyInt.TrimEndDrops(a);
    assert forall i :: 0 <= i < |t| ==> t[i] == text[|text| - |a| + i];
    PyInt.ParseNoDigit(t);
  }

  // ---------------------------------------------------------------- gauges

  /** The gauges the collector registers, in registration order. */
  const UsageGauges: seq<string> :=
    ["cpu_usage", "memory_usage", "disk_usage", "terminal_count", "user_count", "load_1m", "cpu_temp"]

  const MachineLabel: string := "machine"

  /** The registrations construction makes. */
  function UsageRegistrations(): seq<Registration> {
    seq(|UsageGauges|, i requires 0 <= i < |UsageGauges| => Registration(UsageGauges[i], [MachineLabel]))
  }

  /** Construction registers seven gauges, no name twice, each labelled by `machine` alone. */
  lemma UsageRegistrationsDistinct()
    ensures |UsageRegistrations()| == 7
    ensures forall i, j :: 0 <= i < j < 7 ==> UsageRegistrations()[i].gauge != UsageRegistrations()[j].gauge
    ensures forall i :: 0 <= i < 7 ==> UsageRegistrations()[i].labelNames == ["machine"]
  {
  }

  /** The series of gauge `gauge` for machine `machine`. */
  function UsageKey(machine: string, gauge: string): SeriesKey {
    SeriesKey(gauge, map[MachineLabel := machine])
  }

  /** Every series `collect_metrics()` sets belongs to the gauge registered at the same
      position, and carries exactly that gauge's label names. */
  lemma SetsRegisteredSeries(machine: string, sample: UsageSample, i: nat)
    requires i < |UsageGauges|
    ensures var a, rs := UsageAttempts(machine, sample), UsageRegistrations();
      |a| == |rs| && a[i].key.gauge == rs[i].gauge
      && a[i].key.labels.Keys == set l | l in rs[i].labelNames
  {
    var rs := UsageRegistrations();
    assert rs[i] == Registration(UsageGauges[i], [MachineLabel]);
    assert (set l | l in [MachineLabel]) == {MachineLabel};
  }

  /** What the foreign calls of one `collect_metrics()` return: psutil's CPU, memory and disk
      percentages and one-minute load average, which may raise; the two pipelines' output, `None`
      when `check_output` raised; and the sensor query's result. */
  datatype UsageSample = UsageSample(
    cpuPercent: Result<real>,
    memoryPercent: Result<real>,
    diskPercent: Result<real>,
    terminalOutput: Option<string>,
    usersOutput: Option<string>,
    loadAverage: Result<real>,
    temperatures: Result<map<string, seq<real>>>)

  /** The seven `set` statements of `collect_metrics()`, in order. */
  function UsageAttempts(machine: string, sample: UsageSample): (a: seq<Attempt>)
    ensures |a| == |UsageGauges|
    ensures forall i :: 0 <= i < |a| ==> a[i].key == UsageKey(machine, UsageGauges[i])
  {
    [ Attempt(UsageKey(machine, "cpu_usage"), sample.cpuPercent),
      Attempt(UsageKey(machine, "memory_usage"), sample.memoryPercent),
      Attempt(UsageKey(machine, "disk_usage"), sample.diskPercent),
      Attempt(UsageKey(machine, "terminal_count"), Ok(CommandCount(sample.terminalOutput) as real)),
      Attempt(UsageKey(machine, "user_count"), Ok(CommandCount(sample.usersOutput) as real)),
      Attempt(UsageKey(machine, "load_1m"), sample.loadAverage),
      Attempt(UsageKey(machine, "cpu_temp"), Ok(CpuTemperature(sample.temperatures))) ]
  }

  /** A call raises only from psutil's four direct figures, with the first of them that raises;
      the counts and the temperature never raise. The number of sets made is the position of
      that figure, or all seven. */
  lemma CollectOutcome(machine: string, sample: UsageSample)
    ensures var p := RunSets(UsageAttempts(machine, sample));
      p.outcome ==
        if sample.cpuPercent.Err? then Raised(sample.cpuPercent.error)
        else if sample.memoryPercent.Err? then Raised(sample.memoryPercent.error)
        else if sample.diskPercent.Err? then Raised(sample.diskPercent.error)
        else if sample.loadAverage.Err? then Raised(sample.loadAverage.error)
        else Returned
    ensures var p := RunSets(UsageAttempts(machine, sample));
      |p.updates| ==
        if sample.cpuPercent.Err? then 0
        else if sample.memoryPercent.Err? then 1
        else if sample.diskPercent.Err? then 2
        else if sample.loadAverage.Err? then 5
        else 7
  {
    var a := UsageAttempts(machine, sample);
    RunSetsAt(a, 0);
    if a[0].value.Ok? {
      RunSetsAt(a, 1);
      if a[1].value.Ok? {
        RunSetsAt(a, 2);
        if a[2].value.Ok? {
          RunSetsAt(a, 3);
          RunSetsAt(a, 4);
          RunSetsAt(a, 5);
          if a[5].value.Ok? {
            RunSetsAt(a, 6);
          }
        }
      }
    }
  }

  /** A series other than this machine's seven keeps its value, or stays absent, whatever the
      call does. */
  lemma CollectTouchesOnlyMachine(values: map<SeriesKey, real>, machine: string, sample: UsageSample, k: SeriesKey)
    requires forall i :: 0 <= i < |UsageGauges| ==> k != UsageKey(machine, UsageGauges[i])
    ensures var us := RunSets(UsageAttempts(machine, sample)).updates;
      (k in Apply(values, us) <==> k in values) && (k in values ==> Apply(values, us)[k] == values[k])
  {
    var a := UsageAttempts(machine, sample);
    var us := RunSets(a).updates;
    ApplyUntouched(values, us, k);
  }

  /** When psutil's four figures are all available, each of this machine's seven gauges holds
      its figure: the counts parsed from the pipelines, the temperature of the preferred sensor. */
  lemma CollectSetsAll(values: map<SeriesKey, real>, machine: string, sample: UsageSample)
    requires sample.cpuPercent.Ok? && sample.memoryPercent.Ok? && sample.diskPercent.Ok? && sample.loadAverage.Ok?
    ensures var v := Apply(values, RunSets(UsageAttempts(machine, sample)).updates);
      UsageKey(machine, "cpu_usage") in v && v[UsageKey(machine, "cpu_usage")] == sample.cpuPercent.value
      && UsageKey(machine, "memory_usage") in v && v[UsageKey(machine, "memory_usage")] == sample.memoryPercent.value
      && UsageKey(machine, "disk_usage") in v && v[UsageKey(machine, "disk_usage")] == sample.diskPercent.value
      && UsageKey(machine, "terminal_count") in v
      && v[UsageKey(machine, "terminal_count")] == CommandCount(sample.terminalOutput) as real
      && UsageKey(machine, "user_count") in v
      && v[UsageKey(machine, "user_count")] == CommandCount(sample.usersOutput) as real
      && UsageKey(machine, "load_1m") in v && v[UsageKey(machine, "load_1m")] == sample.loadAverage.value
      && UsageKey(machine, "cpu_temp") in v && v[UsageKey(machine, "cpu_temp")] == CpuTemperature(sample.temperatures)
  {
    CollectSetsEach(values, machine, sample, 0);
    CollectSetsEach(values, machine, sample, 1);
    CollectSetsEach(values, machine, sample, 2);
    CollectSetsEach(values, machine, sample, 3);
    CollectSetsEach(values, machine, sample, 4);
    CollectSetsEach(values, machine, sample, 5);
    CollectSetsEach(values, machine, sample, 6);
  }

  /** When psutil's four figures are all available, statement `i` is made and its series holds
      its value afterwards. */
  lemma CollectSetsEach(values: map<SeriesKey, real>, machine: string, sample: UsageSample, i: nat)
    requires sample.cpuPercent.Ok? && sample.memoryPercent.Ok? && sample.diskPercent.Ok? && sample.loadAverage.Ok?
    requires i < |UsageGauges|
    ensures var a := UsageAttempts(machine, sample);
      var v := Apply(values, RunSets(a).updates);
      a[i].value.Ok? && a[i].key in v && v[a[i].key] == a[i].value.value
  {
    var a := UsageAttempts(machine, sample);
    var us := RunSets(a).updates;
    CollectOutcome(machine, sample);
    forall j, k | 0 <= j < k < |us| ensures us[j].key != us[k].key {
      assert UsageGauges[j] != UsageGauges[k];
    }
    ApplyDistinct(values, us, i);
  }

  /** Collecting the same figures twice leaves the gauges as collecting them once. */
  lemma CollectIdempotent(values: map<SeriesKey, real>, machine: string, sample: UsageSample)
    ensures var us := RunSets(UsageAttempts(machine, sample)).updates;
      Apply(Apply(values, us), us) == Apply(values, us)
  {
    ApplyIdempotent(values, RunSets(UsageAttempts(machine, sample)).updates);
  }

  class SystemUsageCollector {
    /** The machine label every series of this collector carries. */
    var machineName: string

    /** `SystemUsageCollector(options)`: derives the machine name and registers the seven
        gauges, each with the label `machine`. */
    constructor (machineNameVariable: Option<string>, hostname: string, sink: MetricSink)
      modifies sink
      ensures machineName == MachineName(MachineSource(machineNameVariable, hostname))
      ensures sink.registry == old(sink.registry) + UsageRegistrations()
      ensures sink.values == old(sink.values)
    {
      machineName := MachineName(MachineSource(machineNameVariable, hostname));
      new;
      sink.Register("cpu_usage", [MachineLabel]);
      sink.Register("memory_usage", [MachineLabel]);
      sink.Register("disk_usage", [MachineLabel]);
      sink.Register("terminal_count", [MachineLabel]);
      sink.Register("user_count", [MachineLabel]);
      sink.Register("load_1m", [MachineLabel]);
      sink.Register("cpu_temp", [MachineLabel]);
      assert sink.registry == old(sink.registry) + UsageRegistrations();
    }

    /** `collect_metrics()`: the seven sets in order, each under `machine = machineName`; a
        figure that raises propagates and leaves the later gauges unset. */
    method CollectMetrics(sample: UsageSample, sink: MetricSink) returns (o: Outcome)
      modifies sink
      ensures (o, sink.values) == RunOn(old(sink.values), UsageAttempts(machineName, sample))
      ensures var p := RunSets(UsageAttempts(machineName, sample));
        o == p.outcome && sink.values == Apply(old(sink.values), p.updates)
      ensures sink.registry == old(sink.registry)
    {
      ghost var a := UsageAttempts(machineName, sample);
      RunOnSets(sink.values, a);
      assert a[0..] == a;
      RunOnStep(sink.values, a, 0);
      o := sink.Run(Attempt(UsageKey(machineName, "cpu_usage"), sample.cpuPercent));
      if o.Raised? { return; }
      RunOnStep(sink.values, a, 1);
      o := sink.Run(Attempt(UsageKey(machineName, "memory_usage"), sample.memoryPercent));
      if o.Raised? { return; }
      RunOnStep(sink.values, a, 2);
      o := sink.Run(Attempt(UsageKey(machineName, "disk_usage"), sample.diskPercent));
      if o.Raised? { return; }
      RunOnStep(sink.values, a, 3);
      o := sink.Run(Attempt(UsageKey(machineName, "terminal_count"), Ok(CommandCount(sample.terminalOutput) as real)));
      RunOnStep(sink.values, a, 4);
      o := sink.Run(Attempt(UsageKey(machineName, "user_count"), Ok(CommandCount(sample.usersOutput) as real)));
      RunOnStep(sink.values, a, 5);
      o := sink.Run(Attempt(UsageKey(machineName, "load_1m"), sample.loadAverage));
      if o.Raised? { return; }
      RunOnStep(sink.values, a, 6);
      o := sink.Run(Attempt(UsageKey(machineName, "cpu_temp"), Ok(CpuTemperature(sample.temperatures))));
      assert a[7..] == [];
    }
  }
}
