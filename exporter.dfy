/** `MetricExporter`: resolves the configured collector names against the table of supported
    collectors, starts the metrics server and runs every resolved collector once per tick,
    logging and skipping a collector that raises. */
module Exporter {
  import opened Python
  import PyInt

  /** A collector instance of the supported table, known only by its identity. What its
      `collect_metrics()` does is an input of the tick: see `Tick`. */
  type CollectorId = nat

  /** `server_port` as the configuration gives it: a YAML integer, float, text or null. */
  datatype Port = PortNumber(n: int) | PortFloat(x: real) | PortText(text: string) | PortNone

  /** The parts of the parsed configuration the exporter reads. */
  datatype ExporterConfig = ExporterConfig(serverIp: string, serverPort: Port, collectors: seq<string>)

  /** The log lines the exporter writes. */
  datatype LogEntry =
    | Instantiated(name: string)
    | NotRecognised(name: string)
    | MetricsExposed(ip: string, port: Port)
    | CollectFailed(collector: CollectorId, cause: Exception)

  /** What one configured name contributes to the instantiated list. */
  function ResolveOne(name: string, table: map<string, CollectorId>): seq<CollectorId> {
    if name in table then [table[name]] else []
  }

  /** The instantiated collectors for the configured names, in configuration order. */
  function Resolve(names: seq<string>, table: map<string, CollectorId>): seq<CollectorId> {
    if names == [] then []
    else Resolve(names[..|names| - 1], table) + ResolveOne(names[|names| - 1], table)
  }

  /** The log line resolution writes for one configured name. */
  function ResolutionEntry(name: string, table: map<string, CollectorId>): LogEntry {
    if name in table then Instantiated(name) else NotRecognised(name)
  }

  /** The log resolution writes, one line per configured name. */
  function ResolutionLog(names: seq<string>, table: map<string, CollectorId>): seq<LogEntry> {
    if names == [] then []
    else ResolutionLog(names[..|names| - 1], table) + [ResolutionEntry(names[|names| - 1], table)]
  }

  /** Resolution goes name by name: resolving a concatenation concatenates the results. */
  lemma {:induction false} ResolveAppend(a: seq<string>, b: seq<string>, table: map<string, CollectorId>)
    ensures Resolve(a + b, table) == Resolve(a, table) + Resolve(b, table)
    ensures ResolutionLog(a + b, table) == ResolutionLog(a, table) + ResolutionLog(b, table)
  {
    if b != [] {
      var b' := b[..|b| - 1];
      assert (a + b)[..|a + b| - 1] == a + b';
      ResolveAppend(a, b', table);
    } else {
      assert a + b == a;
    }
  }

  /** An unrecognised name adds nothing but one "not recognised" line, and the names after it
      are still resolved. */
  lemma ResolveSkipsUnknown(a: seq<string>, name: string, b: seq<string>, table: map<string, CollectorId>)
    requires name !in table
    ensures Resolve(a + [name] + b, table) == Resolve(a, table) + Resolve(b, table)
    ensures ResolutionLog(a + [name] + b, table)
         == ResolutionLog(a, table) + [NotRecognised(name)] + ResolutionLog(b, table)
  {
    ResolveAppend(a + [name], b, table);
    ResolveAppend(a, [name], table);
    assert [name][..0] == [];
    assert Resolve([name], table) == [];
    assert Resolve(a + [name], table) == Resolve(a, table);
    assert ResolutionLog([name], table) == [NotRecognised(name)];
  }

  /** A name listed twice puts the same table instance in the list twice. */
  lemma ResolveDuplicate(a: seq<string>, name: string, b: seq<string>, c: seq<string>, table: map<string, CollectorId>)
    requires name in table
    ensures Resolve(a + [name] + b + [name] + c, table)
         == Resolve(a, table) + [table[name]] + Resolve(b, table) + [table[name]] + Resolve(c, table)
  {
    assert [name][..0] == [];
    ResolveAppend(a + [name] + b + [name], c, table);
    ResolveAppend(a + [name] + b, [name], table);
    ResolveAppend(a + [name], b, table);
    ResolveAppend(a, [name], table);
  }

  /** The instantiated list is never longer than the configured list, and it is exactly as long
      precisely when every configured name is recognised; it is then the table's instances of
      the names, position by position. */
  lemma {:induction false} ResolveLength(names: seq<string>, table: map<string, CollectorId>)
    ensures |Resolve(names, table)| <= |names|
    ensures |Resolve(names, table)| == |names| <==> forall i :: 0 <= i < |names| ==> names[i] in table
    ensures (forall i :: 0 <= i < |names| ==> names[i] in table) ==>
      forall i :: 0 <= i < |names| ==> Resolve(names, table)[i] == table[names[i]]
  {
    if names != [] {
      var init := names[..|names| - 1];
      ResolveLength(init, table);
      assert forall i :: 0 <= i < |init| ==> init[i] == names[i];
      if names[|names| - 1] !in table {
        assert !(forall i :: 0 <= i < |names| ==> names[i] in table);
      }
    }
  }

  /** A collector is instantiated exactly when some configured name maps to it. */
  lemma {:induction false} ResolveMembers(names: seq<string>, table: map<string, CollectorId>, c: CollectorId)
    ensures c in Resolve(names, table) <==> exists i :: 0 <= i < |names| && names[i] in table && table[names[i]] == c
  {
    if names != [] {
      var init := names[..|names| - 1];
      ResolveMembers(init, table, c);
      if c in Resolve(names, table) && c !in Resolve(init, table) {
        assert names[|names| - 1] in table && table[names[|names| - 1]] == c;
      }
      if exists i :: 0 <= i < |names| && names[i] in table && table[names[i]] == c {
        var i :| 0 <= i < |names| && names[i] in table && table[names[i]] == c;
        if i < |init| {
          assert init[i] == names[i];
        }
      }
    }
  }

  /** Resolution logs one line per configured name, in order: "instantiated" for a recognised
      name, "not recognised" for any other. */
  lemma {:induction false} ResolutionLogAt(names: seq<string>, table: map<string, CollectorId>, i: nat)
    requires i < |names|
    ensures |ResolutionLog(names, table)| == |names|
    ensures ResolutionLog(names, table)[i]
         == if names[i] in table then Instantiated(names[i]) else NotRecognised(names[i])
  {
    var init := names[..|names| - 1];
    if i < |init| {
      ResolutionLogAt(init, table, i);
    } else if init != [] {
      ResolutionLogAt(init, table, 0);
    }
  }

  /** `int(x)` for a float: the integer part, rounding toward zero. */
  function Truncate(x: real): int {
    if x >= 0.0 then x.Floor else -((-x).Floor)
  }

  /** Truncation keeps the sign and drops less than 1 in absolute value. */
  lemma TruncateBounds(x: real)
    ensures x >= 0.0 ==> 0 <= Truncate(x) && Truncate(x) as real <= x < Truncate(x) as real + 1.0
    ensures x < 0.0 ==> Truncate(x) <= 0 && Truncate(x) as real - 1.0 < x <= Truncate(x) as real
  {
  }

  /** `int(self.host_port)`: an integer is itself, a float is truncated, a text is parsed or
      raises `ValueError`, and `None` raises `TypeError`. */
  function PortValue(p: Port): (r: Result<int>)
    ensures r.Err? ==> (p.PortNone? && r.error == TypeError) || (p.PortText? && r.error == ValueError)
  {
    match p
    case PortNumber(n) => Ok(n)
    case PortFloat(x) => Ok(Truncate(x))
    case PortText(t) => if PyInt.ParseInt(t).Some? then Ok(PyInt.ParseInt(t).value) else Err(ValueError)
    case PortNone => Err(TypeError)
  }

  /** A port written as a number with any surrounding whitespace is that number; a null port
      raises `TypeError`. */
  lemma PortValueCases(ws1: string, n: int, ws2: string)
    requires PyInt.AllSpace(ws1) && PyInt.AllSpace(ws2)
    ensures PortValue(PortText(ws1 + PyInt.Decimal(n) + ws2)) == Ok(n)
    ensures PortValue(PortNumber(n)) == Ok(n) && PortValue(PortFloat(n as real)) == Ok(n)
    ensures PortValue(PortNone) == Err(TypeError)
  {
    PyInt.ParseDecimal(ws1, n, ws2);
  }

  /** One start of the metrics server: its address and port, and how many `collect_metrics()`
      calls had been made before it. */
  datatype ServerStart = ServerStart(ip: string, port: int, callsBefore: nat)

  /** The log line of one call in a tick. */
  function TickEntry(c: CollectorId, r: Outcome): seq<LogEntry> {
    if r.Raised? then [CollectFailed(c, r.cause)] else []
  }

  /** The lines that positions `lo` to `hi` of the collector list log in tick `tick`, where
      `outcome(tick, i)` is how the call of position `i` ends. */
  function TickLogRange(cs: seq<CollectorId>, tick: nat, outcome: (nat, nat) -> Outcome, lo: nat, hi: nat): seq<LogEntry>
    requires lo <= hi <= |cs|
    decreases hi - lo
  {
    if lo == hi then []
    else TickLogRange(cs, tick, outcome, lo, hi - 1) + TickEntry(cs[hi - 1], outcome(tick, hi - 1))
  }

  /** The lines one whole tick logs. */
  function TickLog(cs: seq<CollectorId>, tick: nat, outcome: (nat, nat) -> Outcome): seq<LogEntry> {
    TickLogRange(cs, tick, outcome, 0, |cs|)
  }

  lemma {:induction false} TickLogSplit(cs: seq<CollectorId>, tick: nat, outcome: (nat, nat) -> Outcome, lo: nat, m: nat, hi: nat)
    requires lo <= m <= hi <= |cs|
    ensures TickLogRange(cs, tick, outcome, lo, hi)
         == TickLogRange(cs, tick, outcome, lo, m) + TickLogRange(cs, tick, outcome, m, hi)
    decreases hi - m
  {
    if m < hi {
      TickLogSplit(cs, tick, outcome, lo, m, hi - 1);
    }
  }

  /** A collector that raises is logged once, with its identity and the exception, between the
      lines of the collectors before it and those after it, which still run. */
  lemma FailureIsolated(cs: seq<CollectorId>, tick: nat, outcome: (nat, nat) -> Outcome, k: nat)
    requires k < |cs| && outcome(tick, k).Raised?
    ensures TickLog(cs, tick, outcome)
         == TickLogRange(cs, tick, outcome, 0, k)
          + [CollectFailed(cs[k], outcome(tick, k).cause)]
          + TickLogRange(cs, tick, outcome, k + 1, |cs|)
  {
    TickLogSplit(cs, tick, outcome, 0, k, |cs|);
    TickLogSplit(cs, tick, outcome, k, k + 1, |cs|);
  }

  /** A tick logs nothing precisely when every collector returns. */
  lemma {:induction false} TickLogEmpty(cs: seq<CollectorId>, tick: nat, outcome: (nat, nat) -> Outcome, hi: nat)
    requires hi <= |cs|
    ensures TickLogRange(cs, tick, outcome, 0, hi) == [] <==> forall i :: 0 <= i < hi ==> outcome(tick, i).Returned?
  {
    if hi > 0 {
      TickLogEmpty(cs, tick, outcome, hi - 1);
    }
  }

  /** Every line a tick logs names a collector of the list that raised. */
  lemma {:induction false} TickLogEntries(cs: seq<CollectorId>, tick: nat, outcome: (nat, nat) -> Outcome, hi: nat)
    requires hi <= |cs|
    ensures |TickLogRange(cs, tick, outcome, 0, hi)| <= hi
    ensures forall e :: e in TickLogRange(cs, tick, outcome, 0, hi) ==>
      e.CollectFailed? && exists i :: 0 <= i < hi && cs[i] == e.collector && outcome(tick, i) == Raised(e.cause)
  {
    if hi > 0 {
      TickLogEntries(cs, tick, outcome, hi - 1);
    }
  }

  /** The calls `n` ticks make: the whole list, once per tick. */
  function Repeat(cs: seq<CollectorId>, n: nat): seq<CollectorId> {
    if n == 0 then [] else Repeat(cs, n - 1) + cs
  }

  /** In tick `t`, position `i` of the list is the `t * |cs| + i`-th call. */
  lemma {:induction false} RepeatAt(cs: seq<CollectorId>, n: nat, t: nat, i: nat)
    requires t < n && i < |cs|
    ensures |Repeat(cs, n)| == n * |cs|
    ensures t * |cs| + i < |Repeat(cs, n)| && Repeat(cs, n)[t * |cs| + i] == cs[i]
  {
    if n > 1 {
      RepeatAt(cs, n - 1, if t < n - 1 then t else 0, i);
      assert n * |cs| == (n - 1) * |cs| + |cs|;
      if t == n - 1 {
        assert t * |cs| == (n - 1) * |cs|;
      }
    }
  }

  /** The lines `n` ticks log, starting at tick `first`. */
  function RunLog(cs: seq<CollectorId>, first: nat, n: nat, outcome: (nat, nat) -> Outcome): seq<LogEntry> {
    if n == 0 then [] else RunLog(cs, first, n - 1, outcome) + TickLog(cs, first + n - 1, outcome)
  }

  /** Every line one tick logs is a failed call of a listed collector. */
  lemma TickLogFailures(cs: seq<CollectorId>, tick: nat, outcome: (nat, nat) -> Outcome)
    ensures forall e :: e in TickLog(cs, tick, outcome) ==> e.CollectFailed? && e.collector in cs
  {
    TickLogEntries(cs, tick, outcome, |cs|);
    forall e | e in TickLog(cs, tick, outcome) ensures e.CollectFailed? && e.collector in cs {
      var i :| 0 <= i < |cs| && cs[i] == e.collector && outcome(tick, i) == Raised(e.cause);
    }
  }

  /** Over any number of ticks, every logged line is a failed call of a listed collector. */
  lemma {:induction false} RunLogFailures(cs: seq<CollectorId>, first: nat, n: nat, outcome: (nat, nat) -> Outcome)
    ensures forall e :: e in RunLog(cs, first, n, outcome) ==> e.CollectFailed? && e.collector in cs
  {
    if n > 0 {
      RunLogFailures(cs, first, n - 1, outcome);
      TickLogFailures(cs, first + n - 1, outcome);
    }
  }

  /** Ticks in which every call returns log nothing. */
  lemma {:induction false} RunLogQuiet(cs: seq<CollectorId>, first: nat, n: nat, outcome: (nat, nat) -> Outcome)
    requires forall t, i :: first <= t < first + n && 0 <= i < |cs| ==> outcome(t, i).Returned?
    ensures RunLog(cs, first, n, outcome) == []
  {
    if n > 0 {
      RunLogQuiet(cs, first, n - 1, outcome);
      TickLogEmpty(cs, first + n - 1, outcome, |cs|);
    }
  }

  class MetricExporter {
    var hostIp: string
    var hostPort: Port
    var collectorList: seq<string>
    var supported: map<string, CollectorId>
    var instantiated: seq<CollectorId>
    /** Every line logged so far. */
    var log: seq<LogEntry>
    /** Every `collect_metrics()` call made so far, in order. */
    var calls: seq<CollectorId>
    /** Every address and port the metrics server was started on. */
    var servers: seq<ServerStart>
    /** The ticks completed so far. */
    var ticksRun: nat

    /** Reads the configuration and resolves the configured collector names against the table
        of supported collectors. */
    constructor (config: ExporterConfig, table: map<string, CollectorId>)
      ensures hostIp == config.serverIp && hostPort == config.serverPort
      ensures collectorList == config.collectors && supported == table
      ensures instantiated == Resolve(config.collectors, table)
      ensures log == ResolutionLog(config.collectors, table)
      ensures calls == [] && servers == [] && ticksRun == 0
    {
      hostIp := config.serverIp;
      hostPort := config.serverPort;
      collectorList := config.collectors;
      instantiated := [];
      supported := table;
      log := [];
      calls := [];
      servers := [];
      ticksRun := 0;
      new;
      var i := 0;
      while i < |collectorList|
        modifies this`instantiated, this`log
        invariant 0 <= i <= |collectorList|
        invariant instantiated == Resolve(collectorList[..i], supported)
        invariant log == ResolutionLog(collectorList[..i], supported)
      {
        var collector := collectorList[i];
        assert collectorList[..i + 1][..i] == collectorList[..i];
        if collector in supported {
          instantiated := instantiated + [supported[collector]];
          log := log + [Instantiated(collector)];
        } else {
          log := log + [NotRecognised(collector)];
        }
        i := i + 1;
      }
      assert collectorList[..i] == collectorList;
    }

    /** One tick: calls every instantiated collector once, in list order; a call that raises
        is logged with the collector's identity and the next collector still runs.
        `outcome(tick, i)` is how the call of position `i` in tick `tick` ends. */
    method Tick(outcome: (nat, nat) -> Outcome)
      modifies this`calls, this`log, this`ticksRun
      ensures calls == old(calls) + instantiated
      ensures log == old(log) + TickLog(instantiated, old(ticksRun), outcome)
      ensures ticksRun == old(ticksRun) + 1
    {
      var i := 0;
      while i < |instantiated|
        modifies this`calls, this`log
        invariant 0 <= i <= |instantiated|
        invariant calls == old(calls) + instantiated[..i]
        invariant log == old(log) + TickLogRange(instantiated, ticksRun, outcome, 0, i)
      {
        var collector := instantiated[i];
        assert instantiated[..i + 1] == instantiated[..i] + [collector];
        calls := calls + [collector];
        var r := outcome(ticksRun, i);
        if r.Raised? {
          log := log + [CollectFailed(collector, r.cause)];
        }
        i := i + 1;
      }
      assert instantiated[..i] == instantiated;
      ticksRun := ticksRun + 1;
    }

    /** The collection loop of `start()`, here bounded to `rounds` ticks. */
    method Serve(rounds: nat, outcome: (nat, nat) -> Outcome)
      modifies this`calls, this`log, this`ticksRun
      ensures calls == old(calls) + Repeat(instantiated, rounds)
      ensures log == old(log) + RunLog(instantiated, old(ticksRun), rounds, outcome)
      ensures ticksRun == old(ticksRun) + rounds
    {
      ghost var calls0, log0, first := calls, log, ticksRun;
      var n := 0;
      while n < rounds
        invariant 0 <= n <= rounds
        invariant ticksRun == first + n
        invariant calls == calls0 + Repeat(instantiated, n)
        invariant log == log0 + RunLog(instantiated, first, n, outcome)
      {
        assert Repeat(instantiated, n + 1) == Repeat(instantiated, n) + instantiated;
        assert RunLog(instantiated, first, n + 1, outcome)
            == RunLog(instantiated, first, n, outcome) + TickLog(instantiated, first + n, outcome);
        Tick(outcome);
        n := n + 1;
      }
    }

    /** Starts the metrics server once, on the configured address and port, then runs `rounds`
        ticks. A port that `int()` rejects raises before anything starts. */
    method Start(rounds: nat, outcome: (nat, nat) -> Outcome) returns (r: Outcome)
      modifies this`calls, this`log, this`ticksRun, this`servers
      ensures PortValue(hostPort).Err? ==>
        r == Raised(PortValue(hostPort).error) && servers == old(servers) && log == old(log)
        && calls == old(calls) && ticksRun == old(ticksRun)
      ensures PortValue(hostPort).Ok? ==>
        r == Returned
        && servers == old(servers) + [ServerStart(hostIp, PortValue(hostPort).value, |old(calls)|)]
        && log == old(log) + [MetricsExposed(hostIp, hostPort)] + RunLog(instantiated, old(ticksRun), rounds, outcome)
        && calls == old(calls) + Repeat(instantiated, rounds)
        && ticksRun == old(ticksRun) + rounds
    {
      var port := PortValue(hostPort);
      if port.Err? {
        return Raised(port.error);
      }
      servers := servers + [ServerStart(hostIp, port.value, |calls|)];
      log := log + [MetricsExposed(hostIp, hostPort)];
      Serve(rounds, outcome);
      return Returned;
    }
  }

  /** `MetricExporter(config_path)`: resolve the collectors, then start the server and the
      collection loop, here bounded to `rounds` ticks. */
  method Run(config: ExporterConfig, table: map<string, CollectorId>, rounds: nat, outcome: (nat, nat) -> Outcome)
    returns (e: MetricExporter, r: Outcome)
    ensures fresh(e)
    ensures e.instantiated == Resolve(config.collectors, table)
    ensures PortValue(config.serverPort).Err? ==>
      r == Raised(PortValue(config.serverPort).error) && e.servers == [] && e.calls == []
      && e.log == ResolutionLog(config.collectors, table)
    ensures PortValue(config.serverPort).Ok? ==>
      r == Returned
      && e.servers == [ServerStart(config.serverIp, PortValue(config.serverPort).value, 0)]
      && e.calls == Repeat(e.instantiated, rounds)
      && e.log == ResolutionLog(config.collectors, table)
                + [MetricsExposed(config.serverIp, config.serverPort)]
                + RunLog(e.instantiated, 0, rounds, outcome)
  {
    e := new MetricExporter(config, table);
    r := e.Start(rounds, outcome);
  }
}
