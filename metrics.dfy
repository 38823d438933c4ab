/** The metric sink the collectors write to: registered gauges and the current value of every
    labelled series, as the Prometheus client's global registry holds them. */
module Metrics {
  import opened Python

  /** One series: a gauge name and its label values (empty for an unlabelled gauge). */
  datatype SeriesKey = SeriesKey(gauge: string, labels: map<string, string>)

  /** The characters a metric name may start with, in the Prometheus client's name syntax. */
  predicate MetricNameStart(c: char) {
    ('a' <= c <= 'z') || ('A' <= c <= 'Z') || c == '_' || c == ':'
  }

  predicate MetricNameChar(c: char) {
    MetricNameStart(c) || ('0' <= c <= '9')
  }

  predicate MetricNameChars(s: string) {
    s == [] || (MetricNameChar(s[0]) && MetricNameChars(s[1..]))
  }

  /** A name `Gauge(name, ...)` accepts; any other raises `ValueError`. */
  predicate ValidMetricName(n: string) {
    |n| > 0 && MetricNameStart(n[0]) && MetricNameChars(n[1..])
  }

  /** The characters after the first are checked one by one. */
  lemma {:induction false} MetricNameCharsAll(s: string)
    ensures MetricNameChars(s) <==> forall i :: 0 <= i < |s| ==> MetricNameChar(s[i])
  {
    if s != [] {
      MetricNameCharsAll(s[1..]);
      assert forall i :: 1 <= i < |s| ==> s[i] == s[1..][i - 1];
    }
  }

  /** One `set(value)` call on a series. */
  datatype Update = Update(key: SeriesKey, value: real)

  /** One `Gauge(name, documentation, labelnames)` construction. */
  datatype Registration = Registration(gauge: string, labelNames: seq<string>)

  /** The series values after the `set` calls `us`, made in order on `values`. */
  function Apply(values: map<SeriesKey, real>, us: seq<Update>): map<SeriesKey, real> {
    if us == [] then values
    else Apply(values, us[..|us| - 1])[us[|us| - 1].key := us[|us| - 1].value]
  }

  /** The value each series was last set to by `us`. */
  function Written(us: seq<Update>): map<SeriesKey, real> {
    Apply(map[], us)
  }

  function KeysOf(us: seq<Update>): set<SeriesKey> {
    set i | 0 <= i < |us| :: us[i].key
  }

  /** `set` calls touch exactly the series they name: each of them holds the value it was last
      set to, every other series keeps its value. */
  lemma {:induction false} ApplyOverrides(values: map<SeriesKey, real>, us: seq<Update>)
    ensures Apply(values, us) == values + Written(us)
    ensures Written(us).Keys == KeysOf(us)
  {
    if us != [] {
      var init := us[..|us| - 1];
      ApplyOverrides(values, init);
      assert KeysOf(us) == KeysOf(init) + {us[|us| - 1].key} by {
        forall k | k in KeysOf(us) ensures k in KeysOf(init) + {us[|us| - 1].key} {
          var i :| 0 <= i < |us| && us[i].key == k;
          if i < |us| - 1 { assert init[i] == us[i]; }
        }
        forall k | k in KeysOf(init) ensures k in KeysOf(us) {
          var i :| 0 <= i < |init| && init[i].key == k;
          assert us[i] == init[i];
        }
      }
    }
  }

  /** A series no update names keeps its value, or stays absent. */
  lemma ApplyUntouched(values: map<SeriesKey, real>, us: seq<Update>, k: SeriesKey)
    requires forall i :: 0 <= i < |us| ==> us[i].key != k
    ensures k in Apply(values, us) <==> k in values
    ensures k in values ==> Apply(values, us)[k] == values[k]
  {
    ApplyOverrides(values, us);
  }

  /** Setting the same values twice leaves the series as setting them once. */
  lemma ApplyIdempotent(values: map<SeriesKey, real>, us: seq<Update>)
    ensures Apply(Apply(values, us), us) == Apply(values, us)
  {
    ApplyOverrides(values, us);
    ApplyOverrides(Apply(values, us), us);
    var w := Written(us);
    assert (values + w) + w == values + w;
  }

  /** When no two updates name the same series, each series holds the value of its update. */
  lemma {:induction false} ApplyDistinct(values: map<SeriesKey, real>, us: seq<Update>, i: nat)
    requires forall a, b :: 0 <= a < b < |us| ==> us[a].key != us[b].key
    requires i < |us|
    ensures us[i].key in Apply(values, us) && Apply(values, us)[us[i].key] == us[i].value
  {
    var init := us[..|us| - 1];
    if i < |us| - 1 {
      assert init[i] == us[i];
      ApplyDistinct(values, init, i);
    }
  }

  /** A value computation as the collectors write it, `gauge.set(expression)`: the series and
      the value of the expression, which may raise. */
  datatype Attempt = Attempt(key: SeriesKey, value: Result<real>)

  /** What a run of `set` statements did: the sets made, and how the run ended. */
  datatype Pass = Pass(updates: seq<Update>, outcome: Outcome)

  /** Running `set` statements in order: each is made while the values compute; the first value
      that raises ends the run, and its exception propagates. */
  function RunSets(attempts: seq<Attempt>): (p: Pass)
    ensures |p.updates| <= |attempts|
    ensures forall i :: 0 <= i < |p.updates| ==>
      attempts[i].value.Ok? && p.updates[i] == Update(attempts[i].key, attempts[i].value.value)
    ensures p.outcome.Returned? <==> |p.updates| == |attempts|
    ensures |p.updates| < |attempts| ==>
      attempts[|p.updates|].value.Err? && p.outcome == Raised(attempts[|p.updates|].value.error)
  {
    if attempts == [] then Pass([], Returned)
    else match attempts[0].value
      case Err(e) => Pass([], Raised(e))
      case Ok(v) =>
        var rest := RunSets(attempts[1..]);
        Pass([Update(attempts[0].key, v)] + rest.updates, rest.outcome)
  }

  /** Where a run of `set` statements stands at statement `i`, when the statements before it
      were all made. */
  lemma RunSetsAt(attempts: seq<Attempt>, i: nat)
    requires i < |attempts| && i <= |RunSets(attempts).updates|
    ensures var p := RunSets(attempts);
      (attempts[i].value.Ok? ==> i < |p.updates| && p.updates[i] == Update(attempts[i].key, attempts[i].value.value))
      && (attempts[i].value.Err? ==> |p.updates| == i && p.outcome == Raised(attempts[i].value.error))
  {
  }

  /** One step of a run of `set` statements, as the values stand after the statements before
      it: a made set extends the sets made, a raising value ends the run with everything made. */
  lemma RunSetsStep(values: map<SeriesKey, real>, attempts: seq<Attempt>, i: nat)
    requires i < |attempts| && i <= |RunSets(attempts).updates|
    ensures var p := RunSets(attempts);
      attempts[i].value.Ok? ==>
        i < |p.updates|
        && Apply(values, p.updates[..i + 1]) == Apply(values, p.updates[..i])[attempts[i].key := attempts[i].value.value]
    ensures var p := RunSets(attempts);
      attempts[i].value.Err? ==>
        p.updates[..i] == p.updates && p.outcome == Raised(attempts[i].value.error)
  {
    var p := RunSets(attempts);
    RunSetsAt(attempts, i);
    if attempts[i].value.Ok? {
      assert p.updates[..i + 1][..i] == p.updates[..i];
    }
  }

  /** Running `set` statements in order on the series `values`: how the run ends and the values
      it leaves. */
  function RunOn(values: map<SeriesKey, real>, attempts: seq<Attempt>): (Outcome, map<SeriesKey, real>)
    decreases attempts
  {
    if attempts == [] then (Returned, values)
    else match attempts[0].value
      case Err(e) => (Raised(e), values)
      case Ok(v) => RunOn(values[attempts[0].key := v], attempts[1..])
  }

  /** The run from statement `k` on: statement `k` raises and ends it, or is made and the run
      goes on from statement `k + 1`. */
  lemma RunOnStep(values: map<SeriesKey, real>, attempts: seq<Attempt>, k: nat)
    requires k < |attempts|
    ensures RunOn(values, attempts[k..]) ==
      if attempts[k].value.Err? then (Raised(attempts[k].value.error), values)
      else RunOn(values[attempts[k].key := attempts[k].value.value], attempts[k + 1..])
  {
    assert attempts[k..][1..] == attempts[k + 1..];
  }

  /** A first `set` call applies under the ones after it. */
  lemma {:induction false} ApplyPrepend(values: map<SeriesKey, real>, u: Update, us: seq<Update>)
    ensures Apply(values, [u] + us) == Apply(values[u.key := u.value], us)
  {
    if us != [] {
      var init := us[..|us| - 1];
      ApplyPrepend(values, u, init);
      assert ([u] + us)[..|us|] == [u] + init;
    } else {
      assert [u] + us == [u];
    }
  }

  /** Running the statements ends as `RunSets` says and leaves the values of the sets it made. */
  lemma {:induction false} RunOnSets(values: map<SeriesKey, real>, attempts: seq<Attempt>)
    ensures RunOn(values, attempts) == (RunSets(attempts).outcome, Apply(values, RunSets(attempts).updates))
    decreases attempts
  {
    if attempts != [] && attempts[0].value.Ok? {
      var u := Update(attempts[0].key, attempts[0].value.value);
      RunOnSets(values[u.key := u.value], attempts[1..]);
      ApplyPrepend(values, u, RunSets(attempts[1..]).updates);
    }
  }

  /** The metric sink: the gauges registered so far, in order, and the value of every series
      that has been set. */
  class MetricSink {
    var registry: seq<Registration>
    var values: map<SeriesKey, real>

    constructor ()
      ensures registry == [] && values == map[]
    {
      registry := [];
      values := map[];
    }

    /** Registers a gauge with its label names. A gauge without labels has its one series,
        at 0, from construction on; a labelled gauge has no series until one is set. */
    method Register(gauge: string, labelNames: seq<string>)
      modifies this
      ensures registry == old(registry) + [Registration(gauge, labelNames)]
      ensures labelNames == [] ==> values == old(values)[SeriesKey(gauge, map[]) := 0.0]
      ensures labelNames != [] ==> values == old(values)
    {
      registry := registry + [Registration(gauge, labelNames)];
      if labelNames == [] {
        values := values[SeriesKey(gauge, map[]) := 0.0];
      }
    }

    /** Sets one series to a value. */
    method Set(u: Update)
      modifies this
      ensures values == old(values)[u.key := u.value]
      ensures registry == old(registry)
    {
      values := values[u.key := u.value];
    }

    /** Runs one `gauge.set(expression)` statement: the set is made when the expression yields a
        value; an expression that raises leaves every series as it was. */
    method Run(a: Attempt) returns (o: Outcome)
      modifies this
      ensures a.value.Ok? ==> o == Returned && values == old(values)[a.key := a.value.value]
      ensures a.value.Err? ==> o == Raised(a.value.error) && values == old(values)
      ensures registry == old(registry)
    {
      if a.value.Err? {
        return Raised(a.value.error);
      }
      Set(Update(a.key, a.value.value));
      return Returned;
    }
  }
}
