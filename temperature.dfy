/** DS18B20 one-wire temperature sensors: pairing the discovered device directories with the
    configured names, and reading each device's temperature file into its gauge. */
module Temperature {
  import opened Python
  import opened Metrics
  import PyInt

  /** A `DS18B20Reader`: the configured name, the device directory, the temperature file in it
      and the name of the gauge it sets. */
  datatype Reader = Reader(name: string, addr: string, tempAddr: string, gaugeName: string)

  /** `DS18B20Reader(address, name)`, where `openable` holds the files `open()` can open.
      Opening the temperature file comes first and raises `OSError` when it fails; the gauge
      name `"temp_" + name` then raises `TypeError` when the configured name is not a string,
      and `Gauge` raises `ValueError` when that name is not a metric name. */
  function NewReader(address: string, name: ConfigValue, openable: set<string>): Result<Reader> {
    if address + "/temperature" !in openable then Err(OSError)
    else match name
      case CStr(s) =>
        if ValidMetricName("temp_" + s) then Ok(Reader(s, address, address + "/temperature", "temp_" + s))
        else Err(ValueError)
      case _ => Err(TypeError)
  }

  /** `"temp_" + name` is a metric name exactly when every character of the name may appear in
      one: letters, digits, `_` and `:`. */
  lemma TempNameValid(name: string)
    ensures ValidMetricName("temp_" + name) <==> forall i :: 0 <= i < |name| ==> MetricNameChar(name[i])
  {
    var tail := ("temp_" + name)[1..];
    MetricNameCharsAll(tail);
    assert forall i :: 0 <= i < |name| ==> tail[i + 4] == name[i];
    assert forall i :: 0 <= i < 4 ==> MetricNameChar(tail[i]);
    if forall i :: 0 <= i < |name| ==> MetricNameChar(name[i]) {
      forall i | 0 <= i < |tail| ensures MetricNameChar(tail[i]) {
        if i >= 4 {
          assert tail[i] == name[i - 4];
        }
      }
    }
  }

  /** Two readers share a temperature file exactly when they share a device directory, and a
      gauge exactly when they share a name; each reader's directory and name are the prefix
      and the suffix of its file and gauge names. */
  lemma ReaderNaming(a1: string, n1: string, a2: string, n2: string, openable: set<string>)
    requires a1 + "/temperature" in openable && a2 + "/temperature" in openable
    requires ValidMetricName("temp_" + n1) && ValidMetricName("temp_" + n2)
    ensures NewReader(a1, CStr(n1), openable).Ok? && NewReader(a2, CStr(n2), openable).Ok?
    ensures var r1, r2 := NewReader(a1, CStr(n1), openable).value, NewReader(a2, CStr(n2), openable).value;
      r1.tempAddr[..|a1|] == a1 && r1.tempAddr[|a1|..] == "/temperature"
      && r1.gaugeName[..5] == "temp_" && r1.gaugeName[5..] == n1
      && (r1.tempAddr == r2.tempAddr <==> a1 == a2)
      && (r1.gaugeName == r2.gaugeName <==> n1 == n2)
  {
    var r1, r2 := NewReader(a1, CStr(n1), openable).value, NewReader(a2, CStr(n2), openable).value;
    if r1.tempAddr == r2.tempAddr {
      assert |a1| == |a2|;
      assert a1 == r1.tempAddr[..|a1|] == r2.tempAddr[..|a2|] == a2;
    }
    if r1.gaugeName == r2.gaugeName {
      assert n1 == r1.gaugeName[5..] == r2.gaugeName[5..] == n2;
    }
  }

  /** `options["names"]`: a mapping without the key raises `KeyError`; anything that is not a
      mapping cannot be subscripted by a string and raises `TypeError`. */
  function GetNames(options: ConfigValue): Result<ConfigValue> {
    match options
    case CMap(m) => if "names" in m then Ok(m["names"]) else Err(KeyError)
    case _ => Err(TypeError)
  }

  /** `names[i]`: a list or a string past its end raises `IndexError` (a string yields its
      `i`-th character); a mapping has string keys only, so the integer key raises `KeyError`;
      `None` and numbers are not subscriptable and raise `TypeError`. */
  function NameAt(names: ConfigValue, i: nat): Result<ConfigValue> {
    match names
    case CList(items) => if i < |items| then Ok(items[i]) else Err(IndexError)
    case CStr(s) => if i < |s| then Ok(CStr([s[i]])) else Err(IndexError)
    case CMap(_) => Err(KeyError)
    case _ => Err(TypeError)
  }

  /** What the constructor's loop leaves: the readers appended, and the exception that ended
      it early, if any. */
  datatype Construction = Construction(readers: seq<Reader>, error: Option<Exception>)

  /** The loop over the first `k` device paths: path `i` is paired with `names[i]` while that
      works; the first exception stops it. */
  function Pairing(paths: seq<string>, names: ConfigValue, openable: set<string>, k: nat): Construction
    requires k <= |paths|
  {
    if k == 0 then Construction([], None)
    else
      var prev := Pairing(paths, names, openable, k - 1);
      if prev.error.Some? then prev
      else match NameAt(names, k - 1)
        case Err(e) => Construction(prev.readers, Some(e))
        case Ok(n) =>
          match NewReader(paths[k - 1], n, openable)
          case Err(e) => Construction(prev.readers, Some(e))
          case Ok(r) => Construction(prev.readers + [r], None)
  }

  /** The whole `try` block of the constructor. */
  function Construct(paths: seq<string>, options: ConfigValue, openable: set<string>): Construction {
    match GetNames(options)
    case Err(e) => Construction([], Some(e))
    case Ok(names) => Pairing(paths, names, openable, |paths|)
  }

  /** The exceptions the constructor catches and prints; any other propagates to its caller. */
  predicate Caught(e: Exception) {
    e == TypeError || e == IndexError
  }

  /** The loop appends reader `i` for the longest run of paths whose names work, each reader
      pairing path `i` with `names[i]`; it ends early exactly when some step raised, and then
      with the exception of the first step that did. */
  lemma {:induction false} PairingReaders(paths: seq<string>, names: ConfigValue, openable: set<string>, k: nat)
    requires k <= |paths|
    ensures var c := Pairing(paths, names, openable, k);
      |c.readers| <= k
      && (forall i :: 0 <= i < |c.readers| ==>
            NameAt(names, i).Ok? && NewReader(paths[i], NameAt(names, i).value, openable) == Ok(c.readers[i]))
      && (c.error.None? <==> |c.readers| == k)
      && (c.error.Some? ==>
            var j := |c.readers|;
            (NameAt(names, j).Err? && c.error == Some(NameAt(names, j).error))
            || (NameAt(names, j).Ok? && NewReader(paths[j], NameAt(names, j).value, openable).Err?
                && c.error == Some(NewReader(paths[j], NameAt(names, j).value, openable).error)))
  {
    if k > 0 {
      PairingReaders(paths, names, openable, k - 1);
      var prev := Pairing(paths, names, openable, k - 1);
      assert forall i :: 0 <= i < |prev.readers| ==> (prev.readers + [Reader("", "", "", "")])[i] == prev.readers[i];
    }
  }

  /** One step's reader: `names[i]`, then `DS18B20Reader(path, name)`; the first that raises
      gives the step's exception. */
  function NextReader(path: string, names: ConfigValue, i: nat, openable: set<string>): Result<Reader> {
    match NameAt(names, i)
    case Err(e) => Err(e)
    case Ok(n) => NewReader(path, n, openable)
  }

  /** One step of the loop: a step that raises ends it, keeping the readers made so far; otherwise
      the new reader is appended. */
  lemma PairingNext(paths: seq<string>, names: ConfigValue, openable: set<string>, i: nat, made: seq<Reader>)
    requires i < |paths| && Pairing(paths, names, openable, i) == Construction(made, None)
    ensures var r := NextReader(paths[i], names, i, openable);
      r.Err? ==>
        Pairing(paths, names, openable, i + 1) == Construction(made, Some(r.error))
        && Pairing(paths, names, openable, |paths|) == Construction(made, Some(r.error))
    ensures var r := NextReader(paths[i], names, i, openable);
      r.Ok? ==> Pairing(paths, names, openable, i + 1) == Construction(made + [r.value], None)
  {
    if NextReader(paths[i], names, i, openable).Err? {
      PairingStops(paths, names, openable, i + 1, |paths|);
    }
  }

  /** Once a step has raised, later paths change nothing. */
  lemma {:induction false} PairingStops(paths: seq<string>, names: ConfigValue, openable: set<string>, k: nat, m: nat)
    requires k <= m <= |paths|
    requires Pairing(paths, names, openable, k).error.Some?
    ensures Pairing(paths, names, openable, m) == Pairing(paths, names, openable, k)
    decreases m - k
  {
    if k < m {
      PairingStops(paths, names, openable, k, m - 1);
    }
  }

  /** The reader a path and a configured string name make. */
  function ReaderFor(path: string, name: string): Reader {
    Reader(name, path, path + "/temperature", "temp_" + name)
  }

  /** With a list whose names for the discovered devices are strings that make metric names, and
      the temperature files of the devices that have a name openable, the loop makes `min(len(paths), len(names))` readers, reader `i` pairing path `i` with
      name `i`: extra names are ignored, and too few names end the loop with `IndexError` after
      exactly `len(names)` readers. */
  lemma PairingWithNameList(paths: seq<string>, items: seq<ConfigValue>, openable: set<string>)
    requires forall i :: 0 <= i < |items| && i < |paths| ==> items[i].CStr? && ValidMetricName("temp_" + items[i].s)
    requires forall i :: 0 <= i < |paths| && i < |items| ==> paths[i] + "/temperature" in openable
    ensures var c := Pairing(paths, CList(items), openable, |paths|);
      |c.readers| == (if |items| < |paths| then |items| else |paths|)
      && (forall i :: 0 <= i < |c.readers| ==> c.readers[i] == ReaderFor(paths[i], items[i].s))
      && c.error == (if |items| < |paths| then Some(IndexError) else None)
  {
    var names := CList(items);
    PairingReaders(paths, names, openable, |paths|);
    var c := Pairing(paths, names, openable, |paths|);
    var j := |c.readers|;
    assert NameAt(names, |items|).Err?;
    assert j <= |items|;
    assert forall i :: 0 <= i < |items| && i < |paths| ==> NewReader(paths[i], items[i], openable).Ok?;
    assert forall i :: 0 <= i < j ==> NewReader(paths[i], items[i], openable) == Ok(c.readers[i]);
  }

  /** A temperature file that cannot be opened ends the loop with `OSError`, which the
      constructor does not catch; the readers before it are kept. */
  lemma PairingUnopenable(paths: seq<string>, items: seq<ConfigValue>, openable: set<string>, k: nat)
    requires k < |paths| && k < |items|
    requires forall i :: 0 <= i < k ==> items[i].CStr? && ValidMetricName("temp_" + items[i].s)
    requires paths[k] + "/temperature" !in openable
    requires forall i :: 0 <= i < k ==> paths[i] + "/temperature" in openable
    ensures var c := Pairing(paths, CList(items), openable, |paths|);
      |c.readers| == k && c.error == Some(OSError)
  {
    var names := CList(items);
    PairingReaders(paths, names, openable, |paths|);
    var c := Pairing(paths, names, openable, |paths|);
    assert forall i :: 0 <= i < k ==> NewReader(paths[i], items[i], openable).Ok?;
    assert NewReader(paths[k], items[k], openable) == Err(OSError);
  }

  /** A configured name that does not make a metric name (`rack-1`, say) ends the loop with
      `ValueError`, which the constructor does not catch; the readers before it are kept. */
  lemma PairingInvalidName(paths: seq<string>, items: seq<ConfigValue>, openable: set<string>, k: nat)
    requires k < |paths| && k < |items|
    requires forall i :: 0 <= i <= k ==> paths[i] + "/temperature" in openable
    requires forall i :: 0 <= i <= k ==> items[i].CStr?
    requires !ValidMetricName("temp_" + items[k].s)
    requires forall i :: 0 <= i < k ==> ValidMetricName("temp_" + items[i].s)
    ensures var c := Pairing(paths, CList(items), openable, |paths|);
      |c.readers| == k && c.error == Some(ValueError)
  {
    var names := CList(items);
    PairingReaders(paths, names, openable, |paths|);
    assert forall i :: 0 <= i < k ==> NewReader(paths[i], items[i], openable).Ok?;
    assert NewReader(paths[k], items[k], openable) == Err(ValueError);
  }

  /** A configuration without a "names" entry in a mapping raises `KeyError`, which the
      constructor does not catch; options that cannot be subscripted by a string (`None`, a
      list, a string, a number) raise `TypeError`, which it catches, with no reader made. */
  lemma OptionsWithoutNames(paths: seq<string>, options: ConfigValue, openable: set<string>)
    ensures options.CMap? && "names" !in options.entries ==> Construct(paths, options, openable) == Construction([], Some(KeyError))
    ensures !options.CMap? ==> Construct(paths, options, openable) == Construction([], Some(TypeError))
  {
  }

  /** The constructor raises `KeyError` exactly when the options mapping has no "names" entry,
      or its "names" entry is itself a mapping and some device was found. */
  lemma {:induction false} ConstructRaisesKeyError(paths: seq<string>, options: ConfigValue, openable: set<string>)
    ensures Construct(paths, options, openable).error == Some(KeyError) <==>
      options.CMap? && ("names" !in options.entries || (options.entries["names"].CMap? && |paths| > 0))
  {
    if options.CMap? && "names" in options.entries {
      var names := options.entries["names"];
      PairingReaders(paths, names, openable, |paths|);
      var c := Pairing(paths, names, openable, |paths|);
      if names.CMap? && |paths| > 0 {
        assert NameAt(names, 0) == Err(KeyError);
        assert |c.readers| == 0;
      }
      if c.error == Some(KeyError) {
        var j := |c.readers|;
        assert NameAt(names, j).Err?;
      }
    }
  }

  /** The registrations the constructor's readers make: one unlabelled gauge each. */
  function Registrations(readers: seq<Reader>): (rs: seq<Registration>)
    ensures |rs| == |readers|
  {
    if readers == [] then [] else
      Registrations(readers[..|readers| - 1]) + [Registration(readers[|readers| - 1].gaugeName, [])]
  }

  /** Registration `i` is reader `i`'s gauge, without labels. */
  lemma {:induction false} RegistrationsAt(readers: seq<Reader>, i: nat)
    requires i < |readers|
    ensures Registrations(readers)[i] == Registration(readers[i].gaugeName, [])
  {
    var init := readers[..|readers| - 1];
    if i < |init| {
      RegistrationsAt(init, i);
    }
  }

  /** The values the readers' gauges take at construction: each unlabelled series at 0. */
  function ZeroUpdates(readers: seq<Reader>): (us: seq<Update>)
    ensures |us| == |readers|
  {
    if readers == [] then [] else
      ZeroUpdates(readers[..|readers| - 1]) + [Update(TempKey(readers[|readers| - 1]), 0.0)]
  }

  /** One more reader registers one more gauge and puts one more series at 0. */
  lemma ZeroUpdatesSnoc(values: map<SeriesKey, real>, readers: seq<Reader>, r: Reader)
    ensures Apply(values, ZeroUpdates(readers + [r])) == Apply(values, ZeroUpdates(readers))[TempKey(r) := 0.0]
    ensures Registrations(readers + [r]) == Registrations(readers) + [Registration(r.gaugeName, [])]
  {
    assert (readers + [r])[..|readers|] == readers;
    var us := ZeroUpdates(readers);
    assert (us + [Update(TempKey(r), 0.0)])[..|us|] == us;
  }

  /** After construction the gauge of every reader made is present and at 0. */
  lemma {:induction false} ZeroUpdatesAt(values: map<SeriesKey, real>, readers: seq<Reader>, i: nat)
    requires i < |readers|
    ensures TempKey(readers[i]) in Apply(values, ZeroUpdates(readers))
    ensures Apply(values, ZeroUpdates(readers))[TempKey(readers[i])] == 0.0
  {
    var init := readers[..|readers| - 1];
    if i < |init| {
      ZeroUpdatesAt(values, init, i);
    }
  }

  /** `data[:-1]`: the text without its last character. */
  function DropLast(s: string): string {
    if s == [] then [] else s[..|s| - 1]
  }

  /** `read_temp()`'s value: `int(data[:-1]) / 1000`, or `ValueError`. */
  function ReadTemp(contents: string): Result<real> {
    match PyInt.ParseInt(DropLast(contents))
    case None => Err(ValueError)
    case Some(n) => Ok(n as real / 1000.0)
  }

  /** A temperature file in the kernel's format, millidegrees and a newline, reads as degrees. */
  lemma ReadTempOfSysfs(m: int)
    ensures ReadTemp(PyInt.Decimal(m) + "\n") == Ok(m as real / 1000.0)
  {
    var d := PyInt.Decimal(m);
    assert DropLast(d + "\n") == d;
    PyInt.ParseBare(m);
  }

  /** Exactly one character is dropped, even when it is a digit: a file without the final
      newline reads ten times too low, its last digit lost. */
  lemma ReadTempWithoutNewline(m: nat)
    requires m >= 10
    ensures ReadTemp(PyInt.NatDecimal(m)) == Ok((m / 10) as real / 1000.0)
  {
    var d := PyInt.NatDecimal(m);
    assert d[..|d| - 1] == PyInt.NatDecimal(m / 10);
    assert DropLast(d) == PyInt.Decimal(m / 10);
    PyInt.ParseBare(m / 10);
  }

  /** What reading one device yields: the temperature file's contents as `files` give them,
      `OSError` when the file cannot be read. */
  function DeviceReading(r: Reader, files: map<string, string>): Result<real> {
    if r.tempAddr in files then ReadTemp(files[r.tempAddr]) else Err(OSError)
  }

  function TempKey(r: Reader): SeriesKey {
    SeriesKey(r.gaugeName, map[])
  }

  /** The `set` statements `collect_metrics()` runs, one per device in list order. */
  function TempAttempts(devices: seq<Reader>, files: map<string, string>): (a: seq<Attempt>)
    ensures |a| == |devices|
  {
    if devices == [] then [] else
      var last := devices[|devices| - 1];
      TempAttempts(devices[..|devices| - 1], files) + [Attempt(TempKey(last), DeviceReading(last, files))]
  }

  /** The `i`-th statement sets device `i`'s gauge to that device's reading. */
  lemma {:induction false} TempAttemptsAt(devices: seq<Reader>, files: map<string, string>, i: nat)
    requires i < |devices|
    ensures TempAttempts(devices, files)[i] == Attempt(TempKey(devices[i]), DeviceReading(devices[i], files))
  {
    var init := devices[..|devices| - 1];
    if i < |init| {
      TempAttemptsAt(init, files, i);
    } else if init != [] {
      TempAttemptsAt(init, files, 0);
    }
  }

  /** `read_temp()`: sets the reader's gauge to the file's temperature, or raises. */
  method ReadInto(r: Reader, files: map<string, string>, sink: MetricSink) returns (o: Outcome)
    modifies sink
    ensures DeviceReading(r, files).Err? ==>
      o == Raised(DeviceReading(r, files).error) && sink.values == old(sink.values)
    ensures DeviceReading(r, files).Ok? ==>
      o == Returned && sink.values == old(sink.values)[TempKey(r) := DeviceReading(r, files).value]
    ensures sink.registry == old(sink.registry)
  {
    var v := DeviceReading(r, files);
    if v.Err? {
      return Raised(v.error);
    }
    sink.Set(Update(TempKey(r), v.value));
    return Returned;
  }

  /** One pass of the loop of `collect_metrics()`: reading device `i` is the first statement of the
      run from `i` on; it raises and ends the run, or the run goes on from `i + 1`. */
  method ReadNext(devices: seq<Reader>, files: map<string, string>, i: nat, sink: MetricSink) returns (o: Outcome)
    requires i < |devices|
    modifies sink
    ensures var a := TempAttempts(devices, files);
      o.Raised? ==> RunOn(old(sink.values), a[i..]) == (o, sink.values)
    ensures var a := TempAttempts(devices, files);
      o.Returned? ==> RunOn(old(sink.values), a[i..]) == RunOn(sink.values, a[i + 1..])
    ensures sink.registry == old(sink.registry)
  {
    TempAttemptsAt(devices, files, i);
    RunOnStep(sink.values, TempAttempts(devices, files), i);
    o := ReadInto(devices[i], files, sink);
  }

  /** The loop of `collect_metrics()`, proved by its invariant against `RunOn` and so against
      `RunSets`: the devices are read in order until one fails. */
  method ReadAll(devices: seq<Reader>, files: map<string, string>, sink: MetricSink) returns (o: Outcome)
    modifies sink
    ensures var p := RunSets(TempAttempts(devices, files));
      o == p.outcome && sink.values == Apply(old(sink.values), p.updates)
    ensures sink.registry == old(sink.registry)
  {
    ghost var a := TempAttempts(devices, files);
    RunOnSets(sink.values, a);
    var i := 0;
    while i < |devices|
      invariant 0 <= i <= |devices|
      invariant RunOn(sink.values, a[i..]) == RunOn(old(sink.values), a)
      invariant sink.registry == old(sink.registry)
    {
      o := ReadNext(devices, files, i, sink);
      if o.Raised? {
        return;
      }
      i := i + 1;
    }
    assert a[i..] == [];
    return Returned;
  }

  /** Reading the same files twice leaves the gauges as reading them once. */
  lemma CollectIdempotent(values: map<SeriesKey, real>, devices: seq<Reader>, files: map<string, string>)
    ensures var us := RunSets(TempAttempts(devices, files)).updates;
      Apply(Apply(values, us), us) == Apply(values, us)
  {
    ApplyIdempotent(values, RunSets(TempAttempts(devices, files)).updates);
  }

  /** Devices are read in list order; the first that fails ends the call, with its exception,
      and leaves every later device unread. */
  lemma CollectStopsAtFailure(devices: seq<Reader>, files: map<string, string>, k: nat)
    requires k < |devices|
    requires DeviceReading(devices[k], files).Err?
    requires forall i :: 0 <= i < k ==> DeviceReading(devices[i], files).Ok?
    ensures var p := RunSets(TempAttempts(devices, files));
      |p.updates| == k && p.outcome == Raised(DeviceReading(devices[k], files).error)
      && forall i :: 0 <= i < k ==> p.updates[i] == Update(TempKey(devices[i]), DeviceReading(devices[i], files).value)
  {
    var a := TempAttempts(devices, files);
    TempAttemptsAt(devices, files, k);
    forall i | 0 <= i < k ensures a[i].value.Ok? {
      TempAttemptsAt(devices, files, i);
    }
    var p := RunSets(a);
    forall i | 0 <= i < k ensures p.updates[i] == Update(TempKey(devices[i]), DeviceReading(devices[i], files).value) {
      TempAttemptsAt(devices, files, i);
    }
  }

  /** One pass of the constructor's loop, on the readers `made` so far: path `i` is paired with
      `names[i]`, its reader made and its gauge registered at 0, or the step raises. */
  method PairStep(paths: seq<string>, names: ConfigValue, openable: set<string>, i: nat, made: seq<Reader>,
                  sink: MetricSink, ghost registry0: seq<Registration>, ghost values0: map<SeriesKey, real>)
    returns (made': seq<Reader>, error: Option<Exception>)
    requires i < |paths| && Pairing(paths, names, openable, i) == Construction(made, None)
    requires sink.registry == registry0 + Registrations(made)
    requires sink.values == Apply(values0, ZeroUpdates(made))
    modifies sink
    ensures Pairing(paths, names, openable, i + 1) == Construction(made', error)
    ensures error.Some? ==> Pairing(paths, names, openable, |paths|) == Construction(made', error)
    ensures sink.registry == registry0 + Registrations(made')
    ensures sink.values == Apply(values0, ZeroUpdates(made'))
  {
    PairingNext(paths, names, openable, i, made);
    var reader := NextReader(paths[i], names, i, openable);
    if reader.Err? {
      return made, Some(reader.error);
    }
    ZeroUpdatesSnoc(values0, made, reader.value);
    sink.Register(reader.value.gaugeName, []);
    return made + [reader.value], None;
  }

  /** The loop of the constructor's `try` block: pairs each device path with its name, making
      and registering one reader each, until a step raises. */
  method PairDevices(paths: seq<string>, names: ConfigValue, openable: set<string>, sink: MetricSink)
    returns (made: seq<Reader>, error: Option<Exception>)
    modifies sink
    ensures Construction(made, error) == Pairing(paths, names, openable, |paths|)
    ensures sink.registry == old(sink.registry) + Registrations(made)
    ensures sink.values == Apply(old(sink.values), ZeroUpdates(made))
  {
    made, error := [], None;
    var i := 0;
    while i < |paths| && error.None?
      invariant 0 <= i <= |paths|
      invariant Pairing(paths, names, openable, i) == Construction(made, error)
      invariant error.Some? ==> Pairing(paths, names, openable, |paths|) == Construction(made, error)
      invariant sink.registry == old(sink.registry) + Registrations(made)
      invariant sink.values == Apply(old(sink.values), ZeroUpdates(made))
    {
      made, error := PairStep(paths, names, openable, i, made, sink, old(sink.registry), old(sink.values));
      i := i + 1;
    }
  }

  class DS18B20TemperatureCollector {
    /** The discovered device directories, in discovery order. */
    var devicePaths: seq<string>
    /** The readers made, in the order of their paths. */
    var devices: seq<Reader>
    /** The exception the constructor caught and printed, if any. */
    var report: Option<Exception>

    constructor Empty(paths: seq<string>)
      ensures devicePaths == paths && devices == [] && report == None
    {
      devicePaths := paths;
      devices := [];
      report := None;
    }

    /** `DS18B20TemperatureCollector(options)` for the device directories `paths`. A caught
        `TypeError` or `IndexError` leaves the readers made so far; a `KeyError`, an `OSError`
        or a `ValueError` propagates, after the readers made so far have registered their
        gauges, each at 0. */
    static method Create(paths: seq<string>, options: ConfigValue, openable: set<string>, sink: MetricSink)
      returns (r: Result<DS18B20TemperatureCollector>)
      modifies sink
      ensures var c := Construct(paths, options, openable);
        sink.values == Apply(old(sink.values), ZeroUpdates(c.readers))
        && sink.registry == old(sink.registry) + Registrations(c.readers)
        && (c.error.Some? && !Caught(c.error.value) ==> r == Err(c.error.value))
        && (c.error.None? || Caught(c.error.value) ==>
              r.Ok? && fresh(r.value) && r.value.devicePaths == paths
              && r.value.devices == c.readers && r.value.report == c.error)
    {
      var collector := new DS18B20TemperatureCollector.Empty(paths);
      var looked := GetNames(options);
      if looked.Err? {
        if !Caught(looked.error) {
          return Err(looked.error);
        }
        collector.report := Some(looked.error);
        return Ok(collector);
      }
      var made, error := PairDevices(paths, looked.value, openable, sink);
      if error.Some? && !Caught(error.value) {
        return Err(error.value);
      }
      collector.devices := made;
      collector.report := error;
      return Ok(collector);
    }

    /** `collect_metrics()`: reads each device once, in list order, into its gauge; the first
        failure propagates and leaves the later devices unread. */
    method CollectMetrics(files: map<string, string>, sink: MetricSink) returns (o: Outcome)
      modifies sink
      ensures var p := RunSets(TempAttempts(devices, files));
        o == p.outcome && sink.values == Apply(old(sink.values), p.updates)
      ensures sink.registry == old(sink.registry)
    {
      o := ReadAll(devices, files, sink);
    }
  }
}
