/**
 * The stand-alone, older framework in ev_qa_framework.py: a plain
 * `BatteryTelemetry` record built from keyword arguments, a safety check with
 * cell-level voltage limits (3.0-4.3 V) and a state-of-charge range, the same
 * temperature-jump scan, and a test suite run without schema validation or
 * statistical analysis, in which a malformed record aborts the whole run.
 */
module LegacyFramework {
  import opened Wrappers
  import J = TempJumps
  import S = Schema
  import P = Framework

  /** A reading of the wall clock (`datetime.now()`), supplied by the caller. */
  datatype Instant = Instant(ticks: int)

  datatype BatteryTelemetry = BatteryTelemetry(voltage: real, current: real, temperature: real, soc: real, soh: real, timestamp: Instant)

  /** The keyword parameters of the `BatteryTelemetry` constructor. */
  const ParamNames: set<string> := {"voltage", "current", "temperature", "soc", "soh"}

  /** The `TypeError`s of a keyword call: unknown keywords are reported before missing ones. */
  datatype ArgError = UnexpectedKeywords(names: set<string>) | MissingArguments(names: set<string>)

  /** `BatteryTelemetry(**data)`, stamped with the clock reading `now`. */
  function Construct(data: map<string, real>, now: Instant): (r: Result<BatteryTelemetry, ArgError>)
    ensures r.Ok? <==> data.Keys == ParamNames
    ensures r.Ok? ==> && r.value.voltage == data["voltage"] && r.value.current == data["current"]
                      && r.value.temperature == data["temperature"] && r.value.soc == data["soc"]
                      && r.value.soh == data["soh"] && r.value.timestamp == now
    ensures r.Err? && r.error.UnexpectedKeywords? <==> !(data.Keys <= ParamNames)
    ensures r.Err? && r.error.UnexpectedKeywords? ==> r.error.names == data.Keys - ParamNames != {}
    ensures r.Err? && r.error.MissingArguments? ==> r.error.names == ParamNames - data.Keys != {}
  {
    if !(data.Keys <= ParamNames) then
      assert data.Keys - ParamNames != {} by {
        var k :| k in data.Keys && k !in ParamNames;
        assert k in data.Keys - ParamNames;
      }
      Err(UnexpectedKeywords(data.Keys - ParamNames))
    else if data.Keys != ParamNames then
      assert ParamNames - data.Keys != {} by {
        var k :| k in ParamNames && k !in data.Keys;
        assert k in ParamNames - data.Keys;
      }
      Err(MissingArguments(ParamNames - data.Keys))
    else Ok(BatteryTelemetry(data["voltage"], data["current"], data["temperature"], data["soc"], data["soh"], now))
  }

  /** A value of the dictionary `to_dict` returns: a number, or the ISO text of the timestamp. */
  datatype DictValue = Number(x: real) | IsoFormat(at: Instant)

  /** `to_dict`: the five readings under their own names, and the timestamp. */
  function ToDict(t: BatteryTelemetry): (d: map<string, DictValue>)
    ensures d.Keys == ParamNames + {"timestamp"}
  {
    map["voltage" := Number(t.voltage), "current" := Number(t.current), "temperature" := Number(t.temperature),
        "soc" := Number(t.soc), "soh" := Number(t.soh), "timestamp" := IsoFormat(t.timestamp)]
  }

  /** Constructing from a complete keyword set and dumping gives back every argument, plus the stamp. */
  lemma ConstructThenDump(data: map<string, real>, now: Instant)
    requires data.Keys == ParamNames
    ensures Construct(data, now).Ok?
    ensures var d := ToDict(Construct(data, now).value);
            && (forall k :: k in data ==> d[k] == Number(data[k]))
            && d["timestamp"] == IsoFormat(now)
  {
  }

  /** Reading the numbers back out of a dump rebuilds the same record. */
  lemma DumpThenConstruct(t: BatteryTelemetry)
    ensures var d := ToDict(t);
            var data := map k | k in ParamNames :: d[k].x;
            Construct(data, t.timestamp) == Ok(t)
  {
    var d := ToDict(t);
    var data := map k | k in ParamNames :: d[k].x;
    assert data.Keys == ParamNames;
  }

  const MaxTemperature: real := 60.0
  const MinVoltage: real := 3.0
  const MaxVoltage: real := 4.3

  /** `validate_telemetry`: fails above 60 degrees, outside 3.0-4.3 V, or with a charge outside 0-100 %. */
  function PassesSafety(t: BatteryTelemetry): (ok: bool)
    ensures ok <==> t.temperature <= 60.0 && 3.0 <= t.voltage <= 4.3 && 0.0 <= t.soc <= 100.0
  {
    if t.temperature > MaxTemperature then false
    else if t.voltage < MinVoltage || t.voltage > MaxVoltage then false
    else if t.soc > 100.0 || t.soc < 0.0 then false
    else true
  }

  /** The readings the test module checks, and the limits themselves. */
  lemma SafetyExamples(now: Instant)
    ensures PassesSafety(BatteryTelemetry(3.9, 50.0, 35.0, 80.0, 98.0, now))
    ensures !PassesSafety(BatteryTelemetry(3.9, 50.0, 65.0, 80.0, 98.0, now))
    ensures !PassesSafety(BatteryTelemetry(2.5, 50.0, 35.0, 80.0, 98.0, now))
    ensures !PassesSafety(BatteryTelemetry(4.5, 50.0, 35.0, 80.0, 98.0, now))
    ensures !PassesSafety(BatteryTelemetry(3.9, 50.0, 35.0, 105.0, 98.0, now))
    ensures PassesSafety(BatteryTelemetry(3.0, 50.0, 60.0, 0.0, 98.0, now))
    ensures PassesSafety(BatteryTelemetry(4.3, 50.0, -20.0, 100.0, 98.0, now))
    ensures PassesSafety(BatteryTelemetry(3.9, -100.0, 35.0, 80.0, 98.0, now))
  {
  }

  /** Current, state of health and the time stamp never decide the verdict. */
  lemma SafetyIgnoresCurrentAndSoh(t: BatteryTelemetry, u: BatteryTelemetry)
    requires t.temperature == u.temperature && t.voltage == u.voltage && t.soc == u.soc
    ensures PassesSafety(t) == PassesSafety(u)
  {
  }

  /**
   * The two frameworks judge voltage on different scales (a cell here, a pack
   * in the package): no reading passes both checks.
   */
  lemma NoReadingPassesBothEnvelopes(t: BatteryTelemetry, u: S.Telemetry)
    requires t.voltage == u.voltage
    ensures !(PassesSafety(t) && P.PassesSafety(u))
  {
  }

  /** The message prefix of this framework's anomaly entries. */
  const JumpPrefix: string := "Sudden temp change"

  function Temps(ts: seq<BatteryTelemetry>): (r: seq<real>)
    ensures |r| == |ts| && forall i :: 0 <= i < |ts| ==> r[i] == ts[i].temperature
  {
    seq(|ts|, i requires 0 <= i < |ts| => ts[i].temperature)
  }

  /**
   * The objects built from a batch, record `i` stamped with `clock(i)`; the
   * first record that cannot be constructed ends the run with its error.
   */
  function Built(batch: seq<map<string, real>>, clock: nat -> Instant): (r: Result<seq<BatteryTelemetry>, ArgError>)
    ensures r.Ok? ==> |r.value| == |batch|
    decreases |batch|
  {
    if batch == [] then Ok([])
    else
      var n := |batch| - 1;
      var before := Built(batch[..n], clock);
      var made := Construct(batch[n], clock(n));
      if before.Err? then before
      else if made.Err? then Err(made.error)
      else Ok(before.value + [made.value])
  }

  /**
   * A batch builds exactly when every record has exactly the five keywords;
   * then record `i` is the object its arguments construct, and otherwise the
   * error is that of the first record that does not.
   */
  lemma {:induction false} BuiltMeaning(batch: seq<map<string, real>>, clock: nat -> Instant)
    ensures Built(batch, clock).Ok? <==> forall i :: 0 <= i < |batch| ==> batch[i].Keys == ParamNames
    ensures Built(batch, clock).Ok? ==>
              forall i :: 0 <= i < |batch| ==> Construct(batch[i], clock(i)) == Ok(Built(batch, clock).value[i])
    ensures Built(batch, clock).Err? ==>
              exists i :: 0 <= i < |batch| && Construct(batch[i], clock(i)) == Err(Built(batch, clock).error)
                          && forall k :: 0 <= k < i ==> batch[k].Keys == ParamNames
    decreases |batch|
  {
    if batch != [] {
      var n := |batch| - 1;
      BuiltMeaning(batch[..n], clock);
      assert forall i :: 0 <= i < n ==> batch[..n][i] == batch[i];
      var before := Built(batch[..n], clock);
      var made := Construct(batch[n], clock(n));
      if before.Ok? && made.Ok? {
        assert forall i :: 0 <= i < n ==> before.value[i] == (before.value + [made.value])[i];
      }
    }
  }

  function CountSafe(ts: seq<BatteryTelemetry>): (n: nat)
    ensures n <= |ts|
    decreases |ts|
  {
    if ts == [] then 0
    else CountSafe(ts[..|ts| - 1]) + (if PassesSafety(ts[|ts| - 1]) then 1 else 0)
  }

  /** Safety is decided record by record: the count is the number of positions whose record passes. */
  lemma {:induction false} CountSafeIsCardinality(ts: seq<BatteryTelemetry>)
    ensures CountSafe(ts) == |set i | 0 <= i < |ts| && PassesSafety(ts[i])|
    decreases |ts|
  {
    if ts != [] {
      var n := |ts| - 1;
      CountSafeIsCardinality(ts[..n]);
      var before := set i | 0 <= i < n && PassesSafety(ts[..n][i]);
      var after := set i | 0 <= i < |ts| && PassesSafety(ts[i]);
      assert before == set i | 0 <= i < n && PassesSafety(ts[i]);
      if PassesSafety(ts[n]) {
        assert after == before + {n};
      } else {
        assert after == before;
      }
    }
  }

  /** The dictionary `run_test_suite` returns (this framework has no `ml_analysis` entry). */
  datatype LegacyReport = LegacyReport(totalTests: nat, passed: nat, failed: nat, anomalies: seq<J.Anomaly>)

  /** The outcome of a run: the report, or the construction error that aborted it. */
  function ExpectedReport(batch: seq<map<string, real>>, clock: nat -> Instant): (r: Result<LegacyReport, ArgError>)
    ensures r.Ok? <==> Built(batch, clock).Ok?
    ensures r.Ok? ==> var ts := Built(batch, clock).value;
                      && r.value.totalTests == |batch| && r.value.passed + r.value.failed == |batch|
                      && r.value.passed == CountSafe(ts)
                      && r.value.anomalies == J.Scan(JumpPrefix, Temps(ts))
    ensures r.Err? ==> r.error == Built(batch, clock).error
  {
    var built := Built(batch, clock);
    if built.Err? then Err(built.error)
    else
      var ts := built.value;
      Ok(LegacyReport(|batch|, CountSafe(ts), |ts| - CountSafe(ts), J.Scan(JumpPrefix, Temps(ts))))
  }

  /** Of a completed run, `passed` counts the records that pass the safety check and `failed` the rest. */
  lemma PassedCountsSafeRecords(batch: seq<map<string, real>>, clock: nat -> Instant)
    requires ExpectedReport(batch, clock).Ok?
    ensures var ts := Built(batch, clock).value;
            var passing := set i | 0 <= i < |ts| && PassesSafety(ts[i]);
            && ExpectedReport(batch, clock).value.passed == |passing|
            && ExpectedReport(batch, clock).value.failed == |batch| - |passing|
  {
    CountSafeIsCardinality(Built(batch, clock).value);
  }

  class EVQAFramework {
    const name: string
    var telemetryData: seq<BatteryTelemetry>
    /** The last report; `None` stands for the empty dictionary before the first run. */
    var testResults: Option<LegacyReport>

    constructor (name: string)
      ensures this.name == name && telemetryData == [] && testResults == None
    {
      this.name := name;
      telemetryData := [];
      testResults := None;
    }

    /** `detect_anomalies`: one entry per consecutive pair whose temperatures differ by more than 5 degrees. */
    method DetectAnomalies(samples: seq<BatteryTelemetry>) returns (anomalies: seq<J.Anomaly>)
      ensures anomalies == J.Scan(JumpPrefix, Temps(samples))
    {
      anomalies := [];
      if |samples| < 2 {
        return;
      }
      ghost var temps := Temps(samples);
      var i := 1;
      while i < |samples|
        invariant 1 <= i <= |samples|
        invariant anomalies == J.Scan(JumpPrefix, temps[..i])
      {
        var change := J.Abs(samples[i].temperature - samples[i - 1].temperature);
        assert temps[..i + 1][..i] == temps[..i];
        if change > 5.0 {
          anomalies := anomalies + [J.Anomaly(JumpPrefix, change)];
        }
        i := i + 1;
      }
      assert temps[..i] == temps;
    }

    /**
     * The record loop of `run_test_suite`: builds each record in turn
     * (stamping it with the clock) and counts it as passed or failed. A record
     * that cannot be constructed raises out of the loop with its error.
     */
    method BuildAndCount(batch: seq<map<string, real>>, clock: nat -> Instant)
      returns (built: Result<seq<BatteryTelemetry>, ArgError>, passed: nat, failed: nat)
      ensures built == Built(batch, clock)
      ensures built.Ok? ==> passed == CountSafe(built.value) && failed == |built.value| - passed
    {
      var telemetries: seq<BatteryTelemetry> := [];
      passed, failed := 0, 0;
      var i := 0;
      while i < |batch|
        invariant 0 <= i <= |batch|
        invariant Built(batch[..i], clock) == Ok(telemetries)
        invariant passed == CountSafe(telemetries) && failed == |telemetries| - passed
      {
        BuiltStep(batch, clock, i);
        var made := Construct(batch[i], clock(i));
        if made.Err? {
          built := Err(made.error);
          BuiltAbortsRun(batch, clock, i + 1);
          return;
        }
        var telemetry := made.value;
        CountSafeStep(telemetries, telemetry);
        telemetries := telemetries + [telemetry];
        if PassesSafety(telemetry) {
          passed := passed + 1;
        } else {
          failed := failed + 1;
        }
        i := i + 1;
      }
      assert batch[..i] == batch;
      built := Ok(telemetries);
    }

    /**
     * `run_test_suite`: the record loop, then the jump scan over all built
     * records, then the stored report. When the loop raises, nothing is
     * stored and the error is returned.
     */
    method RunTestSuite(batch: seq<map<string, real>>, clock: nat -> Instant) returns (r: Result<LegacyReport, ArgError>)
      modifies this
      ensures r == ExpectedReport(batch, clock)
      ensures r.Ok? ==> testResults == Some(r.value)
      ensures r.Err? ==> testResults == old(testResults)
      ensures telemetryData == old(telemetryData)
    {
      var built, passed, failed := BuildAndCount(batch, clock);
      if built.Err? {
        r := Err(built.error);
        return;
      }
      var anomalies := DetectAnomalies(built.value);
      var report := LegacyReport(|batch|, passed, failed, anomalies);
      testResults := Some(report);
      r := Ok(report);
    }
  }

  /** Building one more record: an earlier error stays, otherwise the new record's outcome decides. */
  lemma BuiltStep(batch: seq<map<string, real>>, clock: nat -> Instant, i: nat)
    requires i < |batch|
    ensures Built(batch[..i], clock).Err? ==> Built(batch[..i + 1], clock) == Built(batch[..i], clock)
    ensures Built(batch[..i], clock).Ok? && Construct(batch[i], clock(i)).Err? ==>
              Built(batch[..i + 1], clock) == Err(Construct(batch[i], clock(i)).error)
    ensures Built(batch[..i], clock).Ok? && Construct(batch[i], clock(i)).Ok? ==>
              Built(batch[..i + 1], clock) == Ok(Built(batch[..i], clock).value + [Construct(batch[i], clock(i)).value])
  {
    assert batch[..i + 1][..i] == batch[..i];
  }

  lemma CountSafeStep(ts: seq<BatteryTelemetry>, t: BatteryTelemetry)
    ensures CountSafe(ts + [t]) == CountSafe(ts) + (if PassesSafety(t) then 1 else 0)
  {
    assert (ts + [t])[..|ts|] == ts;
  }

  /** Once a prefix fails to build, the whole batch fails with the same error. */
  lemma {:induction false} BuiltAbortsRun(batch: seq<map<string, real>>, clock: nat -> Instant, k: nat)
    requires k <= |batch| && Built(batch[..k], clock).Err?
    ensures Built(batch, clock) == Built(batch[..k], clock)
    decreases |batch| - k
  {
    if k < |batch| {
      BuiltStep(batch, clock, k);
      BuiltAbortsRun(batch, clock, k + 1);
    } else {
      assert batch[..k] == batch;
    }
  }

  /** A batch whose every record constructs builds to exactly those objects. */
  lemma BuildsAll(batch: seq<map<string, real>>, clock: nat -> Instant, ts: seq<BatteryTelemetry>)
    requires |ts| == |batch| && forall i :: 0 <= i < |batch| ==> Construct(batch[i], clock(i)) == Ok(ts[i])
    ensures Built(batch, clock) == Ok(ts)
  {
    BuiltMeaning(batch, clock);
    forall i | 0 <= i < |batch| ensures batch[i].Keys == ParamNames {
      assert Construct(batch[i], clock(i)).Ok?;
    }
    var r := Built(batch, clock);
    assert r.Ok? && |r.value| == |ts|;
    forall i | 0 <= i < |ts| ensures r.value[i] == ts[i] {
      assert Construct(batch[i], clock(i)) == Ok(r.value[i]);
    }
    assert r.value == ts;
  }

  /** The report of a run whose records all construct, in terms of the objects they construct. */
  lemma RunOfObjects(batch: seq<map<string, real>>, clock: nat -> Instant, ts: seq<BatteryTelemetry>)
    requires Built(batch, clock) == Ok(ts)
    ensures ExpectedReport(batch, clock).Ok?
    ensures ExpectedReport(batch, clock).value.totalTests == |ts|
    ensures ExpectedReport(batch, clock).value.passed == CountSafe(ts)
    ensures ExpectedReport(batch, clock).value.failed == |ts| - CountSafe(ts)
    ensures ExpectedReport(batch, clock).value.anomalies == J.Scan(JumpPrefix, Temps(ts))
  {
  }

  /** The keyword arguments of one well-formed call. */
  function Reading(voltage: real, current: real, temperature: real, soc: real, soh: real): (data: map<string, real>)
    ensures data.Keys == ParamNames
    ensures forall now :: Construct(data, now) == Ok(BatteryTelemetry(voltage, current, temperature, soc, soh, now))
  {
    map["voltage" := voltage, "current" := current, "temperature" := temperature, "soc" := soc, "soh" := soh]
  }

  /** The three objects of the module's example run: all pass, and only the 36-to-45 step is a jump. */
  lemma ExampleObjects(t0: BatteryTelemetry, t1: BatteryTelemetry, t2: BatteryTelemetry)
    requires t0.voltage == 3.9 && t0.temperature == 35.0 && t0.soc == 80.0
    requires t1.voltage == 3.95 && t1.temperature == 36.0 && t1.soc == 85.0
    requires t2.voltage == 3.85 && t2.temperature == 45.0 && t2.soc == 75.0
    ensures CountSafe([t0, t1, t2]) == 3
    ensures J.Scan(JumpPrefix, Temps([t0, t1, t2])) == [J.Anomaly(JumpPrefix, 9.0)]
  {
    CountSafeStep([], t0);
    assert [] + [t0] == [t0];
    CountSafeStep([t0], t1);
    assert [t0] + [t1] == [t0, t1];
    CountSafeStep([t0, t1], t2);
    assert [t0, t1] + [t2] == [t0, t1, t2];
    assert Temps([t0, t1, t2]) == [35.0, 36.0, 45.0];
    assert J.Scan(JumpPrefix, [35.0, 36.0]) == [] by {
      assert [35.0, 36.0][..1] == [35.0];
    }
    assert [35.0, 36.0, 45.0][..2] == [35.0, 36.0];
  }

  /** The sample batch of the module's own example run: all three pass and the 9-degree step is reported. */
  lemma ExampleRun(clock: nat -> Instant)
    ensures ExpectedReport([Reading(3.9, 50.0, 35.0, 80.0, 98.0), Reading(3.95, 45.0, 36.0, 85.0, 98.0),
                            Reading(3.85, 60.0, 45.0, 75.0, 97.0)], clock)
            == Ok(LegacyReport(3, 3, 0, [J.Anomaly(JumpPrefix, 9.0)]))
  {
    var batch := [Reading(3.9, 50.0, 35.0, 80.0, 98.0), Reading(3.95, 45.0, 36.0, 85.0, 98.0),
                  Reading(3.85, 60.0, 45.0, 75.0, 97.0)];
    var ts := [BatteryTelemetry(3.9, 50.0, 35.0, 80.0, 98.0, clock(0)),
               BatteryTelemetry(3.95, 45.0, 36.0, 85.0, 98.0, clock(1)),
               BatteryTelemetry(3.85, 60.0, 45.0, 75.0, 97.0, clock(2))];
    assert Construct(batch[0], clock(0)) == Ok(ts[0]);
    assert Construct(batch[1], clock(1)) == Ok(ts[1]);
    assert Construct(batch[2], clock(2)) == Ok(ts[2]);
    BuildsAll(batch, clock, ts);
    RunOfObjects(batch, clock, ts);
    ExampleObjects(ts[0], ts[1], ts[2]);
    assert ts == [ts[0], ts[1], ts[2]];
  }

  /** The objects of the test module's mixed batch: the second is over the voltage limit; no jump. */
  lemma MixedObjects(t0: BatteryTelemetry, t1: BatteryTelemetry)
    requires t0.voltage == 3.9 && t0.temperature == 35.0 && t0.soc == 80.0
    requires t1.voltage == 5.0 && t1.temperature == 35.0
    ensures CountSafe([t0, t1]) == 1
    ensures J.Scan(JumpPrefix, Temps([t0, t1])) == []
  {
    CountSafeStep([], t0);
    assert [] + [t0] == [t0];
    CountSafeStep([t0], t1);
    assert [t0] + [t1] == [t0, t1];
    assert Temps([t0, t1]) == [35.0, 35.0];
    assert [35.0, 35.0][..1] == [35.0];
  }

  /** The test module's mixed batch: one record over the voltage limit, so one passes and one fails. */
  lemma MixedRun(clock: nat -> Instant)
    ensures ExpectedReport([Reading(3.9, 50.0, 35.0, 80.0, 98.0), Reading(5.0, 50.0, 35.0, 80.0, 98.0)], clock)
            == Ok(LegacyReport(2, 1, 1, []))
  {
    var batch := [Reading(3.9, 50.0, 35.0, 80.0, 98.0), Reading(5.0, 50.0, 35.0, 80.0, 98.0)];
    var ts := [BatteryTelemetry(3.9, 50.0, 35.0, 80.0, 98.0, clock(0)),
               BatteryTelemetry(5.0, 50.0, 35.0, 80.0, 98.0, clock(1))];
    assert Construct(batch[0], clock(0)) == Ok(ts[0]);
    assert Construct(batch[1], clock(1)) == Ok(ts[1]);
    BuildsAll(batch, clock, ts);
    RunOfObjects(batch, clock, ts);
    MixedObjects(ts[0], ts[1]);
    assert ts == [ts[0], ts[1]];
  }

  /** A record with a misspelt key aborts the run with that key named. */
  lemma MisspeltKeyAborts(clock: nat -> Instant)
    ensures var batch := [Reading(3.9, 50.0, 35.0, 80.0, 98.0),
                          map["voltage" := 3.9, "current" := 50.0, "temp" := 35.0, "soc" := 80.0, "soh" := 98.0]];
            ExpectedReport(batch, clock) == Err(UnexpectedKeywords({"temp"}))
  {
    var bad := map["voltage" := 3.9, "current" := 50.0, "temp" := 35.0, "soc" := 80.0, "soh" := 98.0];
    var batch := [Reading(3.9, 50.0, 35.0, 80.0, 98.0), bad];
    assert bad.Keys - ParamNames == {"temp"};
    BuiltStep(batch, clock, 1);
    assert batch[..2] == batch;
  }
}
