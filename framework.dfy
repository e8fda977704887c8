/**
 * The package orchestrator, `EVQAFramework` in ev_qa_framework/framework.py:
 * the operating-safety check, the rule-based temperature scan, and the test
 * suite run that validates every record against the schema, counts passes and
 * failures, scans the accepted samples and hands them to the analyzer.
 */
module Framework {
  import opened Wrappers
  import S = Schema
  import J = TempJumps
  import A = Analysis

  /** The identifier written into records that arrive without one. */
  const DefaultTestVin: string := "TESTVEHCLE0123456"

  /** The message prefix of this framework's anomaly entries. */
  const JumpPrefix: string := "Резкий скачок температуры"

  const MaxTemperature: real := 60.0
  const MinVoltage: real := 200.0
  const MaxVoltage: real := 900.0

  /** `validate_telemetry`: fails above 60 degrees or outside 200-900 V; nothing else matters. */
  function PassesSafety(t: S.Telemetry): (ok: bool)
    ensures ok <==> t.temperature <= 60.0 && 200.0 <= t.voltage <= 900.0
  {
    if t.temperature > MaxTemperature then false
    else if t.voltage < MinVoltage || t.voltage > MaxVoltage then false
    else true
  }

  /** The limit cases of the safety check; cold readings and any current pass. */
  lemma SafetyLimits(t: S.Telemetry)
    requires 200.0 <= t.voltage <= 900.0
    ensures t.temperature == 60.0 ==> PassesSafety(t)
    ensures t.temperature == 60.1 ==> !PassesSafety(t)
    ensures t.temperature == -20.0 ==> PassesSafety(t)
    ensures PassesSafety(t.(voltage := 200.0)) == PassesSafety(t.(voltage := 900.0)) == (t.temperature <= 60.0)
    ensures !PassesSafety(t.(voltage := 199.9)) && !PassesSafety(t.(voltage := 900.1))
  {
  }

  /** Only temperature and voltage decide the verdict. */
  lemma SafetyIgnoresOtherFields(t: S.Telemetry, u: S.Telemetry)
    requires t.temperature == u.temperature && t.voltage == u.voltage
    ensures PassesSafety(t) == PassesSafety(u)
  {
  }

  /** The compatibility step of `run_test_suite`: a record without `vin` gets the default identifier. */
  function InjectVin(data: S.Record): (r: S.Record)
    ensures "vin" in r && r.Keys - {"vin"} == data.Keys - {"vin"}
    ensures "vin" in data ==> r["vin"] == data["vin"]
    ensures "vin" !in data ==> r["vin"] == S.Str(DefaultTestVin)
  {
    if "vin" !in data then data["vin" := S.Str(DefaultTestVin)] else data
  }

  /** Injection adds only `vin`, keeps every value already present, and leaves a record with `vin` as it was. */
  lemma InjectVinKeepsRecord(data: S.Record)
    ensures InjectVin(data).Keys == data.Keys + {"vin"}
    ensures forall k :: k in data ==> InjectVin(data)[k] == data[k]
    ensures "vin" in data ==> InjectVin(data) == data
    ensures "vin" !in data ==> InjectVin(data)["vin"] == S.Str(DefaultTestVin)
  {
  }

  function InjectAll(batch: seq<S.Record>): (r: seq<S.Record>)
    ensures |r| == |batch| && forall i :: 0 <= i < |batch| ==> r[i] == InjectVin(batch[i])
  {
    seq(|batch|, i requires 0 <= i < |batch| => InjectVin(batch[i]))
  }

  /** The default identifier itself satisfies the identifier rule, so an injected record never fails on `vin`. */
  lemma DefaultVinIsAccepted(data: S.Record)
    requires "vin" !in data
    ensures S.VinAccepted(DefaultTestVin) && S.UpperStr(DefaultTestVin) == DefaultTestVin
    ensures S.FieldAccepted(InjectVin(data), S.Vin)
  {
    assert S.UpperStr(DefaultTestVin) == DefaultTestVin;
  }

  /** The schema's verdict on one record: the reading, or the list of field errors. */
  type Verdict = Result<S.Telemetry, S.Failure>

  /** A schema check, such as `Schema.ValidateTelemetry`. */
  type Validator = S.Record -> Verdict

  function Verdicts(validate: Validator, batch: seq<S.Record>): (vs: seq<Verdict>)
    ensures |vs| == |batch| && forall i :: 0 <= i < |batch| ==> vs[i] == validate(batch[i])
  {
    seq(|batch|, i requires 0 <= i < |batch| => validate(batch[i]))
  }

  /** The records partly through the injection loop: the first `i` injected, the rest as given. */
  function Partly(batch: seq<S.Record>, i: nat): (r: seq<S.Record>)
    requires i <= |batch|
    ensures |r| == |batch|
    ensures i == 0 ==> r == batch
    ensures i == |batch| ==> r == InjectAll(batch)
    ensures i < |batch| ==> r[i] == batch[i]
  {
    InjectAll(batch)[..i] + batch[i..]
  }

  lemma PartlyMeaning(batch: seq<S.Record>, i: nat)
    requires i <= |batch|
    ensures forall j :: 0 <= j < i ==> Partly(batch, i)[j] == InjectVin(batch[j])
    ensures forall j :: i <= j < |batch| ==> Partly(batch, i)[j] == batch[j]
  {
  }

  /** Injecting record `i` in place advances the loop by one record. */
  lemma PartlyStep(batch: seq<S.Record>, i: nat)
    requires i < |batch|
    ensures Partly(batch, i)[i := InjectVin(batch[i])] == Partly(batch, i + 1)
  {
    PartlyMeaning(batch, i);
    PartlyMeaning(batch, i + 1);
  }

  /** Judging one more record appends its verdict. */
  lemma VerdictsStep(validate: Validator, batch: seq<S.Record>, i: nat)
    requires i < |batch|
    ensures Verdicts(validate, batch[..i + 1]) == Verdicts(validate, batch[..i]) + [validate(batch[i])]
  {
    assert batch[..i + 1] == batch[..i] + [batch[i]];
  }

  /** The accepted readings, in input order. */
  function Accepted(vs: seq<Verdict>): (ts: seq<S.Telemetry>)
    ensures |ts| <= |vs|
    decreases |vs|
  {
    if vs == [] then []
    else
      var n := |vs| - 1;
      Accepted(vs[..n]) + (if vs[n].Ok? then [vs[n].value] else [])
  }

  /** The passed and failed counters of a run. */
  datatype Tally = Tally(passed: nat, failed: nat)

  /** One step per record: accepted and safe passes; accepted and unsafe, or rejected, fails. */
  function Count(vs: seq<Verdict>): (c: Tally)
    ensures c.passed <= |vs| && c.failed <= |vs|
    decreases |vs|
  {
    if vs == [] then Tally(0, 0)
    else
      var n := |vs| - 1;
      var c := Count(vs[..n]);
      if vs[n].Ok? && PassesSafety(vs[n].value) then Tally(c.passed + 1, c.failed)
      else Tally(c.passed, c.failed + 1)
  }

  function CountSafe(ts: seq<S.Telemetry>): (n: nat)
    ensures n <= |ts|
    decreases |ts|
  {
    if ts == [] then 0
    else CountSafe(ts[..|ts| - 1]) + (if PassesSafety(ts[|ts| - 1]) then 1 else 0)
  }

  /** Appending one verdict extends the accepted readings and moves one counter. */
  lemma AppendVerdict(vs: seq<Verdict>, v: Verdict)
    ensures Accepted(vs + [v]) == Accepted(vs) + (if v.Ok? then [v.value] else [])
    ensures Count(vs + [v]) == if v.Ok? && PassesSafety(v.value) then Tally(Count(vs).passed + 1, Count(vs).failed)
                              else Tally(Count(vs).passed, Count(vs).failed + 1)
  {
    assert (vs + [v])[..|vs|] == vs;
  }

  /** Every record moves exactly one counter; passes are the accepted readings that are safe. */
  lemma {:induction false} CountPartitions(vs: seq<Verdict>)
    ensures Count(vs).passed + Count(vs).failed == |vs|
    ensures Count(vs).passed == CountSafe(Accepted(vs))
    ensures Count(vs).failed == (|vs| - |Accepted(vs)|) + (|Accepted(vs)| - CountSafe(Accepted(vs)))
    decreases |vs|
  {
    if vs != [] {
      var n := |vs| - 1;
      CountPartitions(vs[..n]);
      var before := Accepted(vs[..n]);
      if vs[n].Ok? {
        assert Accepted(vs) == before + [vs[n].value];
        assert (before + [vs[n].value])[..|before|] == before;
        assert CountSafe(Accepted(vs)) == CountSafe(before) + (if PassesSafety(vs[n].value) then 1 else 0);
      } else {
        assert Accepted(vs) == before;
      }
    }
  }

  /** Nothing is accepted exactly when every verdict is a rejection. */
  lemma {:induction false} NoneAcceptedIffAllRejected(vs: seq<Verdict>)
    ensures |Accepted(vs)| == 0 <==> forall i :: 0 <= i < |vs| ==> vs[i].Err?
    decreases |vs|
  {
    if vs != [] {
      var n := |vs| - 1;
      NoneAcceptedIffAllRejected(vs[..n]);
      assert forall i :: 0 <= i < n ==> vs[..n][i] == vs[i];
    }
  }

  function Temps(ts: seq<S.Telemetry>): (r: seq<real>)
    ensures |r| == |ts| && forall i :: 0 <= i < |ts| ==> r[i] == ts[i].temperature
  {
    seq(|ts|, i requires 0 <= i < |ts| => ts[i].temperature)
  }

  /** The frame handed to the analyzer: one row per accepted sample, `temperature` renamed `temp`. */
  function Frame(ts: seq<S.Telemetry>): (rows: seq<A.Row>)
    ensures |rows| == |ts|
    ensures forall i :: 0 <= i < |ts| ==> rows[i] == A.Row(ts[i].voltage, ts[i].current, ts[i].temperature, ts[i].soc, ts[i].soh)
  {
    seq(|ts|, i requires 0 <= i < |ts| => A.Row(ts[i].voltage, ts[i].current, ts[i].temperature, ts[i].soc, ts[i].soh))
  }

  /** The dictionary `run_test_suite` returns; `mlAnalysis` is `None` when no sample was accepted. */
  datatype Report = Report(totalTests: nat, passed: nat, failed: nat, anomalies: seq<J.Anomaly>, mlAnalysis: Option<A.Summary>)

  /** The report a run over `batch` (identifiers already injected) produces with the given check and model settings. */
  function ExpectedReport(batch: seq<S.Record>, validate: Validator, contamination: real, seed: int, model: A.Model): (r: Report)
    ensures r.totalTests == |batch| && r.passed + r.failed == r.totalTests
    ensures r.passed == CountSafe(Accepted(Verdicts(validate, batch)))
    ensures r.anomalies == J.Scan(JumpPrefix, Temps(Accepted(Verdicts(validate, batch))))
    ensures r.mlAnalysis.None? <==> forall i :: 0 <= i < |batch| ==> validate(batch[i]).Err?
    ensures r.mlAnalysis.Some? ==> r.mlAnalysis.value.totalSamples == |Accepted(Verdicts(validate, batch))|
    ensures r.mlAnalysis.Some? ==>
              var frame := Frame(Accepted(Verdicts(validate, batch)));
              && |frame| > 0
              && r.mlAnalysis.value == A.Summarize(frame, model(contamination, seed, A.FeaturesOf(frame)))
  {
    var vs := Verdicts(validate, batch);
    CountPartitions(vs);
    NoneAcceptedIffAllRejected(vs);
    var ts := Accepted(vs);
    var c := Count(vs);
    var ml := if |ts| == 0 then None
              else Some(A.Summarize(Frame(ts), model(contamination, seed, A.FeaturesOf(Frame(ts)))));
    Report(|batch|, c.passed, c.failed, J.Scan(JumpPrefix, Temps(ts)), ml)
  }

  /** Each accepted reading is the verdict on some record. */
  lemma {:induction false} AcceptedComeFromVerdicts(vs: seq<Verdict>)
    ensures forall t :: t in Accepted(vs) ==> exists i :: 0 <= i < |vs| && vs[i] == Ok(t)
    decreases |vs|
  {
    if vs != [] {
      var n := |vs| - 1;
      AcceptedComeFromVerdicts(vs[..n]);
      assert forall i :: 0 <= i < n ==> vs[..n][i] == vs[i];
    }
  }

  /** Conversely, the reading of every record the validator accepts is kept. */
  lemma {:induction false} AcceptedKeepsEveryReading(vs: seq<Verdict>)
    ensures forall i :: 0 <= i < |vs| && vs[i].Ok? ==> vs[i].value in Accepted(vs)
    decreases |vs|
  {
    if vs != [] {
      var n := |vs| - 1;
      AcceptedKeepsEveryReading(vs[..n]);
      assert forall i :: 0 <= i < n ==> vs[..n][i] == vs[i];
    }
  }

  /**
   * Keeping readings distributes over concatenation: the readings kept from a
   * batch are those kept from its first part followed by those kept from the
   * rest, so they stay in the batch's order.
   */
  lemma {:induction false} AcceptedConcat(a: seq<Verdict>, b: seq<Verdict>)
    ensures Accepted(a + b) == Accepted(a) + Accepted(b)
    decreases |b|
  {
    if b == [] {
      assert a + b == a;
    } else {
      var n := |b| - 1;
      var last := if b[n].Ok? then [b[n].value] else [];
      assert (a + b)[..|a| + n] == a + b[..n];
      assert (a + b)[|a| + n] == b[n];
      calc {
        Accepted(a + b);
        Accepted(a + b[..n]) + last;
        { AcceptedConcat(a, b[..n]); }
        Accepted(a) + Accepted(b[..n]) + last;
        Accepted(a) + (Accepted(b[..n]) + last);
      }
    }
  }

  /** Under the package schema, every reading the suite keeps satisfies the schema's invariants. */
  lemma AcceptedAreWellFormed(batch: seq<S.Record>)
    ensures forall t :: t in Accepted(Verdicts(S.ValidateTelemetry, batch)) ==> S.WellFormed(t)
  {
    var vs := Verdicts(S.ValidateTelemetry, batch);
    AcceptedComeFromVerdicts(vs);
    forall t | t in Accepted(vs) ensures S.WellFormed(t) {
      var i :| 0 <= i < |vs| && vs[i] == Ok(t);
      var r := S.ValidateTelemetry(batch[i]);
      assert r == vs[i];
    }
  }

  /**
   * A record whose only fault is a missing identifier is accepted once
   * injected: it gets the default identifier and keeps its own values.
   */
  lemma InjectedRecordAccepted(data: S.Record)
    requires "vin" !in data
    requires S.FieldAccepted(data, S.Voltage) && S.FieldAccepted(data, S.Current)
    requires S.FieldAccepted(data, S.Temperature) && S.FieldAccepted(data, S.Soc)
    requires S.FieldAccepted(data, S.Soh) && S.FieldAccepted(data, S.Time)
    ensures S.ValidateTelemetry(InjectVin(data)).Ok?
    ensures S.ValidateTelemetry(InjectVin(data)).value.vin == DefaultTestVin
    ensures S.ToFloat(data["voltage"]) == Some(S.ValidateTelemetry(InjectVin(data)).value.voltage)
    ensures S.ToFloat(data["temperature"]) == Some(S.ValidateTelemetry(InjectVin(data)).value.temperature)
  {
    InjectVinKeepsRecord(data);
    DefaultVinIsAccepted(data);
    var injected := InjectVin(data);
    assert S.AllFieldsAccepted(injected);
    var r := S.ValidateTelemetry(injected);
    assert S.Matches(injected, r.value);
  }

  /** A record without an identifier, at the given temperature. */
  function Reading(temperature: real): S.Record {
    map["voltage" := S.Num(390.0), "current" := S.Num(120.0), "temperature" := S.Num(temperature),
        "soc" := S.Num(80.0), "soh" := S.Num(96.0)]
  }

  /** Once injected, such a record is accepted with the default identifier and its own values. */
  lemma InjectedReadingAccepted(temperature: real)
    requires -50.0 <= temperature <= 150.0
    ensures S.ValidateTelemetry(InjectVin(Reading(temperature)))
            == Ok(S.Telemetry(DefaultTestVin, 390.0, 120.0, temperature, 80.0, 96.0, S.Now))
  {
    var data := InjectVin(Reading(temperature));
    InjectedRecordAccepted(Reading(temperature));
    var r := S.ValidateTelemetry(data);
    assert S.Matches(data, r.value);
  }

  class EVQAFramework {
    const name: string
    var telemetryData: seq<S.Telemetry>
    /** The last report; `None` stands for the empty dictionary before the first run. */
    var testResults: Option<Report>
    const mlAnalyzer: A.EVBatteryAnalyzer
    /** The schema check the suite applies to each record: `validate_telemetry` of the schema module. */
    const validate: Validator

    constructor (name: string)
      ensures this.name == name && telemetryData == [] && testResults == None
      ensures validate == S.ValidateTelemetry
      ensures fresh(mlAnalyzer) && mlAnalyzer.anomalies == None
      ensures mlAnalyzer.contamination == A.DefaultContamination && mlAnalyzer.randomState == A.RandomState
    {
      this.name := name;
      telemetryData := [];
      testResults := None;
      validate := S.ValidateTelemetry;
      mlAnalyzer := new A.EVBatteryAnalyzer(A.DefaultContamination);
    }

    /** `detect_anomalies`: one entry per consecutive pair whose temperatures differ by more than 5 degrees. */
    method DetectAnomalies(samples: seq<S.Telemetry>) returns (anomalies: seq<J.Anomaly>)
      ensures anomalies == J.Scan(JumpPrefix, Temps(samples))
    {
      anomalies := [];
      if |samples| < 2 {
        return;
      }
      ghost var temps := Temps(samples);
      var i := 1;
      while i < |samples|
        invariant 1 <= i <= |samples|
        invariant anomalies == J.Scan(JumpPrefix, temps[..i])
      {
        var change := J.Abs(samples[i].temperature - samples[i - 1].temperature);
        assert temps[..i + 1][..i] == temps[..i];
        if change > 5.0 {
          anomalies := anomalies + [J.Anomaly(JumpPrefix, change)];
        }
        i := i + 1;
      }
      assert temps[..i] == temps;
    }

    /**
     * The record loop of `run_test_suite`: injects the default identifier into
     * every record that lacks one (in the caller's records), validates each
     * record, keeps the accepted readings in order and counts each record as
     * passed or failed.
     */
    method ValidateBatch(batch: array<S.Record>) returns (telemetries: seq<S.Telemetry>, passed: nat, failed: nat)
      modifies batch
      ensures batch[..] == InjectAll(old(batch[..]))
      ensures telemetries == Accepted(Verdicts(validate, batch[..]))
      ensures Tally(passed, failed) == Count(Verdicts(validate, batch[..]))
    {
      ghost var given := batch[..];
      ghost var target := InjectAll(given);
      telemetries := [];
      passed, failed := 0, 0;
      var i := 0;
      while i < batch.Length
        invariant 0 <= i <= batch.Length
        invariant batch[..] == Partly(given, i)
        invariant telemetries == Accepted(Verdicts(validate, target[..i]))
        invariant Tally(passed, failed) == Count(Verdicts(validate, target[..i]))
      {
        PartlyStep(given, i);
        ghost var before := batch[..];
        var record := InjectVin(batch[i]);
        assert record == target[i];
        batch[i] := record;
        assert batch[..] == before[i := record];
        var verdict := validate(record);
        VerdictsStep(validate, target, i);
        AppendVerdict(Verdicts(validate, target[..i]), verdict);
        if verdict.Ok? {
          telemetries := telemetries + [verdict.value];
        }
        if verdict.Ok? && PassesSafety(verdict.value) {
          passed := passed + 1;
        } else {
          failed := failed + 1;
        }
        i := i + 1;
      }
      assert batch[..] == target;
      assert target[..i] == target;
    }

    /**
     * `run_test_suite`: runs the record loop, scans the accepted readings in
     * input order, analyzes them when there is at least one, and stores the
     * report.
     */
    method RunTestSuite(batch: array<S.Record>, model: A.Model) returns (report: Report)
      modifies this, batch, mlAnalyzer
      ensures batch[..] == InjectAll(old(batch[..]))
      ensures report == ExpectedReport(batch[..], validate, mlAnalyzer.contamination, mlAnalyzer.randomState, model)
      ensures testResults == Some(report)
      ensures telemetryData == old(telemetryData)
      ensures |Accepted(Verdicts(validate, batch[..]))| == 0 ==> mlAnalyzer.anomalies == old(mlAnalyzer.anomalies)
      ensures var frame := Frame(Accepted(Verdicts(validate, batch[..])));
              |frame| > 0 ==> mlAnalyzer.anomalies == Some(A.Outliers(frame, model(mlAnalyzer.contamination, mlAnalyzer.randomState, A.FeaturesOf(frame))))
    {
      var telemetries, passed, failed := ValidateBatch(batch);
      ghost var injected := batch[..];
      var anomalies := DetectAnomalies(telemetries);
      var ml: Option<A.Summary> := None;
      if |telemetries| > 0 {
        var summary := mlAnalyzer.AnalyzeTelemetry(Frame(telemetries), model);
        ml := Some(summary);
      }
      report := Report(batch.Length, passed, failed, anomalies, ml);
      testResults := Some(report);
      assert batch[..] == injected;
    }
  }
}
