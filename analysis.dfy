/**
 * The statistical analyzer of ev_qa_analysis.py (`EVBatteryAnalyzer`): the
 * scaler and isolation forest are one opaque, deterministic model function;
 * what is modelled is what the analyzer does with its output — the summary
 * arithmetic, the severity classification and the stored outlier rows.
 */
module Analysis {
  import opened Wrappers

  /** One row of the telemetry frame handed to the analyzer. */
  datatype Row = Row(voltage: real, current: real, temp: real, soc: real, soh: real)

  /** The three columns the model is fitted on. */
  datatype Features = Features(voltage: real, current: real, temp: real)

  function FeaturesOf(frame: seq<Row>): (fs: seq<Features>)
    ensures |fs| == |frame|
    ensures forall i :: 0 <= i < |frame| ==> fs[i] == Features(frame[i].voltage, frame[i].current, frame[i].temp)
  {
    seq(|frame|, i requires 0 <= i < |frame| => Features(frame[i].voltage, frame[i].current, frame[i].temp))
  }

  /** What the fitted forest returns: a label per row (-1 outlier, 1 inlier) and a score per row, lower meaning more anomalous. */
  datatype Scoring = Scoring(labels: seq<int>, scores: seq<real>)

  predicate Conforms(s: Scoring, n: nat) {
    |s.labels| == n && |s.scores| == n && forall i :: 0 <= i < n ==> s.labels[i] == 1 || s.labels[i] == -1
  }

  /**
   * Standardisation followed by isolation-forest fitting and scoring, as a
   * function of the contamination, the random seed and the feature rows: the
   * same inputs always give the same labels and scores.
   */
  type Model = fit: (real, int, seq<Features>) -> Scoring
    | forall c, seed, fs :: Conforms(fit(c, seed, fs), |fs|)
    witness (c: real, seed: int, fs: seq<Features>) => Scoring(seq(|fs|, _ => 1), seq(|fs|, _ => 0.0))

  const DefaultContamination: real := 0.1
  const RandomState: int := 42
  const CriticalBelow: real := -0.8
  const WarningBelow: real := -0.5

  datatype Severity = Critical | Warning | Info

  function MinScore(scores: seq<real>): (m: real)
    requires |scores| > 0
    ensures forall i :: 0 <= i < |scores| ==> m <= scores[i]
    ensures exists i :: 0 <= i < |scores| && scores[i] == m
  {
    if |scores| == 1 then scores[0]
    else
      var rest := MinScore(scores[1..]);
      if scores[0] < rest then scores[0] else rest
  }

  /** `_assess_severity`: classifies the batch by its most anomalous score. */
  function AssessSeverity(scores: seq<real>): (s: Severity)
    requires |scores| > 0
    ensures s == Critical <==> exists i :: 0 <= i < |scores| && scores[i] < -0.8
    ensures s == Warning <==> (forall i :: 0 <= i < |scores| ==> scores[i] >= -0.8)
                              && exists i :: 0 <= i < |scores| && scores[i] < -0.5
    ensures s == Info <==> forall i :: 0 <= i < |scores| ==> scores[i] >= -0.5
  {
    var m := MinScore(scores);
    if m < CriticalBelow then Critical
    else if m < WarningBelow then Warning
    else Info
  }

  function Rank(s: Severity): nat {
    match s
    case Info => 0
    case Warning => 1
    case Critical => 2
  }

  /** Lowering scores never yields a less severe class. */
  lemma SeverityMonotone(higher: seq<real>, lower: seq<real>)
    requires |higher| == |lower| > 0
    requires forall i :: 0 <= i < |lower| ==> lower[i] <= higher[i]
    ensures Rank(AssessSeverity(lower)) >= Rank(AssessSeverity(higher))
  {
    var sh := AssessSeverity(higher);
    if sh == Critical {
      var i :| 0 <= i < |higher| && higher[i] < -0.8;
      assert lower[i] < -0.8;
    } else if sh == Warning {
      var i :| 0 <= i < |higher| && higher[i] < -0.5;
      assert lower[i] < -0.5;
    }
  }

  /** The positions labelled -1, increasing. */
  function OutlierPositions(labels: seq<int>): (ps: seq<nat>)
    ensures |ps| <= |labels|
    ensures forall k :: 0 <= k < |ps| ==> ps[k] < |labels| && labels[ps[k]] == -1
    ensures forall k, l :: 0 <= k < l < |ps| ==> ps[k] < ps[l]
    ensures forall i :: 0 <= i < |labels| && labels[i] == -1 ==> i in ps
    decreases |labels|
  {
    if labels == [] then []
    else
      var n := |labels| - 1;
      OutlierPositions(labels[..n]) + (if labels[n] == -1 then [n] else [])
  }

  /** The rows at the given positions, in that order. */
  function Select(frame: seq<Row>, ps: seq<nat>): (r: seq<Row>)
    requires forall k :: 0 <= k < |ps| ==> ps[k] < |frame|
    ensures |r| == |ps| && forall k :: 0 <= k < |ps| ==> r[k] == frame[ps[k]]
  {
    seq(|ps|, k requires 0 <= k < |ps| => frame[ps[k]])
  }

  /** The rows the model labels -1, in frame order: what `analyze_telemetry` keeps as `self.anomalies`. */
  function Outliers(frame: seq<Row>, scoring: Scoring): (r: seq<Row>)
    requires Conforms(scoring, |frame|)
    ensures |r| == |OutlierPositions(scoring.labels)|
    ensures forall row :: row in r ==> exists i :: 0 <= i < |frame| && scoring.labels[i] == -1 && frame[i] == row
    ensures forall i :: 0 <= i < |frame| && scoring.labels[i] == -1 ==> frame[i] in r
    ensures forall k :: 0 <= k < |r| ==> r[k] == frame[OutlierPositions(scoring.labels)[k]]
  {
    var ps := OutlierPositions(scoring.labels);
    var r := Select(frame, ps);
    assert forall i :: 0 <= i < |frame| && scoring.labels[i] == -1 ==> frame[i] in r by {
      forall i | 0 <= i < |frame| && scoring.labels[i] == -1 ensures frame[i] in r {
        var k :| 0 <= k < |ps| && ps[k] == i;
        assert r[k] == frame[i];
      }
    }
    r
  }

  /** The dictionary `analyze_telemetry` returns. */
  datatype Summary = Summary(totalSamples: nat, anomaliesDetected: nat, anomalyPercentage: real, severity: Severity)

  /** The summary of a frame given the model's output on it. */
  function Summarize(frame: seq<Row>, scoring: Scoring): (s: Summary)
    requires |frame| > 0 && Conforms(scoring, |frame|)
    ensures s.totalSamples == |frame|
    ensures s.anomaliesDetected == |OutlierPositions(scoring.labels)| <= s.totalSamples
    ensures s.anomalyPercentage == s.anomaliesDetected as real / s.totalSamples as real * 100.0
    ensures 0.0 <= s.anomalyPercentage <= 100.0
    ensures s.severity == AssessSeverity(scoring.scores)
  {
    var flagged := |OutlierPositions(scoring.labels)|;
    PercentageInRange(flagged, |frame|);
    Summary(|frame|, flagged, flagged as real / |frame| as real * 100.0, AssessSeverity(scoring.scores))
  }

  /** A part of a non-empty whole is between none and all of it, in percent. */
  lemma PercentageInRange(part: nat, whole: nat)
    requires 0 < whole && part <= whole
    ensures 0.0 <= part as real / whole as real * 100.0 <= 100.0
  {
    var ratio := part as real / whole as real;
    assert ratio * whole as real == part as real;
    assert ratio <= 1.0 by {
      assert (ratio - 1.0) * whole as real == part as real - whole as real <= 0.0;
    }
  }

  /** The state of charge and health never reach the model: frames that agree on voltage, current and temperature get the same summary. */
  lemma SummaryIgnoresSocAndSoh(a: seq<Row>, b: seq<Row>, model: Model, contamination: real, seed: int)
    requires |a| == |b| > 0
    requires forall i :: 0 <= i < |a| ==> a[i].voltage == b[i].voltage && a[i].current == b[i].current && a[i].temp == b[i].temp
    ensures Summarize(a, model(contamination, seed, FeaturesOf(a))) == Summarize(b, model(contamination, seed, FeaturesOf(b)))
  {
    assert FeaturesOf(a) == FeaturesOf(b);
  }

  class EVBatteryAnalyzer {
    const contamination: real
    const randomState: int
    /** The outlier rows of the last analysis; `None` before the first. */
    var anomalies: Option<seq<Row>>

    constructor (contamination: real)
      ensures this.contamination == contamination && randomState == RandomState && anomalies == None
    {
      this.contamination := contamination;
      randomState := RandomState;
      anomalies := None;
    }

    /**
     * `analyze_telemetry`: fits the model on voltage, current and temperature,
     * stores the rows labelled -1 and returns the summary. The frame must be
     * non-empty (the scaler cannot fit zero rows).
     */
    method AnalyzeTelemetry(frame: seq<Row>, model: Model) returns (summary: Summary)
      requires |frame| > 0
      modifies this
      ensures var scoring := model(contamination, randomState, FeaturesOf(frame));
              && summary == Summarize(frame, scoring)
              && anomalies == Some(Outliers(frame, scoring))
    {
      var scoring := model(contamination, randomState, FeaturesOf(frame));
      anomalies := Some(Outliers(frame, scoring));
      summary := Summarize(frame, scoring);
    }
  }
}
