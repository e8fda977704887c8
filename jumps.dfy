/**
 * The sudden-temperature-change rule that `detect_anomalies` applies in both
 * ev_qa_framework/framework.py and ev_qa_framework.py: for each consecutive
 * pair of readings, in arrival order, one entry when the absolute change is
 * strictly greater than 5 degrees.
 */
module TempJumps {

  const Threshold: real := 5.0

  function Abs(x: real): (r: real)
    ensures r >= 0.0 && (r == x || r == -x)
  {
    if x < 0.0 then -x else x
  }

  /** The size of the change from reading i-1 to reading i. */
  function Change(temps: seq<real>, i: nat): real
    requires 1 <= i < |temps|
  {
    Abs(temps[i] - temps[i - 1])
  }

  predicate IsJump(temps: seq<real>, i: nat)
    requires 1 <= i < |temps|
  {
    Change(temps, i) > Threshold
  }

  /** One anomaly entry: the message prefix of the framework that emits it and the change it reports. */
  datatype Anomaly = Anomaly(prefix: string, change: real)

  /** The entries the scan emits over `temps`, in reading order. */
  function Scan(prefix: string, temps: seq<real>): (r: seq<Anomaly>)
    ensures forall a :: a in r ==> a.prefix == prefix && a.change > Threshold
    ensures |r| <= if |temps| == 0 then 0 else |temps| - 1
    decreases |temps|
  {
    if |temps| < 2 then []
    else
      var n := |temps| - 1;
      Scan(prefix, temps[..n]) + (if IsJump(temps, n) then [Anomaly(prefix, Change(temps, n))] else [])
  }

  /** The positions i (1 <= i < |temps|) where the rule fires, increasing. */
  function JumpIndices(temps: seq<real>): (r: seq<nat>)
    ensures forall k :: 0 <= k < |r| ==> 1 <= r[k] < |temps| && IsJump(temps, r[k])
    ensures forall k, l :: 0 <= k < l < |r| ==> r[k] < r[l]
    ensures forall i :: 1 <= i < |temps| && IsJump(temps, i) ==> i in r
    decreases |temps|
  {
    if |temps| < 2 then []
    else
      var n := |temps| - 1;
      var before := JumpIndices(temps[..n]);
      assert forall i :: 1 <= i < n ==> Change(temps[..n], i) == Change(temps, i);
      before + (if IsJump(temps, n) then [n] else [])
  }

  /** Exactly one entry per position where the rule fires, in increasing position order, carrying that change. */
  lemma {:induction false} ScanReportsEachJump(prefix: string, temps: seq<real>)
    ensures |Scan(prefix, temps)| == |JumpIndices(temps)|
    ensures forall k :: 0 <= k < |JumpIndices(temps)| ==>
              Scan(prefix, temps)[k] == Anomaly(prefix, Change(temps, JumpIndices(temps)[k]))
    decreases |temps|
  {
    if |temps| >= 2 {
      var n := |temps| - 1;
      ScanReportsEachJump(prefix, temps[..n]);
      var js := JumpIndices(temps[..n]);
      forall k | 0 <= k < |js| ensures Change(temps[..n], js[k]) == Change(temps, js[k]) {
      }
    }
  }

  /** Fewer than two readings never produce an entry. */
  lemma ShortSeriesHasNoAnomalies(prefix: string, temps: seq<real>)
    requires |temps| < 2
    ensures Scan(prefix, temps) == []
  {
  }

  function Mirror(temps: seq<real>): (m: seq<real>)
    ensures |m| == |temps| && forall i :: 0 <= i < |temps| ==> m[i] == -temps[i]
  {
    seq(|temps|, i requires 0 <= i < |temps| => -temps[i])
  }

  /** The rule is direction-symmetric: turning every rise into a drop of the same size changes nothing. */
  lemma {:induction false} ScanIgnoresDirection(prefix: string, temps: seq<real>)
    ensures Scan(prefix, Mirror(temps)) == Scan(prefix, temps)
    decreases |temps|
  {
    if |temps| >= 2 {
      var n := |temps| - 1;
      assert Mirror(temps)[..n] == Mirror(temps[..n]);
      ScanIgnoresDirection(prefix, temps[..n]);
    }
  }

  /** The boundary cases of two readings: exactly 5 is not a jump, 5.1 is; drops count like rises. */
  lemma BoundaryExamples(prefix: string)
    ensures Scan(prefix, [30.0, 35.0]) == []
    ensures Scan(prefix, [30.0, 35.1]) == [Anomaly(prefix, 5.1)]
    ensures Scan(prefix, [50.0, 43.0]) == [Anomaly(prefix, 7.0)]
  {
  }

  /** Gradual change reports nothing; every jump of a longer series is reported, in order. */
  lemma SeriesExamples(prefix: string)
    ensures Scan(prefix, [35.0, 35.5, 36.0]) == []
    ensures Scan(prefix, [30.0, 37.0, 32.0, 40.0]) == [Anomaly(prefix, 7.0), Anomaly(prefix, 8.0)]
  {
    assert [30.0, 37.0, 32.0, 40.0][..3] == [30.0, 37.0, 32.0];
    assert [30.0, 37.0, 32.0][..2] == [30.0, 37.0];
    assert [35.0, 35.5, 36.0][..2] == [35.0, 35.5];
  }
}
