/**
 * Threshold analysis of image metrics against the defect flag
 * (visualize_image_defects.py, section 4): a row is predicted defective when
 * its metric is at least the threshold; the confusion counts give precision
 * and recall. The rows are those of the production log merged with the image
 * table on `item_id`; the thresholds (seven evenly spaced values between the
 * column's 20% and 80% quantiles) are inputs.
 */
module ImageDefects {

  type Bit = b: int | 0 <= b <= 1

  /** The two metrics the analysis sweeps, in loop order. */
  datatype Metric = Blur | Noise

  const METRICS: seq<Metric> := [Blur, Noise]

  function MetricName(m: Metric): string {
    match m
    case Blur => "blur"
    case Noise => "noise"
  }

  /** The columns of one merged row that the analysis reads. */
  datatype Row = Row(defect: Bit, blur: real, noise: real)

  function Value(r: Row, m: Metric): real {
    match m
    case Blur => r.blur
    case Noise => r.noise
  }

  /** `pred = (df[col] >= thr).astype(int)` for one row. */
  function Prediction(r: Row, m: Metric, thr: real): (p: Bit)
    ensures p == 1 <==> Value(r, m) >= thr
  {
    if Value(r, m) >= thr then 1 else 0
  }

  /** Number of defective rows. */
  function Defects(rows: seq<Row>): (n: nat)
    ensures n <= |rows|
  {
    if rows == [] then 0 else Defects(rows[..|rows| - 1]) + rows[|rows| - 1].defect
  }

  /** Number of rows predicted defective. */
  function PredictedPositives(rows: seq<Row>, m: Metric, thr: real): (n: nat)
    ensures n <= |rows|
  {
    if rows == [] then 0
    else PredictedPositives(rows[..|rows| - 1], m, thr) + Prediction(rows[|rows| - 1], m, thr)
  }

  datatype Counts = Counts(tp: nat, fp: nat, fn: nat)

  /**
   * tp, fp and fn over all rows. Every defective row is a true positive or a
   * false negative, and every predicted row a true or a false positive.
   */
  function Confusion(rows: seq<Row>, m: Metric, thr: real): (c: Counts)
    ensures c.tp + c.fn == Defects(rows)
    ensures c.tp + c.fp == PredictedPositives(rows, m, thr)
  {
    if rows == [] then Counts(0, 0, 0)
    else
      var c := Confusion(rows[..|rows| - 1], m, thr);
      var r := rows[|rows| - 1];
      var p := Prediction(r, m, thr);
      Counts(c.tp + (if p == 1 && r.defect == 1 then 1 else 0),
             c.fp + (if p == 1 && r.defect == 0 then 1 else 0),
             c.fn + (if p == 0 && r.defect == 1 then 1 else 0))
  }

  /** tp/(tp+fp), or 0 when nothing is predicted positive. */
  function Precision(c: Counts): (p: real)
    ensures 0.0 <= p <= 1.0
    ensures c.tp + c.fp == 0 ==> p == 0.0
    ensures c.tp + c.fp > 0 ==> p * (c.tp + c.fp) as real == c.tp as real
  {
    if c.tp + c.fp > 0 then c.tp as real / (c.tp + c.fp) as real else 0.0
  }

  /** tp/(tp+fn), or 0 when there are no defects. */
  function Recall(c: Counts): (r: real)
    ensures 0.0 <= r <= 1.0
    ensures c.tp + c.fn == 0 ==> r == 0.0
    ensures c.tp + c.fn > 0 ==> r * (c.tp + c.fn) as real == c.tp as real
  {
    if c.tp + c.fn > 0 then c.tp as real / (c.tp + c.fn) as real else 0.0
  }

  /** Raising the threshold can only shrink the predicted-positive set, and with it tp. */
  lemma {:induction false} HigherThresholdFewerPositives(rows: seq<Row>, m: Metric, lo: real, hi: real)
    requires lo <= hi
    ensures PredictedPositives(rows, m, hi) <= PredictedPositives(rows, m, lo)
    ensures Confusion(rows, m, hi).tp <= Confusion(rows, m, lo).tp
  {
    if rows != [] {
      HigherThresholdFewerPositives(rows[..|rows| - 1], m, lo, hi);
    }
  }

  lemma RecallNonIncreasing(rows: seq<Row>, m: Metric, lo: real, hi: real)
    requires lo <= hi
    ensures Recall(Confusion(rows, m, hi)) <= Recall(Confusion(rows, m, lo))
  {
    HigherThresholdFewerPositives(rows, m, lo, hi);
    var a, b := Confusion(rows, m, lo), Confusion(rows, m, hi);
    if Defects(rows) > 0 {
      DivideMonotone(b.tp as real, a.tp as real, Defects(rows) as real);
    }
  }

  lemma DivideMonotone(x: real, y: real, d: real)
    requires x <= y && 0.0 < d
    ensures x / d <= y / d
  {
    assert y / d - x / d == (y - x) / d;
  }

  datatype ThresholdResult = ThresholdResult(metric: string, threshold: real, precision: real, recall: real)

  /** The dict appended for one (column, threshold) pair. */
  function ResultAt(rows: seq<Row>, m: Metric, thr: real): (r: ThresholdResult)
    ensures r.metric == MetricName(m) && r.threshold == thr
    ensures 0.0 <= r.precision <= 1.0 && 0.0 <= r.recall <= 1.0
  {
    var c := Confusion(rows, m, thr);
    ThresholdResult(MetricName(m), thr, Precision(c), Recall(c))
  }

  predicate Ascending(s: seq<real>) {
    forall i, j :: 0 <= i < j < |s| ==> s[i] <= s[j]
  }

  /**
   * The nested `for col` / `for thr` loop: every blur threshold in order, then
   * every noise threshold in order, one result each.
   */
  method ThresholdAnalysis(rows: seq<Row>, thresholds: Metric -> seq<real>) returns (results: seq<ThresholdResult>)
    ensures |results| == |thresholds(Blur)| + |thresholds(Noise)|
    ensures forall i :: 0 <= i < |thresholds(Blur)| ==>
      results[i] == ResultAt(rows, Blur, thresholds(Blur)[i])
    ensures forall i :: 0 <= i < |thresholds(Noise)| ==>
      results[|thresholds(Blur)| + i] == ResultAt(rows, Noise, thresholds(Noise)[i])
  {
    results := [];
    for c := 0 to |METRICS|
      invariant c == 0 ==> results == []
      invariant c == 1 ==> |results| == |thresholds(Blur)|
      invariant c == 2 ==> |results| == |thresholds(Blur)| + |thresholds(Noise)|
      invariant c >= 1 ==> forall i :: 0 <= i < |thresholds(Blur)| ==>
        results[i] == ResultAt(rows, Blur, thresholds(Blur)[i])
      invariant c == 2 ==> forall i :: 0 <= i < |thresholds(Noise)| ==>
        results[|thresholds(Blur)| + i] == ResultAt(rows, Noise, thresholds(Noise)[i])
    {
      var m := METRICS[c];
      var thrs := thresholds(m);
      var before := results;
      for k := 0 to |thrs|
        invariant |results| == |before| + k
        invariant results[..|before|] == before
        invariant forall i :: 0 <= i < k ==> results[|before| + i] == ResultAt(rows, m, thrs[i])
      {
        results := results + [ResultAt(rows, m, thrs[k])];
      }
    }
  }

  /**
   * Along ascending thresholds the recall of successive results of one metric
   * never increases.
   */
  lemma {:induction false} ResultsRecallNonIncreasing(rows: seq<Row>, m: Metric, thrs: seq<real>, i: nat, j: nat)
    requires Ascending(thrs) && i <= j < |thrs|
    ensures ResultAt(rows, m, thrs[j]).recall <= ResultAt(rows, m, thrs[i]).recall
  {
    RecallNonIncreasing(rows, m, thrs[i], thrs[j]);
  }
}
