/** Threshold sweep over a fixed score vector and the choice of operating modes
    (src/evaluation/operating_policy.py, scripts/build_operating_policy.py). */
module OperatingPolicies {
  import opened Prelude

  datatype PolicyState = Warning | NoWarning

  datatype SweepError = IntervalNotPositive | LengthMismatch | EmptyVectors | ThresholdOutOfRange | NonBinaryLabels | ScoreOutOfRange

  /** One swept threshold. There is no false-positive rate without negatives. */
  datatype SweepRow = SweepRow(threshold: real, precision: real, recall: real, f1: real, fpr: Option<real>, alerts: nat,
                               positiveRate: real, negativeRate: real, alertsPerMinute: real,
                               falseAlertShare: real, missedShare: real, tp: nat, fp: nat, tn: nat, fn: nat)

  datatype Modes = Modes(sensitive: SweepRow, balanced: SweepRow, conservative: SweepRow)

  datatype ModeError = NoFalsePositiveRate | NoSensitiveCandidate | NoRecall

  predicate UnitRange(x: real) {
    0.0 <= x <= 1.0
  }

  /** The boundary itself warns. */
  function ClassifyScore(score: real, threshold: real): Result<PolicyState, SweepError> {
    if !UnitRange(threshold) then Err(ThresholdOutOfRange)
    else if !UnitRange(score) then Err(ScoreOutOfRange)
    else Ok(if score >= threshold then Warning else NoWarning)
  }

  // ---- The confusion matrix ----

  /** How many states with the given label score at least the threshold. */
  function Above(labels: seq<int>, scores: seq<real>, wanted: int, threshold: real): nat
    requires |labels| == |scores|
  {
    if labels == [] then 0
    else
      Above(Front(labels), Front(scores), wanted, threshold)
      + if Last(labels) == wanted && Last(scores) >= threshold then 1 else 0
  }

  function Below(labels: seq<int>, scores: seq<real>, wanted: int, threshold: real): nat
    requires |labels| == |scores|
  {
    if labels == [] then 0
    else
      Below(Front(labels), Front(scores), wanted, threshold)
      + if Last(labels) == wanted && Last(scores) < threshold then 1 else 0
  }

  function Support(labels: seq<int>, wanted: int): nat {
    if labels == [] then 0 else Support(Front(labels), wanted) + if Last(labels) == wanted then 1 else 0
  }

  function Rate(numerator: int, denominator: int): real {
    if denominator == 0 then 0.0 else numerator as real / denominator as real
  }

  function RowFor(labels: seq<int>, scores: seq<real>, threshold: real, intervalSeconds: nat): SweepRow
    requires |labels| == |scores|
  {
    var tp, fp := Above(labels, scores, 1, threshold), Above(labels, scores, 0, threshold);
    var fn, tn := Below(labels, scores, 1, threshold), Below(labels, scores, 0, threshold);
    var n := |labels|;
    SweepRow(threshold, Rate(tp, tp + fp), Rate(tp, tp + fn), Rate(2 * tp, 2 * tp + fp + fn),
             if fp + tn == 0 then None else Some(Rate(fp, fp + tn)), tp + fp,
             Rate(tp + fp, n), Rate(tn + fn, n), Rate((tp + fp) * 60, n * intervalSeconds),
             Rate(fp, tp + fp), Rate(fn, fn + tp), tp, fp, tn, fn)
  }

  function EvaluationError(labels: seq<int>, scores: seq<real>, threshold: real): Option<SweepError>
  {
    if !UnitRange(threshold) then Some(ThresholdOutOfRange)
    else if exists i :: 0 <= i < |labels| && labels[i] != 0 && labels[i] != 1 then Some(NonBinaryLabels)
    else if exists i :: 0 <= i < |scores| && !UnitRange(scores[i]) then Some(ScoreOutOfRange)
    else None
  }

  function SweepRows(labels: seq<int>, scores: seq<real>, thresholds: seq<real>, intervalSeconds: nat): Result<seq<SweepRow>, SweepError>
    requires |labels| == |scores|
  {
    if thresholds == [] then Ok([])
    else
      match SweepRows(labels, scores, Front(thresholds), intervalSeconds)
      case Err(e) => Err(e)
      case Ok(rows) =>
        match EvaluationError(labels, scores, Last(thresholds))
        case Some(e) => Err(e)
        case None => Ok(rows + [RowFor(labels, scores, Last(thresholds), intervalSeconds)])
  }

  function Sweep(labels: seq<int>, scores: seq<real>, thresholds: seq<real>, intervalSeconds: int): Result<seq<SweepRow>, SweepError> {
    if intervalSeconds < 1 then Err(IntervalNotPositive)
    else if |labels| != |scores| then Err(LengthMismatch)
    else if labels == [] then Err(EmptyVectors)
    else SweepRows(labels, scores, thresholds, intervalSeconds)
  }

  method ComputeThresholdSweep(labels: seq<int>, scores: seq<real>, thresholds: seq<real>, intervalSeconds: int)
    returns (result: Result<seq<SweepRow>, SweepError>)
    ensures result == Sweep(labels, scores, thresholds, intervalSeconds)
  {
    if intervalSeconds < 1 {
      return Err(IntervalNotPositive);
    }
    if |labels| != |scores| {
      return Err(LengthMismatch);
    }
    if labels == [] {
      return Err(EmptyVectors);
    }
    var rows: seq<SweepRow> := [];
    for i := 0 to |thresholds|
      invariant SweepRows(labels, scores, thresholds[..i], intervalSeconds) == Ok(rows)
    {
      assert Front(thresholds[..i + 1]) == thresholds[..i];
      var error := EvaluationError(labels, scores, thresholds[i]);
      if error.Some? {
        FailureStays(labels, scores, thresholds, i + 1, intervalSeconds);
        return Err(error.value);
      }
      rows := rows + [RowFor(labels, scores, thresholds[i], intervalSeconds)];
    }
    assert thresholds[..|thresholds|] == thresholds;
    result := Ok(rows);
  }

  lemma {:induction false} FailureStays(labels: seq<int>, scores: seq<real>, thresholds: seq<real>, i: nat,
                                        intervalSeconds: nat)
    requires |labels| == |scores| && i <= |thresholds|
    requires SweepRows(labels, scores, thresholds[..i], intervalSeconds).Err?
    ensures SweepRows(labels, scores, thresholds, intervalSeconds) == SweepRows(labels, scores, thresholds[..i], intervalSeconds)
    decreases |thresholds|
  {
    if i == |thresholds| {
      assert thresholds[..i] == thresholds;
    } else {
      assert Front(thresholds)[..i] == thresholds[..i];
      FailureStays(labels, scores, Front(thresholds), i, intervalSeconds);
    }
  }

  // ---- Mode selection ----

  function SensitiveCandidates(rows: seq<SweepRow>): seq<SweepRow> {
    Filter(rows, (r: SweepRow) => r.fpr.Some? && r.fpr.value <= 0.25)
  }

  function Recalling(rows: seq<SweepRow>): seq<SweepRow> {
    Filter(rows, (r: SweepRow) => r.recall > 0.0)
  }

  function Restrained(rows: seq<SweepRow>): seq<SweepRow> {
    Filter(rows, (r: SweepRow) => r.fpr.Some? && r.fpr.value <= 0.1 && r.recall > 0.0)
  }

  function BalancedCandidates(rows: seq<SweepRow>): seq<SweepRow> {
    if Restrained(rows) != [] then Restrained(rows) else Recalling(rows)
  }

  function FprOf(r: SweepRow): real {
    if r.fpr.Some? then r.fpr.value else 0.0
  }

  function Abs(x: real): real {
    if x < 0.0 then -x else x
  }

  /** A strictly higher recall, or the same at a lower threshold. */
  predicate MoreSensitive(a: SweepRow, b: SweepRow) {
    a.recall > b.recall || (a.recall == b.recall && a.threshold < b.threshold)
  }

  predicate MoreBalanced(a: SweepRow, b: SweepRow) {
    var x, y := Abs(a.precision - a.recall), Abs(b.precision - b.recall);
    || x < y
    || (x == y && (a.precision > b.precision || (a.precision == b.precision && a.threshold < b.threshold)))
  }

  predicate MoreConservative(a: SweepRow, b: SweepRow) {
    || FprOf(a) < FprOf(b)
    || (FprOf(a) == FprOf(b)
        && (a.precision > b.precision || (a.precision == b.precision && a.threshold > b.threshold)))
  }

  /** The best row by a strict order; of equals, the first. */
  function Pick(rows: seq<SweepRow>, better: (SweepRow, SweepRow) -> bool): SweepRow
    requires rows != []
  {
    if |rows| == 1 then rows[0]
    else
      var best := Pick(Front(rows), better);
      if better(Last(rows), best) then Last(rows) else best
  }

  function SelectModes(rows: seq<SweepRow>): Result<Modes, ModeError> {
    if exists i :: 0 <= i < |rows| && rows[i].fpr.None? then Err(NoFalsePositiveRate)
    else if SensitiveCandidates(rows) == [] then Err(NoSensitiveCandidate)
    else if Recalling(rows) == [] then Err(NoRecall)
    else
      Ok(Modes(Pick(SensitiveCandidates(rows), MoreSensitive),
               Pick(BalancedCandidates(rows), MoreBalanced),
               Pick(Recalling(rows), MoreConservative)))
  }

  // ---- Counts and rates over thresholds ----

  lemma {:induction false} MatrixCountsStates(labels: seq<int>, scores: seq<real>, wanted: int, threshold: real)
    requires |labels| == |scores|
    ensures Above(labels, scores, wanted, threshold) + Below(labels, scores, wanted, threshold) == Support(labels, wanted)
  {
    if labels != [] {
      MatrixCountsStates(Front(labels), Front(scores), wanted, threshold);
    }
  }

  /** Raising the threshold never adds alerts. */
  lemma {:induction false} AlertsNeverRise(labels: seq<int>, scores: seq<real>, wanted: int, low: real, high: real)
    requires |labels| == |scores| && low <= high
    ensures Above(labels, scores, wanted, high) <= Above(labels, scores, wanted, low)
  {
    if labels != [] {
      AlertsNeverRise(Front(labels), Front(scores), wanted, low, high);
    }
  }

  lemma {:induction false} RateGrows(a: nat, b: nat, n: nat)
    requires a <= b && n > 0
    ensures Rate(a, n) <= Rate(b, n)
  {
    var x, y, d := a as real, b as real, n as real;
    assert y / d - x / d == (y - x) / d;
    assert (y - x) / d >= 0.0;
  }

  ghost predicate BothClasses(labels: seq<int>) {
    Support(labels, 0) > 0 && Support(labels, 1) > 0
  }

  /** With both classes present neither recall nor the false-positive rate rises with the threshold. */
  lemma {:induction false} RatesNeverRise(labels: seq<int>, scores: seq<real>, low: real, high: real, intervalSeconds: nat)
    requires |labels| == |scores| && BothClasses(labels) && low <= high
    ensures
      var a, b := RowFor(labels, scores, low, intervalSeconds), RowFor(labels, scores, high, intervalSeconds);
      && a.fpr.Some? && b.fpr.Some?
      && b.recall <= a.recall && b.fpr.value <= a.fpr.value
  {
    MatrixCountsStates(labels, scores, 0, low);
    MatrixCountsStates(labels, scores, 0, high);
    MatrixCountsStates(labels, scores, 1, low);
    MatrixCountsStates(labels, scores, 1, high);
    AlertsNeverRise(labels, scores, 0, low, high);
    AlertsNeverRise(labels, scores, 1, low, high);
    RateGrows(Above(labels, scores, 0, high), Above(labels, scores, 0, low), Support(labels, 0));
    RateGrows(Above(labels, scores, 1, high), Above(labels, scores, 1, low), Support(labels, 1));
  }

  function Warned(scores: seq<real>, threshold: real): nat {
    if scores == [] then 0
    else Warned(Front(scores), threshold) + if ClassifyScore(Last(scores), threshold) == Ok(Warning) then 1 else 0
  }

  /** The alerts of a swept threshold are the scores the policy would classify as warnings. */
  lemma {:induction false} AlertsAreWarnings(labels: seq<int>, scores: seq<real>, threshold: real)
    requires |labels| == |scores| && EvaluationError(labels, scores, threshold) == None
    ensures Above(labels, scores, 1, threshold) + Above(labels, scores, 0, threshold) == Warned(scores, threshold)
    decreases |labels|
  {
    if labels != [] {
      assert forall i :: 0 <= i < |Front(labels)| ==> Front(labels)[i] == labels[i] && Front(scores)[i] == scores[i];
      AlertsAreWarnings(Front(labels), Front(scores), threshold);
      assert labels[|labels| - 1] == Last(labels) && scores[|scores| - 1] == Last(scores);
    }
  }

  // ---- The sweep's rows ----

  lemma {:induction false} SweptRows(labels: seq<int>, scores: seq<real>, thresholds: seq<real>, intervalSeconds: nat)
    requires |labels| == |scores| && SweepRows(labels, scores, thresholds, intervalSeconds).Ok?
    ensures
      var rows := SweepRows(labels, scores, thresholds, intervalSeconds).value;
      && |rows| == |thresholds|
      && forall i :: 0 <= i < |rows| ==> rows[i] == RowFor(labels, scores, thresholds[i], intervalSeconds)
  {
    if thresholds != [] {
      SweptRows(labels, scores, Front(thresholds), intervalSeconds);
    }
  }

  /** What the selection needs of a sweep: rates present, and never rising with the threshold. */
  ghost predicate Falling(rows: seq<SweepRow>) {
    && (forall i :: 0 <= i < |rows| ==> rows[i].fpr.Some?)
    && (forall i, j :: 0 <= i < |rows| && 0 <= j < |rows| && rows[i].threshold <= rows[j].threshold ==>
          rows[j].recall <= rows[i].recall && FprOf(rows[j]) <= FprOf(rows[i]))
  }

  lemma {:induction false} SweepIsFalling(labels: seq<int>, scores: seq<real>, thresholds: seq<real>, intervalSeconds: int)
    requires Sweep(labels, scores, thresholds, intervalSeconds).Ok? && BothClasses(labels)
    ensures Falling(Sweep(labels, scores, thresholds, intervalSeconds).value)
  {
    var rows := Sweep(labels, scores, thresholds, intervalSeconds).value;
    SweptRows(labels, scores, thresholds, intervalSeconds);
    forall i | 0 <= i < |rows|
      ensures rows[i].fpr.Some?
    {
      RatesNeverRise(labels, scores, thresholds[i], thresholds[i], intervalSeconds);
    }
    forall i, j | 0 <= i < |rows| && 0 <= j < |rows| && rows[i].threshold <= rows[j].threshold
      ensures rows[j].recall <= rows[i].recall && FprOf(rows[j]) <= FprOf(rows[i])
    {
      RatesNeverRise(labels, scores, thresholds[i], thresholds[j], intervalSeconds);
    }
  }

  // ---- What is picked ----

  ghost predicate StrictOrder(better: (SweepRow, SweepRow) -> bool) {
    && (forall a :: !better(a, a))
    && (forall a, b, c :: better(a, b) && !better(c, b) ==> !better(c, a))
    && (forall a, b, c :: better(a, b) && !better(c, b) ==> better(a, c))
  }

  /** Pick returns a row of the list that no other row beats and that beats all before it, so of
      equals the first. */
  lemma {:induction false} PickIsBest(rows: seq<SweepRow>, better: (SweepRow, SweepRow) -> bool)
    requires rows != [] && StrictOrder(better)
    ensures Pick(rows, better) in rows
    ensures forall r :: r in rows ==> !better(r, Pick(rows, better))
    ensures exists i :: 0 <= i < |rows| && rows[i] == Pick(rows, better) && BeatsAll(rows[i], rows[..i], better)
  {
    FrontAndLast(rows);
    if |rows| == 1 {
      assert rows[0] == Pick(rows, better) && BeatsAll(rows[0], rows[..0], better);
    } else {
      var fewer, last := Front(rows), Last(rows);
      PickIsBest(fewer, better);
      var best := Pick(fewer, better);
      if better(last, best) {
        assert rows[..|rows| - 1] == fewer;
        assert BeatsAll(rows[|rows| - 1], rows[..|rows| - 1], better);
      } else {
        var i :| 0 <= i < |fewer| && fewer[i] == best && BeatsAll(fewer[i], fewer[..i], better);
        assert rows[i] == best && rows[..i] == fewer[..i];
      }
    }
  }

  ghost predicate BeatsAll(r: SweepRow, others: seq<SweepRow>, better: (SweepRow, SweepRow) -> bool) {
    forall x :: x in others ==> better(r, x)
  }

  /** The three modes come from their candidates and are not beaten there. */
  lemma {:induction false} ModesAreBest(rows: seq<SweepRow>)
    requires SelectModes(rows).Ok?
    ensures
      var m := SelectModes(rows).value;
      && m.sensitive in SensitiveCandidates(rows)
      && (forall r :: r in SensitiveCandidates(rows) ==> !MoreSensitive(r, m.sensitive))
      && m.balanced in BalancedCandidates(rows)
      && (forall r :: r in BalancedCandidates(rows) ==> !MoreBalanced(r, m.balanced))
      && m.conservative in Recalling(rows)
      && (forall r :: r in Recalling(rows) ==> !MoreConservative(r, m.conservative))
  {
    PickIsBest(SensitiveCandidates(rows), MoreSensitive);
    PickIsBest(BalancedCandidates(rows), MoreBalanced);
    PickIsBest(Recalling(rows), MoreConservative);
  }

  lemma {:induction false} CandidatesHold(rows: seq<SweepRow>, r: SweepRow)
    ensures r in SensitiveCandidates(rows) <==> r in rows && r.fpr.Some? && r.fpr.value <= 0.25
    ensures r in Recalling(rows) <==> r in rows && r.recall > 0.0
    ensures r in Restrained(rows) <==> r in rows && r.fpr.Some? && r.fpr.value <= 0.1 && r.recall > 0.0
  {
    FilterKeepsExactly(rows, (x: SweepRow) => x.fpr.Some? && x.fpr.value <= 0.25, r);
    FilterKeepsExactly(rows, (x: SweepRow) => x.recall > 0.0, r);
    FilterKeepsExactly(rows, (x: SweepRow) => x.fpr.Some? && x.fpr.value <= 0.1 && x.recall > 0.0, r);
  }

  /** The sensitive mode is exactly the lowest swept threshold whose false-positive rate is at
      most 0.25. */
  lemma {:induction false} SensitiveIsLowestThreshold(rows: seq<SweepRow>)
    requires Falling(rows) && SelectModes(rows).Ok?
    ensures
      var sensitive := SelectModes(rows).value.sensitive;
      && sensitive in rows && FprOf(sensitive) <= 0.25
      && forall r :: r in rows && FprOf(r) <= 0.25 ==> sensitive.threshold <= r.threshold
  {
    var sensitive := SelectModes(rows).value.sensitive;
    ModesAreBest(rows);
    CandidatesHold(rows, sensitive);
    forall r | r in rows && FprOf(r) <= 0.25
      ensures sensitive.threshold <= r.threshold
    {
      CandidatesHold(rows, r);
    }
  }

  /** A row with recall that no other row with recall beats. */
  ghost predicate MostBalanced(rows: seq<SweepRow>, r: SweepRow) {
    r in rows && r.recall > 0.0 && forall x :: x in rows && x.recall > 0.0 ==> !MoreBalanced(x, r)
  }

  /** Some row with recall has rate at most 0.10, or the most balanced one has at most 0.25. */
  ghost predicate BalanceIsTame(rows: seq<SweepRow>) {
    || (exists r :: r in rows && FprOf(r) <= 0.1 && r.recall > 0.0)
    || (exists r :: MostBalanced(rows, r) && FprOf(r) <= 0.25)
  }

  lemma {:induction false} RestrainedExactly(rows: seq<SweepRow>)
    requires Falling(rows)
    ensures Restrained(rows) != [] <==> exists r :: r in rows && FprOf(r) <= 0.1 && r.recall > 0.0
  {
    if Restrained(rows) != [] {
      CandidatesHold(rows, Restrained(rows)[0]);
    } else {
      forall r | r in rows
        ensures !(FprOf(r) <= 0.1 && r.recall > 0.0)
      {
        CandidatesHold(rows, r);
      }
    }
  }

  /** Without a restrained row the balanced mode is a most balanced row, and all of those have
      its rate. */
  lemma {:induction false} PickedIsMostBalanced(rows: seq<SweepRow>, r: SweepRow)
    requires Falling(rows) && SelectModes(rows).Ok? && Restrained(rows) == []
    ensures MostBalanced(rows, SelectModes(rows).value.balanced)
    ensures MostBalanced(rows, r) ==> FprOf(r) == FprOf(SelectModes(rows).value.balanced)
  {
    var m := SelectModes(rows).value;
    ModesAreBest(rows);
    CandidatesHold(rows, m.balanced);
    forall x | x in rows && x.recall > 0.0
      ensures !MoreBalanced(x, m.balanced)
    {
      CandidatesHold(rows, x);
    }
    if MostBalanced(rows, r) {
      assert r.threshold == m.balanced.threshold;
    }
  }

  lemma {:induction false} BalancedRate(rows: seq<SweepRow>)
    requires Falling(rows) && SelectModes(rows).Ok?
    ensures FprOf(SelectModes(rows).value.balanced) <= 0.25 <==> BalanceIsTame(rows)
    ensures Restrained(rows) != [] ==> FprOf(SelectModes(rows).value.balanced) <= 0.1
  {
    var m := SelectModes(rows).value;
    RestrainedExactly(rows);
    if Restrained(rows) != [] {
      ModesAreBest(rows);
      CandidatesHold(rows, m.balanced);
    } else {
      forall r
        ensures MostBalanced(rows, r) ==> FprOf(r) == FprOf(m.balanced)
      {
        PickedIsMostBalanced(rows, r);
      }
      PickedIsMostBalanced(rows, m.balanced);
    }
  }

  /** The false-positive rates of the modes are ordered: conservative at most balanced always, and
      balanced at most sensitive if and only if some row with recall has rate at most 0.10 or the
      most balanced row with recall has rate at most 0.25. */
  lemma {:induction false} ModesAreOrdered(rows: seq<SweepRow>)
    requires Falling(rows) && SelectModes(rows).Ok?
    ensures
      var m := SelectModes(rows).value;
      && FprOf(m.conservative) <= FprOf(m.balanced)
      && (FprOf(m.balanced) <= FprOf(m.sensitive) <==> BalanceIsTame(rows))
      && (Restrained(rows) != [] ==> FprOf(m.balanced) <= 0.1)
  {
    var m := SelectModes(rows).value;
    ModesAreBest(rows);
    CandidatesHold(rows, m.balanced);
    SensitiveIsLowestThreshold(rows);
    BalancedRate(rows);
    assert m.balanced in rows && m.sensitive in rows;
    assert FprOf(m.balanced) <= 0.25 ==> m.sensitive.threshold <= m.balanced.threshold;
  }

  /** Both results for the rows of a sweep with both classes present. */
  lemma {:induction false} SweptModes(labels: seq<int>, scores: seq<real>, thresholds: seq<real>, intervalSeconds: int)
    requires Sweep(labels, scores, thresholds, intervalSeconds).Ok? && BothClasses(labels)
    requires SelectModes(Sweep(labels, scores, thresholds, intervalSeconds).value).Ok?
    ensures
      var rows := Sweep(labels, scores, thresholds, intervalSeconds).value;
      var m := SelectModes(rows).value;
      && m.sensitive in rows && FprOf(m.sensitive) <= 0.25
      && (forall r :: r in rows && FprOf(r) <= 0.25 ==> m.sensitive.threshold <= r.threshold)
      && FprOf(m.conservative) <= FprOf(m.balanced)
      && (FprOf(m.balanced) <= FprOf(m.sensitive) <==> BalanceIsTame(rows))
      && (Restrained(rows) != [] ==> FprOf(m.balanced) <= 0.1)
  {
    var rows := Sweep(labels, scores, thresholds, intervalSeconds).value;
    SweepIsFalling(labels, scores, thresholds, intervalSeconds);
    SensitiveIsLowestThreshold(rows);
    ModesAreOrdered(rows);
  }

  // ---- A sweep whose modes are out of order ----

  function Hit(actual: int, wanted: int, holds: bool): nat {
    if actual == wanted && holds then 1 else 0
  }

  lemma {:induction false} CountsAppend(labels: seq<int>, scores: seq<real>, a: int, x: real, wanted: int, threshold: real)
    requires |labels| == |scores|
    ensures Above(labels + [a], scores + [x], wanted, threshold) == Above(labels, scores, wanted, threshold) + Hit(a, wanted, x >= threshold)
    ensures Below(labels + [a], scores + [x], wanted, threshold) == Below(labels, scores, wanted, threshold) + Hit(a, wanted, x < threshold)
  {
    assert Front(labels + [a]) == labels && Front(scores + [x]) == scores;
  }

  lemma {:induction false} CountsOfTwo(a: int, b: int, x: real, y: real, wanted: int, threshold: real)
    ensures Above([a, b], [x, y], wanted, threshold) == Hit(a, wanted, x >= threshold) + Hit(b, wanted, y >= threshold)
    ensures Below([a, b], [x, y], wanted, threshold) == Hit(a, wanted, x < threshold) + Hit(b, wanted, y < threshold)
  {
    CountsAppend([], [], a, x, wanted, threshold);
    CountsAppend([a], [x], b, y, wanted, threshold);
    assert [] + [a] == [a] && [] + [x] == [x] && [a] + [b] == [a, b] && [x] + [y] == [x, y];
  }

  /** One negative that scores 0.9 and one positive that scores 0.5. */
  function InvertedRow(threshold: real): SweepRow {
    RowFor([0, 1], [0.9, 0.5], threshold, 1)
  }

  lemma {:induction false} InvertedRows()
    ensures InvertedRow(0.4).recall == 1.0 && InvertedRow(0.4).fpr == Some(1.0)
    ensures InvertedRow(1.0).recall == 0.0 && InvertedRow(1.0).fpr == Some(0.0)
  {
    CountsOfTwo(0, 1, 0.9, 0.5, 0, 0.4);
    CountsOfTwo(0, 1, 0.9, 0.5, 1, 0.4);
    CountsOfTwo(0, 1, 0.9, 0.5, 0, 1.0);
    CountsOfTwo(0, 1, 0.9, 0.5, 1, 1.0);
  }

  lemma {:induction false} SweepAppend(labels: seq<int>, scores: seq<real>, thresholds: seq<real>,
                                       rows: seq<SweepRow>, threshold: real)
    requires |labels| == |scores| && SweepRows(labels, scores, thresholds, 1) == Ok(rows)
    requires EvaluationError(labels, scores, threshold) == None
    ensures SweepRows(labels, scores, thresholds + [threshold], 1) == Ok(rows + [RowFor(labels, scores, threshold, 1)])
  {
    assert Front(thresholds + [threshold]) == thresholds;
  }

  lemma {:induction false} InvertedSweep()
    ensures Sweep([0, 1], [0.9, 0.5], [0.4, 1.0], 1) == Ok([InvertedRow(0.4), InvertedRow(1.0)])
  {
    SweepAppend([0, 1], [0.9, 0.5], [], [], 0.4);
    SweepAppend([0, 1], [0.9, 0.5], [] + [0.4], [] + [InvertedRow(0.4)], 1.0);
    assert [] + [0.4] + [1.0] == [0.4, 1.0];
    assert [] + [InvertedRow(0.4)] + [InvertedRow(1.0)] == [InvertedRow(0.4), InvertedRow(1.0)];
  }

  /** On this sweep of two thresholds the balanced mode alerts on every negative, and the sensitive
      mode on none. */
  lemma {:induction false} ModesOutOfOrder()
    ensures
      var swept := Sweep([0, 1], [0.9, 0.5], [0.4, 1.0], 1);
      swept.Ok? && SelectModes(swept.value).Ok? &&
      var m := SelectModes(swept.value).value;
      FprOf(m.balanced) == 1.0 && FprOf(m.sensitive) == 0.0
  {
    InvertedSweep();
    InvertedRows();
    var rows := [InvertedRow(0.4), InvertedRow(1.0)];
    SelectionFailsExactly(rows);
    assert rows[0] in rows && rows[1] in rows;
    ModesAreBest(rows);
    var m := SelectModes(rows).value;
    CandidatesHold(rows, m.sensitive);
    CandidatesHold(rows, m.balanced);
  }

  /** When selection fails on a sweep: no negatives, no rate at most 0.25, or no recall anywhere. */
  lemma {:induction false} SelectionFailsExactly(rows: seq<SweepRow>)
    ensures SelectModes(rows).Err? <==>
      || (exists r :: r in rows && r.fpr.None?)
      || (forall r :: r in rows ==> r.fpr.Some? && r.fpr.value > 0.25)
      || (forall r :: r in rows ==> r.recall <= 0.0)
  {
    if SelectModes(rows).Ok? {
      ModesAreBest(rows);
      CandidatesHold(rows, SelectModes(rows).value.sensitive);
      CandidatesHold(rows, SelectModes(rows).value.conservative);
      forall r | r in rows
        ensures r.fpr.Some?
      {
        var i :| 0 <= i < |rows| && rows[i] == r;
      }
    } else {
      EmptyCandidates(rows);
    }
  }

  lemma {:induction false} EmptyCandidates(rows: seq<SweepRow>)
    ensures SensitiveCandidates(rows) == [] ==> forall r :: r in rows ==> !(r.fpr.Some? && r.fpr.value <= 0.25)
    ensures Recalling(rows) == [] ==> forall r :: r in rows ==> r.recall <= 0.0
    ensures BalancedCandidates(rows) == [] ==> Recalling(rows) == []
  {
    forall r | r in rows
      ensures SensitiveCandidates(rows) == [] ==> !(r.fpr.Some? && r.fpr.value <= 0.25)
      ensures Recalling(rows) == [] ==> r.recall <= 0.0
    {
      CandidatesHold(rows, r);
    }
  }
}
