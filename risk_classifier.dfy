/** The rule that labels a bureau record "High Risk" or "Low Risk", and the
    row-wise application that adds the `Risk Classification` column. */
module RiskClassifier {
  import opened SyntheticData

  datatype Risk = HighRisk | LowRisk

  /** The label strings written to the `Risk Classification` column. */
  function LabelText(r: Risk): (s: string)
    ensures s == "High Risk" || s == "Low Risk"
    ensures (s == "High Risk") == (r == HighRisk)
  {
    match r
    case HighRisk => "High Risk"
    case LowRisk => "Low Risk"
  }

  /** `classify_risk(row)`. */
  function ClassifyRisk(row: BureauRow): Risk {
    if row.creditScore < 650 || row.missedPayments >= 3
       || row.utilization > 0.7 || row.debtToIncome > 0.6
    then HighRisk
    else LowRisk
  }

  /** Each of the four conditions alone makes a record high risk. */
  lemma EachConditionIsHighRisk(row: BureauRow)
    ensures row.creditScore < 650 ==> ClassifyRisk(row) == HighRisk
    ensures row.missedPayments >= 3 ==> ClassifyRisk(row) == HighRisk
    ensures row.utilization > 0.7 ==> ClassifyRisk(row) == HighRisk
    ensures row.debtToIncome > 0.6 ==> ClassifyRisk(row) == HighRisk
  {
  }

  /** Low risk exactly when every threshold is respected; the boundary
      values 650, 2, 0.7 and 0.6 are on the low-risk side. */
  lemma LowRiskExactly(row: BureauRow)
    ensures ClassifyRisk(row) == LowRisk <==>
      row.creditScore >= 650 && row.missedPayments <= 2 && row.utilization <= 0.7 && row.debtToIncome <= 0.6
  {
  }

  /** A record that is no better on any of the four inputs is no less risky. */
  predicate NoBetter(worse: BureauRow, better: BureauRow) {
    && worse.creditScore <= better.creditScore
    && worse.missedPayments >= better.missedPayments
    && worse.utilization >= better.utilization
    && worse.debtToIncome >= better.debtToIncome
  }

  /** Monotonicity: worsening any input never turns high risk into low risk. */
  lemma Monotone(worse: BureauRow, better: BureauRow)
    requires NoBetter(worse, better)
    ensures ClassifyRisk(better) == HighRisk ==> ClassifyRisk(worse) == HighRisk
  {
  }

  /** A bureau record together with its new `Risk Classification` value. */
  datatype LabelledRow = LabelledRow(row: BureauRow, classification: string)

  /** `df['Risk Classification'] = df.apply(classify_risk, axis=1)`: every
      record keeps its place and gains exactly one label, one of the two. */
  function LabelRows(rows: seq<BureauRow>): (out: seq<LabelledRow>)
    ensures |out| == |rows|
    ensures forall i :: 0 <= i < |rows| ==>
      out[i].row == rows[i] && out[i].classification == LabelText(ClassifyRisk(rows[i]))
    ensures forall i :: 0 <= i < |out| ==> out[i].classification in {"High Risk", "Low Risk"}
  {
    if rows == [] then []
    else [LabelledRow(rows[0], LabelText(ClassifyRisk(rows[0])))] + LabelRows(rows[1..])
  }

  /** A generated customer with no loans, utilization at most 0.5, debt at
      most 250 000 and a ratio at most 0.5 has the maximal score 900 and is
      labelled low risk. */
  lemma CleanCustomerIsLowRisk(customerId: int, d: BureauDraw)
    requires d.loans == 0 && d.utilization <= 0.5 && d.debt <= 250000.0 && d.dti <= 0.5
    ensures BureauRowOf(customerId, d).creditScore == 900
    ensures ClassifyRisk(BureauRowOf(customerId, d)) == LowRisk
  {
  }
}
