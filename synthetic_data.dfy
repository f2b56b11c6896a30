/** The deterministic rules of the synthetic data generator: the fixed
    category and source tables, how one transaction is assembled from the
    random draws, how many transactions each customer gets, and the credit
    score rule of the bureau report.  Every random draw (Faker, numpy,
    `random`) is an input: a function from the customer id (and the
    transaction number) to the values drawn for it. */
module SyntheticData {

  const NoCustomers: nat := 1000
  const TransactionsPerCustomer: nat := 50

  const Categories: seq<string> := [
    "Salary Credit", "Shopping", "Food & Dining", "Loan EMI Payment",
    "Utility Bill", "Cash Withdrawals", "Transfers"
  ]

  /** The source lists, keyed exactly as written in the generator: note the
      singular keys "Cash Withdrawal" and "Transfer". */
  const Sources: map<string, seq<string>> := map[
    "Shopping" := ["Amazon", "Flipkart", "Myntra"],
    "Food & Dining" := ["Swiggy", "Zomato", "Starbucks"],
    "Loan EMI Payment" := ["HDFC Loan", "SBI Home Loan", "ICICI EMI"],
    "Utility Bill" := ["Electricity", "Water", "Broadband", "Gas"],
    "Cash Withdrawal" := ["ATM", "Bank"],
    "Transfer" := ["UPI", "IMPS", "NEFT"]
  ]

  /** `sources.get(category, [category])`. */
  function SourceOptions(category: string): (r: seq<string>)
    ensures |r| > 0
    ensures category !in Sources ==> r == [category]
  {
    if category in Sources then Sources[category] else [category]
  }

  type CategoryIndex = i: int | 0 <= i < 7

  /** A value of `random.random()`. */
  type Fraction = x: real | 0.0 <= x < 1.0

  /** What one iteration of `generate_transactions` draws: the category
      (`np.random.choice(categories)`), the position of the source in its
      option list, the fraction behind `random.uniform`, and the formatted
      date string. */
  datatype TxDraw = TxDraw(category: CategoryIndex, sourcePick: nat, fraction: Fraction, date: string)

  datatype Transaction = Transaction(customerId: int, date: string, category: string, source: string, amount: real)

  /** `random.uniform(lo, hi)`, which Python computes as lo + (hi - lo) * random(). */
  function Uniform(lo: real, hi: real, u: Fraction): (r: real)
    ensures lo <= hi ==> lo <= r <= hi
    ensures lo < hi ==> r < hi
    ensures u == 0.0 ==> r == lo
  {
    var d := hi - lo;
    assert d >= 0.0 ==> 0.0 <= d * u <= d by {
      if d >= 0.0 { assert d * u <= d * 1.0; }
    }
    assert d > 0.0 ==> d * u < d by {
      if d > 0.0 { assert d * u < d * 1.0; }
    }
    lo + d * u
  }

  /** One row `[customer_id, date, category, source, amount]`. */
  function MakeTransaction(customerId: int, d: TxDraw): (t: Transaction)
    ensures t.customerId == customerId && t.date == d.date
    ensures t.category in Categories
    ensures t.source in SourceOptions(t.category)
    ensures t.category == "Salary Credit" ==> 30000.0 <= t.amount <= 100000.0
    ensures t.category != "Salary Credit" ==> 50.0 <= t.amount <= 5000.0
  {
    var category := Categories[d.category];
    var options := SourceOptions(category);
    var source := options[d.sourcePick % |options|];
    var amount := if category != "Salary Credit" then Uniform(50.0, 5000.0, d.fraction)
                  else Uniform(30000.0, 100000.0, d.fraction);
    Transaction(customerId, d.date, category, source, amount)
  }

  /** The categories without a key in `Sources` draw their source from the
      one-element list holding the category itself: "Salary Credit" has no
      key, and "Cash Withdrawals" and "Transfers" do not match the singular
      keys. */
  lemma FallbackSourceIsCategory(customerId: int, d: TxDraw)
    requires Categories[d.category] in {"Salary Credit", "Cash Withdrawals", "Transfers"}
    ensures MakeTransaction(customerId, d).source == Categories[d.category]
  {
  }

  /** The source lists under "Cash Withdrawal" and "Transfer" are never used:
      no drawn transaction has ATM, Bank, UPI, IMPS or NEFT as its source. */
  lemma UnmatchedSourceListsUnused(customerId: int, d: TxDraw)
    ensures MakeTransaction(customerId, d).source !in Sources["Cash Withdrawal"] + Sources["Transfer"]
  {
    var t := MakeTransaction(customerId, d);
    assert t.category in Categories;
  }

  /** `generate_transactions(customer_id)`: fifty rows, the i-th built from
      the i-th draw, all carrying the customer's id. */
  method GenerateTransactions(customerId: int, draw: (int, nat) -> TxDraw) returns (txs: seq<Transaction>)
    ensures |txs| == TransactionsPerCustomer
    ensures forall i :: 0 <= i < |txs| ==>
      txs[i] == MakeTransaction(customerId, draw(customerId, i)) && txs[i].customerId == customerId
  {
    txs := [];
    for i := 0 to TransactionsPerCustomer
      invariant |txs| == i
      invariant forall j :: 0 <= j < i ==> txs[j] == MakeTransaction(customerId, draw(customerId, j))
    {
      txs := txs + [MakeTransaction(customerId, draw(customerId, i))];
    }
  }

  /** Row k of the generated table belongs to customer k / 50 + 1 and is
      that customer's (k % 50)-th transaction. */
  ghost predicate IsTransactionTable(data: seq<Transaction>, draw: (int, nat) -> TxDraw) {
    && |data| == NoCustomers * TransactionsPerCustomer
    && forall k :: 0 <= k < |data| ==>
         data[k] == MakeTransaction(k / 50 + 1, draw(k / 50 + 1, k % 50))
  }

  lemma DivModBlock(q: int, j: int)
    requires 0 <= q && 0 <= j < 50
    ensures (50 * q + j) / 50 == q && (50 * q + j) % 50 == j
  {
  }

  /** The loop over customer ids 1..1000 that extends `data` with each
      customer's transactions: 50 000 rows, in blocks of fifty per customer. */
  method GenerateAllTransactions(draw: (int, nat) -> TxDraw) returns (data: seq<Transaction>)
    ensures |data| == 50000
    ensures IsTransactionTable(data, draw)
  {
    data := [];
    for c := 1 to NoCustomers + 1
      invariant |data| == 50 * (c - 1)
      invariant forall k :: 0 <= k < |data| ==> data[k] == MakeTransaction(k / 50 + 1, draw(k / 50 + 1, k % 50))
    {
      var txs := GenerateTransactions(c, draw);
      data := data + txs;
      forall k | 50 * (c - 1) <= k < |data|
        ensures data[k] == MakeTransaction(k / 50 + 1, draw(k / 50 + 1, k % 50))
      {
        DivModBlock(c - 1, k - 50 * (c - 1));
        assert data[k] == txs[k - 50 * (c - 1)];
      }
    }
  }

  /** In such a table every customer id lies in 1..1000, and customer c owns
      exactly the fifty rows 50(c-1) .. 50c-1. */
  lemma {:induction false} CustomerBlocks(data: seq<Transaction>, draw: (int, nat) -> TxDraw, c: int)
    requires IsTransactionTable(data, draw)
    requires 1 <= c <= NoCustomers
    ensures forall k :: 0 <= k < |data| ==> 1 <= data[k].customerId <= NoCustomers
    ensures forall k :: 0 <= k < |data| ==> (data[k].customerId == c <==> 50 * (c - 1) <= k < 50 * c)
    ensures |data[50 * (c - 1)..50 * c]| == TransactionsPerCustomer
  {
    forall k | 0 <= k < |data|
      ensures 1 <= data[k].customerId <= NoCustomers
      ensures data[k].customerId == c <==> 50 * (c - 1) <= k < 50 * c
    {
      DivModBlock(k / 50, k % 50);
      assert data[k].customerId == k / 50 + 1;
    }
  }

  // ------------------------------------------------------------------
  // Credit bureau report

  type LoanCount = n: int | 0 <= n <= 5
  type MissedDraw = n: int | 0 <= n <= 6

  /** The draws for one customer: `randint(0, 5)` loans, the rounded
      utilization, `randint(0, 6)` for missed payments (used only when there
      are loans), the rounded total debt and the rounded debt-to-income ratio. */
  datatype BureauDraw = BureauDraw(loans: LoanCount, utilization: real, missed: MissedDraw, debt: real, dti: real)

  datatype BureauRow = BureauRow(
    customerId: int, creditScore: int, existingLoans: int, utilization: real,
    missedPayments: int, totalOutstandingDebt: real, debtToIncome: real)

  /** `random.randint(0, 6) if existing_loans > 0 else 0`. */
  function MissedPayments(loans: int, drawn: MissedDraw): (m: int)
    ensures loans <= 0 ==> m == 0
    ensures 0 <= m <= 6
  {
    if loans > 0 then drawn else 0
  }

  function Indicator(b: bool): int { if b then 1 else 0 }

  /** The score before clamping, written as a sum of penalties rather than
      the generator's step-by-step decrements. */
  function Unclamped(loans: int, utilization: real, missed: int, debt: real, dti: real): (r: int)
    ensures r <= 900
    ensures r == 900 <==> loans <= 2 && utilization <= 0.5 && missed <= 0 && debt <= 250000.0 && dti <= 0.5
    ensures missed <= 0 ==> r >= 650
  {
    900
    - 50 * Indicator(loans > 2)
    - 100 * Indicator(utilization > 0.5)
    - 30 * (if missed > 0 then missed else 0)
    - 50 * Indicator(debt > 250000.0)
    - 50 * Indicator(dti > 0.5)
  }

  /** `max(lo, min(x, hi))`. */
  function Clamp(lo: int, hi: int, x: int): (r: int)
    ensures lo <= hi ==> lo <= r <= hi
    ensures lo <= x <= hi ==> r == x
    ensures lo <= hi < x ==> r == hi
    ensures x < lo ==> r == lo
  {
    var m := if x < hi then x else hi;
    if lo > m then lo else m
  }

  /** The generator's credit score: start at 900, subtract a penalty per
      triggered condition, then clamp to 300..900. */
  method CreditScore(loans: int, utilization: real, missed: int, debt: real, dti: real) returns (score: int)
    ensures score == Clamp(300, 900, Unclamped(loans, utilization, missed, debt, dti))
    ensures 300 <= score <= 900
  {
    score := 900;
    if loans > 2 {
      score := score - 50;
    }
    if utilization > 0.5 {
      score := score - 100;
    }
    if missed > 0 {
      score := score - missed * 30;
    }
    if debt > 250000.0 {
      score := score - 50;
    }
    if dti > 0.5 {
      score := score - 50;
    }
    var capped := if score < 900 then score else 900;
    score := if 300 > capped then 300 else capped;
  }

  /** The row appended for one customer. */
  function BureauRowOf(customerId: int, d: BureauDraw): (row: BureauRow)
    ensures row.customerId == customerId
    ensures 0 <= row.existingLoans <= 5
    ensures row.existingLoans == 0 ==> row.missedPayments == 0
    ensures 0 <= row.missedPayments <= 6
  {
    var missed := MissedPayments(d.loans, d.missed);
    BureauRow(customerId, Clamp(300, 900, Unclamped(d.loans, d.utilization, missed, d.debt, d.dti)),
              d.loans, d.utilization, missed, d.debt, d.dti)
  }

  /** The score always lies in 300..900. */
  lemma ScoreInRange(loans: int, utilization: real, missed: int, debt: real, dti: real)
    ensures 300 <= Clamp(300, 900, Unclamped(loans, utilization, missed, debt, dti)) <= 900
  {
  }

  /** With at most five loans and at most six missed payments the penalties
      add up to at most 430, so the score is at least 470 and the lower
      clamp never applies. */
  lemma LowerClampUnreached(customerId: int, d: BureauDraw)
    ensures var row := BureauRowOf(customerId, d);
      && row.creditScore >= 470
      && row.creditScore == Unclamped(row.existingLoans, row.utilization, row.missedPayments,
                                      row.totalOutstandingDebt, row.debtToIncome)
  {
  }

  /** More missed payments never raise the score. */
  lemma MissedPaymentsMonotone(loans: int, utilization: real, m1: int, m2: int, debt: real, dti: real)
    requires m1 <= m2
    ensures Clamp(300, 900, Unclamped(loans, utilization, m2, debt, dti))
         <= Clamp(300, 900, Unclamped(loans, utilization, m1, debt, dti))
  {
  }

  /** The loop over customer ids 1..1000 that appends one bureau row each. */
  method GenerateBureau(draw: int -> BureauDraw) returns (rows: seq<BureauRow>)
    ensures |rows| == NoCustomers
    ensures forall i :: 0 <= i < |rows| ==> rows[i] == BureauRowOf(i + 1, draw(i + 1))
  {
    rows := [];
    for customerId := 1 to NoCustomers + 1
      invariant |rows| == customerId - 1
      invariant forall i :: 0 <= i < |rows| ==> rows[i] == BureauRowOf(i + 1, draw(i + 1))
    {
      var d := draw(customerId);
      var missed := if d.loans > 0 then d.missed else 0;
      var score := CreditScore(d.loans, d.utilization, missed, d.debt, d.dti);
      rows := rows + [BureauRow(customerId, score, d.loans, d.utilization, missed, d.debt, d.dti)];
    }
  }
}
