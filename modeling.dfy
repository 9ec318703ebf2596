/**
 * Underwriting models (src/modeling.py): the scoring interface the engine
 * depends on, and the placeholder Cash Atlas model.
 */
module Modeling {
  import opened Ingestion

  datatype Decision = Approve | Decline

  /** One model's verdict on one record. */
  datatype PredictionResult = PredictionResult(
    cashFlowStabilityScore: real,
    simulatedDecision: Decision)

  /**
   * The interface every underwriting model adheres to: one `predict` operation.
   * A total arrow type has no state to read, so a prediction depends only on
   * the record's fields.
   */
  type UnderwritingModel = LoanApplicationRecord -> PredictionResult

  const MinScore: real := 300.0
  const MaxScore: real := 850.0
  const ApprovalThreshold: real := 650.0

  /** The score before clamping; the division is defined because validation keeps loans positive. */
  function RawScore(record: LoanApplicationRecord): real {
    var incomeToLoanRatio := record.statedIncome / record.loanAmount;
    300.0 + incomeToLoanRatio * 100.0 - record.debtToIncomeRatio * 200.0
  }

  function Max(a: real, b: real): real { if a >= b then a else b }

  function Min(a: real, b: real): real { if a <= b then a else b }

  /** `max(lo, min(hi, x))`: x pulled into [lo, hi]. */
  function Clamp(x: real, lo: real, hi: real): (c: real)
    requires lo <= hi
    ensures lo <= c <= hi
    ensures lo <= x <= hi ==> c == x
    ensures x < lo ==> c == lo
    ensures x > hi ==> c == hi
  {
    Max(lo, Min(hi, x))
  }

  /** The placeholder model's prediction for one record. */
  function MockCashAtlasPredict(record: LoanApplicationRecord): (p: PredictionResult)
    ensures MinScore <= p.cashFlowStabilityScore <= MaxScore
    ensures MinScore <= RawScore(record) <= MaxScore ==> p.cashFlowStabilityScore == RawScore(record)
    ensures RawScore(record) < MinScore ==> p.cashFlowStabilityScore == MinScore
    ensures RawScore(record) > MaxScore ==> p.cashFlowStabilityScore == MaxScore
    ensures p.simulatedDecision == Approve <==> p.cashFlowStabilityScore > ApprovalThreshold
  {
    var score := Clamp(RawScore(record), MinScore, MaxScore);
    var decision := if score > ApprovalThreshold then Approve else Decline;
    PredictionResult(score, decision)
  }

  /** The placeholder model as a value of the interface type. */
  const MockCashAtlasModel: UnderwritingModel := MockCashAtlasPredict

  /** Because the threshold lies inside the clamp range, the decision can be read off the raw score. */
  lemma ApprovesIffRawScoreAboveThreshold(record: LoanApplicationRecord)
    ensures MockCashAtlasPredict(record).simulatedDecision == Approve <==> RawScore(record) > ApprovalThreshold
  {
  }

  /** Raising the stated income, all else fixed, never lowers the score nor turns approval into decline. */
  lemma ScoreNonDecreasingInIncome(a: LoanApplicationRecord, b: LoanApplicationRecord)
    requires a.loanAmount == b.loanAmount && a.debtToIncomeRatio == b.debtToIncomeRatio
    requires a.statedIncome <= b.statedIncome
    ensures MockCashAtlasPredict(a).cashFlowStabilityScore <= MockCashAtlasPredict(b).cashFlowStabilityScore
    ensures MockCashAtlasPredict(a).simulatedDecision == Approve ==> MockCashAtlasPredict(b).simulatedDecision == Approve
  {
    var loan := a.loanAmount;
    assert b.statedIncome / loan - a.statedIncome / loan == (b.statedIncome - a.statedIncome) / loan;
    assert RawScore(a) <= RawScore(b);
  }

  /**
   * A higher income relative to the loan amount, at the same debt-to-income ratio,
   * never lowers the score nor turns approval into decline.
   */
  lemma ScoreNonDecreasingInIncomeToLoanRatio(a: LoanApplicationRecord, b: LoanApplicationRecord)
    requires a.debtToIncomeRatio == b.debtToIncomeRatio
    requires a.statedIncome / a.loanAmount <= b.statedIncome / b.loanAmount
    ensures MockCashAtlasPredict(a).cashFlowStabilityScore <= MockCashAtlasPredict(b).cashFlowStabilityScore
    ensures MockCashAtlasPredict(a).simulatedDecision == Approve ==> MockCashAtlasPredict(b).simulatedDecision == Approve
  {
    assert RawScore(a) <= RawScore(b);
  }

  /** A smaller loan at the same income and ratio never lowers the score nor turns approval into decline. */
  lemma ScoreNonIncreasingInLoanAmount(a: LoanApplicationRecord, b: LoanApplicationRecord)
    requires a.statedIncome == b.statedIncome && a.debtToIncomeRatio == b.debtToIncomeRatio
    requires a.loanAmount <= b.loanAmount
    ensures MockCashAtlasPredict(b).cashFlowStabilityScore <= MockCashAtlasPredict(a).cashFlowStabilityScore
    ensures MockCashAtlasPredict(b).simulatedDecision == Approve ==> MockCashAtlasPredict(a).simulatedDecision == Approve
  {
    var income := a.statedIncome;
    assert income / b.loanAmount <= income / a.loanAmount by {
      assert income / b.loanAmount * b.loanAmount == income;
      assert income / a.loanAmount * a.loanAmount == income;
      assert income / b.loanAmount * a.loanAmount <= income;
    }
    ScoreNonDecreasingInIncomeToLoanRatio(b, a);
  }

  /** Raising the debt-to-income ratio, all else fixed, never raises the score nor turns decline into approval. */
  lemma ScoreNonIncreasingInDebtRatio(a: LoanApplicationRecord, b: LoanApplicationRecord)
    requires a.loanAmount == b.loanAmount && a.statedIncome == b.statedIncome
    requires a.debtToIncomeRatio <= b.debtToIncomeRatio
    ensures MockCashAtlasPredict(b).cashFlowStabilityScore <= MockCashAtlasPredict(a).cashFlowStabilityScore
    ensures MockCashAtlasPredict(b).simulatedDecision == Approve ==> MockCashAtlasPredict(a).simulatedDecision == Approve
  {
  }

  /** Loan 10000, income 100000, ratio 0.1: raw score 1280, clamped to 850, approved. */
  lemma HighIncomeRecordIsApproved()
    ensures var record := LoanApplication("A", 10000.0, 100000.0, 0.1);
      RawScore(record) == 1280.0 &&
      MockCashAtlasPredict(record) == PredictionResult(850.0, Approve)
  {
  }

  /** Loan 50000, income 30000, ratio 0.8: raw score 200, clamped to 300, declined. */
  lemma LowIncomeRecordIsDeclined()
    ensures var record := LoanApplication("B", 50000.0, 30000.0, 0.8);
      RawScore(record) == 200.0 &&
      MockCashAtlasPredict(record) == PredictionResult(300.0, Decline)
  {
  }

  /** A score of exactly 650 is declined. */
  lemma ThresholdScoreIsDeclined(record: LoanApplicationRecord)
    requires RawScore(record) == 650.0
    ensures MockCashAtlasPredict(record) == PredictionResult(650.0, Decline)
  {
  }
}
