/**
 * The retro-simulation engine (src/engine.py): scores every record of a
 * portfolio with an injected underwriting model and aggregates the approvals.
 */
module Engine {
  import opened Wrappers
  import opened Ingestion
  import opened Modeling
  import opened Rounding

  /** The engine's output for one run; `prospectName` is attached by the caller, never by the engine. */
  datatype SimulationResults = SimulationResults(
    totalApplicationsProcessed: nat,
    decisionsFlippedToApprove: nat,
    potentialLiftPercentage: real,
    totalValueOfNewlyApprovedLoans: real,
    averageLoanValueOfLiftedApps: real,
    prospectName: Option<string>)

  predicate Approves(model: UnderwritingModel, record: LoanApplicationRecord) {
    model(record).simulatedDecision == Approve
  }

  /** How many records of the portfolio the model approves, counted as the loop counts them. */
  function ApprovedCount(model: UnderwritingModel, records: seq<LoanApplicationRecord>): nat {
    if records == [] then 0
    else
      var last := records[|records| - 1];
      ApprovedCount(model, records[..|records| - 1]) + (if Approves(model, last) then 1 else 0)
  }

  /** The running total of approved loan amounts, accumulated as the loop accumulates it. */
  function ApprovedValue(model: UnderwritingModel, records: seq<LoanApplicationRecord>): real {
    if records == [] then 0.0
    else
      var last := records[|records| - 1];
      ApprovedValue(model, records[..|records| - 1]) + (if Approves(model, last) then last.loanAmount else 0.0)
  }

  /** The approved records themselves, in portfolio order. */
  function ApprovedRecords(model: UnderwritingModel, records: seq<LoanApplicationRecord>)
      : (approved: seq<LoanApplicationRecord>)
    ensures |approved| <= |records|
    ensures forall r :: r in approved ==> r in records && Approves(model, r)
    ensures forall k :: 0 <= k < |records| && Approves(model, records[k]) ==> records[k] in approved
  {
    if records == [] then []
    else
      var rest := ApprovedRecords(model, records[1..]);
      if Approves(model, records[0]) then [records[0]] + rest else rest
  }

  /** The sum of the loan amounts of some records: positive for any non-empty list of valid records. */
  function SumLoanAmounts(records: seq<LoanApplicationRecord>): (total: real)
    ensures total >= 0.0
    ensures records != [] ==> total > 0.0
  {
    if records == [] then 0.0 else records[0].loanAmount + SumLoanAmounts(records[1..])
  }

  /** Percentage of processed records that were approved; 0 for an empty portfolio instead of dividing by zero. */
  function LiftPercentage(total: nat, flipped: nat): (lift: real)
    ensures total == 0 ==> lift == 0.0
    ensures total > 0 ==> lift * (total as real) == (flipped as real) * 100.0
    ensures flipped <= total ==> 0.0 <= lift <= 100.0
  {
    if total > 0 then (flipped as real / total as real) * 100.0 else 0.0
  }

  /** Mean approved loan amount; 0 when nothing was approved instead of dividing by zero. */
  function AverageLoanValue(totalValue: real, flipped: nat): (average: real)
    ensures flipped == 0 ==> average == 0.0
    ensures flipped > 0 ==> average * (flipped as real) == totalValue
    ensures totalValue >= 0.0 ==> average >= 0.0
  {
    if flipped > 0 then totalValue / flipped as real else 0.0
  }

  lemma {:induction false} ApprovedRecordsAppend(model: UnderwritingModel, records: seq<LoanApplicationRecord>,
                                                 record: LoanApplicationRecord)
    ensures ApprovedRecords(model, records + [record]) ==
      ApprovedRecords(model, records) + (if Approves(model, record) then [record] else [])
  {
    if records != [] {
      assert (records + [record])[1..] == records[1..] + [record];
      ApprovedRecordsAppend(model, records[1..], record);
    }
  }

  /**
   * Each record occurs among the approved records exactly as often as in the
   * portfolio when the model approves it, and not at all otherwise.
   */
  lemma {:induction false} ApprovedRecordsMultiplicity(model: UnderwritingModel, records: seq<LoanApplicationRecord>,
                                                       x: LoanApplicationRecord)
    ensures multiset(ApprovedRecords(model, records))[x] ==
      if Approves(model, x) then multiset(records)[x] else 0
  {
    if records != [] {
      assert records == [records[0]] + records[1..];
      ApprovedRecordsMultiplicity(model, records[1..], x);
    }
  }

  lemma {:induction false} SumLoanAmountsAppend(records: seq<LoanApplicationRecord>, more: seq<LoanApplicationRecord>)
    ensures SumLoanAmounts(records + more) == SumLoanAmounts(records) + SumLoanAmounts(more)
  {
    if records == [] {
      assert records + more == more;
    } else {
      assert (records + more)[1..] == records[1..] + more;
      SumLoanAmountsAppend(records[1..], more);
    }
  }

  /**
   * The loop's counter is the number of approved records and its running total is
   * the sum of loan amounts over exactly those records.
   */
  lemma {:induction false} CountAndValueAreOverApprovedRecords(model: UnderwritingModel,
                                                              records: seq<LoanApplicationRecord>)
    ensures ApprovedCount(model, records) == |ApprovedRecords(model, records)|
    ensures ApprovedValue(model, records) == SumLoanAmounts(ApprovedRecords(model, records))
  {
    if records != [] {
      var init, last := records[..|records| - 1], records[|records| - 1];
      assert records == init + [last];
      CountAndValueAreOverApprovedRecords(model, init);
      ApprovedRecordsAppend(model, init, last);
      SumLoanAmountsAppend(ApprovedRecords(model, init), if Approves(model, last) then [last] else []);
    }
  }

  /** At most every record is approved; the approved value is never negative, and positive exactly when something was approved. */
  lemma ApprovalTotalsBounds(model: UnderwritingModel, records: seq<LoanApplicationRecord>)
    ensures ApprovedCount(model, records) <= |records|
    ensures ApprovedValue(model, records) >= 0.0
    ensures ApprovedValue(model, records) > 0.0 <==> ApprovedCount(model, records) > 0
  {
    CountAndValueAreOverApprovedRecords(model, records);
  }

  /** The reported (rounded) lift lies in [0, 100]. */
  lemma ReportedLiftInRange(model: UnderwritingModel, records: seq<LoanApplicationRecord>)
    ensures var lift := Round2(LiftPercentage(|records|, ApprovedCount(model, records)));
      0.0 <= lift <= 100.0
  {
    ApprovalTotalsBounds(model, records);
    Round2WithinCents(LiftPercentage(|records|, ApprovedCount(model, records)), 0, 10000);
  }

  /** The reported (rounded) totals are never negative. */
  lemma ReportedValuesNonNegative(model: UnderwritingModel, records: seq<LoanApplicationRecord>)
    ensures Round2(ApprovedValue(model, records)) >= 0.0
    ensures Round2(AverageLoanValue(ApprovedValue(model, records), ApprovedCount(model, records))) >= 0.0
  {
    var value := ApprovedValue(model, records);
    ApprovalTotalsBounds(model, records);
    var average := AverageLoanValue(value, ApprovedCount(model, records));
    Round2Monotone(0.0, value);
    Round2Monotone(0.0, average);
    Round2OfCents(0);
  }

  class RetroSimulationEngine {
    /** The injected scoring strategy: the engine's only state. */
    const model: UnderwritingModel

    constructor (model: UnderwritingModel)
      ensures this.model == model
    {
      this.model := model;
    }

    /**
     * Scores every record of the portfolio and aggregates the approvals.
     * `scored` records the prediction each record receives.
     */
    method RunSimulation(records: seq<LoanApplicationRecord>)
        returns (results: SimulationResults, ghost scored: seq<PredictionResult>)
      ensures |scored| == |records|
      ensures forall k :: 0 <= k < |records| ==> scored[k] == model(records[k])
      ensures results.totalApplicationsProcessed == |records|
      ensures results.decisionsFlippedToApprove == ApprovedCount(model, records)
      ensures results.potentialLiftPercentage ==
        Round2(LiftPercentage(|records|, ApprovedCount(model, records)))
      ensures results.totalValueOfNewlyApprovedLoans == Round2(ApprovedValue(model, records))
      ensures results.averageLoanValueOfLiftedApps ==
        Round2(AverageLoanValue(ApprovedValue(model, records), ApprovedCount(model, records)))
      ensures results.prospectName == None
    {
      var totalApplications := |records|;
      var flippedDecisions := 0;
      var totalValueOfFlippedLoans := 0.0;
      scored := [];
      for i := 0 to |records|
        invariant |scored| == i
        invariant forall k :: 0 <= k < i ==> scored[k] == model(records[k])
        invariant flippedDecisions == ApprovedCount(model, records[..i])
        invariant totalValueOfFlippedLoans == ApprovedValue(model, records[..i])
      {
        var record := records[i];
        var prediction := model(record);
        scored := scored + [prediction];
        assert records[..i + 1][..i] == records[..i];
        if prediction.simulatedDecision == Approve {
          flippedDecisions := flippedDecisions + 1;
          totalValueOfFlippedLoans := totalValueOfFlippedLoans + record.loanAmount;
        }
      }
      assert records[..|records|] == records;
      var liftPercentage := if totalApplications > 0
        then (flippedDecisions as real / totalApplications as real) * 100.0
        else 0.0;
      var avgLoanValue := if flippedDecisions > 0
        then totalValueOfFlippedLoans / flippedDecisions as real
        else 0.0;
      results := SimulationResults(
        totalApplications,
        flippedDecisions,
        Round2(liftPercentage),
        Round2(totalValueOfFlippedLoans),
        Round2(avgLoanValue),
        None);
    }
  }

  /** Two runs of one engine over the same records give identical results. */
  method RerunGivesIdenticalResults(engine: RetroSimulationEngine, records: seq<LoanApplicationRecord>)
      returns (first: SimulationResults, second: SimulationResults)
    ensures first == second
  {
    ghost var scored;
    first, scored := engine.RunSimulation(records);
    second, scored := engine.RunSimulation(records);
  }

  /** One high-income application: everything is approved. */
  method HighIncomePortfolio() returns (results: SimulationResults)
    ensures results == SimulationResults(1, 1, 100.0, 10000.0, 10000.0, None)
  {
    var record: LoanApplicationRecord := LoanApplication("A", 10000.0, 100000.0, 0.1);
    HighIncomeRecordIsApproved();
    var engine := new RetroSimulationEngine(MockCashAtlasModel);
    ghost var scored;
    results, scored := engine.RunSimulation([record]);
    assert [record][..0] == [];
    Round2OfCents(10000);
    Round2OfCents(1000000);
  }

  /** One low-income application: nothing is approved, and no division by zero occurs. */
  method LowIncomePortfolio() returns (results: SimulationResults)
    ensures results == SimulationResults(1, 0, 0.0, 0.0, 0.0, None)
  {
    var record: LoanApplicationRecord := LoanApplication("B", 50000.0, 30000.0, 0.8);
    LowIncomeRecordIsDeclined();
    var engine := new RetroSimulationEngine(MockCashAtlasModel);
    ghost var scored;
    results, scored := engine.RunSimulation([record]);
    assert [record][..0] == [];
    Round2OfCents(0);
  }

  /** An empty portfolio reports zeros everywhere. */
  method EmptyPortfolio(model: UnderwritingModel) returns (results: SimulationResults)
    ensures results == SimulationResults(0, 0, 0.0, 0.0, 0.0, None)
  {
    var engine := new RetroSimulationEngine(model);
    ghost var scored;
    results, scored := engine.RunSimulation([]);
    Round2OfCents(0);
  }
}
