# Retro-simulation pipeline of the credit-risk analytics toolkit, in Dafny

The toolkit takes a prospect's portfolio of loan applications as a CSV file. It
re-scores every application with an alternative underwriting model and reports
the "lift": how many applications, and how much loan value, that model would
approve. This project models the three parts of that pipeline and proves what
each part promises:

- **Record validation** (`ingestion.dfy`, module `Ingestion`). A validated
  `LoanApplicationRecord` is a subset type: a non-empty `applicationId`, a
  positive `loanAmount`, a positive `statedIncome` and a non-negative
  `debtToIncomeRatio`. `LoadAndValidateCsv` walks the reader's rows in order.
  It stops at the first row that fails validation, keeping no records, and
  reports that row's number as the reader's zero-based row index `i` plus 2. A missing file, a row
  error wrapped as an I/O error, a read failure and an empty file are distinct
  outcomes of a `Result`. Its loop is proved against the specification
  function `Load`, and lemmas state what `Load` means.
- **Scoring strategy** (`modeling.dfy`, module `Modeling`). The interface is
  the total arrow type `UnderwritingModel = LoanApplicationRecord ->
  PredictionResult`. A value of this type reads no state, so a prediction
  depends only on the record. The placeholder Cash Atlas model computes
  `300 + (income / loan) * 100 - dti * 200`, clamps it to [300, 850] and
  approves above 650. The proofs cover its range, its clamp, its threshold,
  its monotonicity in income, in income relative to the loan and in debt ratio, and the two worked examples.
- **Simulation engine** (`engine.dfy`, module `Engine`). The class
  `RetroSimulationEngine` receives its model in its constructor. Its
  `RunSimulation` loop counts the approvals and sums their loan amounts. The
  loop is proved against the specification functions `ApprovedCount` and
  `ApprovedValue`. Lemmas then tie those functions to the list of approved
  records itself. The lift and the average are guarded against a zero
  denominator, and their contracts state the ratio they compute.
- **Rounding** (`rounding.dfy`, module `Rounding`). Python's `round(x, 2)` is
  applied only to the engine's outputs. Here it is taken on exact reals: to
  the nearest hundredth, with ties going to the even hundredth.

Amounts are Dafny `real`s, so sums and quotients are exact.

`wrappers.dfy` holds the `Option` and `Result` datatypes.

## Model

| member | source | states |
|---|---|---|
| Ingestion.ValidateRow | src/ingestion.py:19-22 | a row is accepted exactly when the id is present and non-empty, the loan amount and income are present and > 0, and the debt ratio is present and >= 0; an accepted record carries the row's four values unchanged |
| Ingestion.FirstInvalidRow | src/ingestion.py:47-56 | finds the first row that fails validation: every earlier row passes, and `None` means every row passes |
| Ingestion.ValidatedRecords | src/ingestion.py:47-51 | one record per row, in row order, each equal to what validating its row yields |
| Ingestion.LoadAndValidateCsv | src/ingestion.py:40-64 | the in-order validation loop, with its early exit, read-failure check and empty-input check, returns exactly what `Load` specifies |
| Ingestion.LoadSucceedsIff | src/ingestion.py:40-64 | a load succeeds if and only if the file exists, reading reaches the end of the file, there is at least one row and every row is valid |
| Ingestion.LoadSuccessPreservesRows | src/ingestion.py:47-64 | on success there is one record per data row, in input order; each record satisfies the four bounds and holds its row's values |
| Ingestion.FirstInvalidRowAbortsLoad | src/ingestion.py:47-59 | when the reader's row `i` is the first invalid row, the whole load fails with an I/O error wrapping the row error for row number `i + 2`, and no records are returned |
| Ingestion.EmptyInputIsValueError | src/ingestion.py:61-62 | an existing file with no data rows and no read error fails with the empty-input ValueError, which is not re-wrapped |
| Ingestion.MissingFileIsNotFound | src/ingestion.py:40-41 | a nonexistent path gives FileNotFoundError for that path, raised before any reading, and never the wrapped read error or the empty-input error |
| Ingestion.InvalidRowTakesPrecedence | src/ingestion.py:47-59 | an invalid row is reported ahead of a read failure that occurs after it |
| Modeling.Clamp | src/modeling.py:57 | the clamped score lies in [lo, hi]; it equals the input when the input is already in range, and the nearer bound otherwise |
| Modeling.MockCashAtlasPredict | src/modeling.py:55-61 | the score lies in [300, 850]; it is the raw score unchanged when that is in range, 300 below and 850 above; the decision is APPROVE exactly when the score is > 650 |
| Modeling.ApprovesIffRawScoreAboveThreshold | src/modeling.py:56-59 | the placeholder model approves exactly when the unclamped score exceeds 650 |
| Modeling.ScoreNonDecreasingInIncome | src/modeling.py:51-57 | when the other fields are held fixed, a higher stated income never lowers the score and never turns an approval into a decline |
| Modeling.ScoreNonDecreasingInIncomeToLoanRatio | src/modeling.py:51-57 | at the same debt-to-income ratio, a higher income relative to the loan amount never lowers the score and never turns an approval into a decline |
| Modeling.ScoreNonIncreasingInLoanAmount | src/modeling.py:51-57 | at the same income and ratio, a smaller loan never lowers the score and never turns an approval into a decline |
| Modeling.ScoreNonIncreasingInDebtRatio | src/modeling.py:51-57 | when the other fields are held fixed, a higher debt-to-income ratio never raises the score and never turns a decline into an approval |
| Modeling.HighIncomeRecordIsApproved | src/modeling.py:55-59 | loan 10000, income 100000, ratio 0.1: raw score 1280, clamped to 850, APPROVE |
| Modeling.LowIncomeRecordIsDeclined | src/modeling.py:55-59 | loan 50000, income 30000, ratio 0.8: raw score 200, clamped to 300, DECLINE |
| Modeling.ThresholdScoreIsDeclined | src/modeling.py:59 | a score of exactly 650 declines |
| Rounding.RoundHalfEven | src/engine.py:74-78 | the result is the nearest integer, at most 0.5 away, and it is even when the input lies exactly halfway |
| Rounding.Round2 | src/engine.py:74-78 | the result is a whole number of hundredths at most 0.005 from the input; on a tie it is the even number of hundredths |
| Rounding.Round2Monotone | src/engine.py:74-78 | rounding never reverses the order of two values |
| Rounding.Round2OfCents | src/engine.py:74-78 | a value that is a whole number of hundredths is left unchanged by rounding |
| Rounding.Round2WithinCents | src/engine.py:74-78 | rounding keeps a value inside an interval whose ends are whole hundredths |
| Engine.ApprovedRecords | src/engine.py:53-57 | the approved records are drawn from the portfolio, are all approved by the model, include every approved record of the portfolio, and are no more numerous than the portfolio |
| Engine.ApprovedRecordsMultiplicity | src/engine.py:53-57 | each record occurs among the approved records exactly as often as in the portfolio when the model approves it, and not at all otherwise, so duplicate records are counted once per occurrence |
| Engine.SumLoanAmounts | src/engine.py:57 | a sum of validated loan amounts is >= 0, and > 0 for a non-empty list |
| Engine.LiftPercentage | src/engine.py:59-63 | the lift is 0 for an empty portfolio, so no division by zero occurs; otherwise lift × total = flipped × 100; it lies in [0, 100] when flipped <= total |
| Engine.AverageLoanValue | src/engine.py:65-69 | the average is 0 when nothing was approved; otherwise average × flipped = approved value; a non-negative approved value gives a non-negative average |
| Engine.ApprovedRecordsAppend | src/engine.py:53-57 | scoring one more record adds it to the approved list exactly when the model approves it |
| Engine.SumLoanAmountsAppend | src/engine.py:57 | the loan-amount sum of a concatenation is the sum of the two parts' sums |
| Engine.CountAndValueAreOverApprovedRecords | src/engine.py:50-57 | the loop's counter equals the number of approved records, and its running total equals the sum of loan amounts over exactly those records |
| Engine.ApprovalTotalsBounds | src/engine.py:50-57 | flipped <= total; the approved value is >= 0, and > 0 exactly when at least one record is approved |
| Engine.ReportedLiftInRange | src/engine.py:59-74 | the reported rounded lift lies in [0, 100] |
| Engine.ReportedValuesNonNegative | src/engine.py:57-78 | the reported rounded approved value and average are never negative |
| Engine.RetroSimulationEngine.constructor | src/engine.py:29-36 | the engine holds exactly the injected model |
| Engine.RetroSimulationEngine.RunSimulation | src/engine.py:38-79 | the prediction recorded for record `k` is `model(records[k])`; total = number of records; flipped = number of approvals; reported value, lift and average are the rounded approved sum, the rounded guarded ratio and the rounded guarded mean; no prospect name is attached |
| Engine.RerunGivesIdenticalResults | src/engine.py:36-79 | two runs of one engine on the same records return identical results, because the engine keeps no state besides its model |
| Engine.HighIncomePortfolio | src/engine.py:38-79 | the loan-10000 / income-100000 / ratio-0.1 record alone gives total 1, flipped 1, lift 100.0, value 10000.0, average 10000.0 |
| Engine.LowIncomePortfolio | src/engine.py:38-79 | the loan-50000 / income-30000 / ratio-0.8 record alone gives total 1, flipped 0, lift 0.0, value 0.0, average 0.0 |
| Engine.EmptyPortfolio | src/engine.py:59-69 | an empty portfolio gives zeros everywhere, with no division by zero |

## Left out

- Opening the file, UTF-8 decoding and the `csv.DictReader` parsing are I/O. The input is the sequence of rows the reader yields, with a flag saying whether reading stopped with an error after them.
- A row with more cells than the header makes the reader produce a `None` key, and `LoanApplicationRecord(**row)` then fails with a TypeError rather than a validation error. The outer handler wraps it as an I/O error with no row number. The model treats it as a read failure after the rows before it.
- Pydantic's conversion of text to float is a foreign library and is not modelled. Each field is an optional value that is already parsed; text that fails to convert counts as a missing field. Error message texts are not modelled either: only the error kind, the path and the row number are kept.
- IEEE float behaviour is not modelled: infinities, NaN and accumulation error are outside the model, and amounts are exact reals. Pydantic would, for example, accept the text "inf" as a positive loan amount.
- Rounding.Round2: this rounds the exact real value half-to-even. Python's `round` works on the binary double, so a decimal tie that is not exact in binary may round differently.
- The Python engine returns the integer `0`, not `0.0`, for the guarded lift and average. The model does not tell the two apart.
- A scoring model that raises an exception is not modelled. Models are total functions here, so a failing prediction cannot be expressed.
- Row numbers: the reported number is the reader's row index plus 2, as in the source. The CSV reader skips blank lines, and a quoted field may span several lines. In such files this number is not the physical line number, and the model does not relate it to one.
- Error kinds: the model's three `LoadError` tags are disjoint. In Python `IOError` is `OSError`, and `FileNotFoundError` is a subclass of it, so a handler for `IOError` also catches a missing file. This class nesting is not modelled.
- The docstring of `load_and_validate_csv` (src/ingestion.py:36-38) says a CSV validation error raises `ValueError`. The code re-wraps that error as `IOError` (src/ingestion.py:57-59), so only the empty-file error is a `ValueError`. The model follows the code.
- Only the prediction each record receives is stated. With a pure model, the number and order of calls to it cannot be observed.
- The `UnderwritingModelProtocol` structural interface becomes a function type, not an interface with a method. Other strategies are simply other values of that type.
- src/reporting.py is not part of this model: chart drawing, PNG/base64 encoding, HTML templating and PDF writing are presentation with no decision logic.
- src/main.py is not part of this model: the command line, console output, JSON printing, exit codes, and attaching `prospect_name` after the run are I/O glue. The model's results carry `prospectName` as `None`, as the engine leaves it.
- sample_data/populate_data.py is not part of this model: it is random data generation.
