/**
 * Loading and validating a prospect's portfolio (src/ingestion.py).
 *
 * A validated record can only exist with its four field bounds satisfied, so
 * `LoanApplicationRecord` is a subset type. The CSV file is given as the rows
 * its reader yields, already split into fields; opening, decoding and parsing
 * the text are not modelled.
 */
module Ingestion {
  import opened Wrappers

  /** The four fields of one portfolio row. */
  datatype LoanApplication = LoanApplication(
    applicationId: string,
    loanAmount: real,
    statedIncome: real,
    debtToIncomeRatio: real)

  /** The bounds declared on the record's fields. */
  predicate SatisfiesFieldConstraints(a: LoanApplication) {
    |a.applicationId| >= 1 &&
    a.loanAmount > 0.0 &&
    a.statedIncome > 0.0 &&
    a.debtToIncomeRatio >= 0.0
  }

  /** A record that passed validation. */
  type LoanApplicationRecord = a: LoanApplication | SatisfiesFieldConstraints(a)
    witness LoanApplication("0", 1.0, 1.0, 0.0)

  /**
   * One data row as the CSV reader hands it over: each field is `None` when the
   * cell is missing or its text does not convert to the field's type.
   */
  datatype CsvRow = CsvRow(
    applicationId: Option<string>,
    loanAmount: Option<real>,
    statedIncome: Option<real>,
    debtToIncomeRatio: Option<real>)

  /**
   * The input file: whether it exists, the data rows its reader yields (the
   * header excluded), and whether reading stops with an error after those rows
   * instead of at the end of the file.
   */
  datatype CsvSource = CsvSource(
    path: string,
    fileExists: bool,
    rows: seq<CsvRow>,
    endsInError: bool)

  /** Why reading and processing the file failed (the wrapped exception). */
  datatype ReadCause =
    | InvalidRow(rowNumber: nat)  // a row failed validation; the reader's row index + 2
    | ReadFailed                  // decoding or reading the file failed

  /** The three kinds of error a load can end in. */
  datatype LoadError =
    | FileNotFoundError(path: string)
    | IOError(cause: ReadCause)
    | ValueError  // the file has no data rows

  /** Building one record from one row: accepted exactly when all four bounds hold. */
  function ValidateRow(row: CsvRow): (r: Option<LoanApplicationRecord>)
    ensures r.Some? <==>
      row.applicationId.Some? && |row.applicationId.value| >= 1 &&
      row.loanAmount.Some? && row.loanAmount.value > 0.0 &&
      row.statedIncome.Some? && row.statedIncome.value > 0.0 &&
      row.debtToIncomeRatio.Some? && row.debtToIncomeRatio.value >= 0.0
    ensures r.Some? ==>
      r.value.applicationId == row.applicationId.value &&
      r.value.loanAmount == row.loanAmount.value &&
      r.value.statedIncome == row.statedIncome.value &&
      r.value.debtToIncomeRatio == row.debtToIncomeRatio.value
  {
    if row.applicationId.None? || row.loanAmount.None? ||
       row.statedIncome.None? || row.debtToIncomeRatio.None? then
      None
    else
      var a := LoanApplication(row.applicationId.value, row.loanAmount.value,
                               row.statedIncome.value, row.debtToIncomeRatio.value);
      if SatisfiesFieldConstraints(a) then Some(a) else None
  }

  /** The zero-based index of the first row that fails validation, if any. */
  function FirstInvalidRow(rows: seq<CsvRow>): (r: Option<nat>)
    ensures r.Some? ==>
      r.value < |rows| && ValidateRow(rows[r.value]).None? &&
      forall j :: 0 <= j < r.value ==> ValidateRow(rows[j]).Some?
    ensures r.None? ==> forall j :: 0 <= j < |rows| ==> ValidateRow(rows[j]).Some?
  {
    if rows == [] then None
    else if ValidateRow(rows[0]).None? then Some(0)
    else match FirstInvalidRow(rows[1..])
      case None => None
      case Some(i) => Some(i + 1)
  }

  /** The records built from rows that all pass validation, one per row, in order. */
  function ValidatedRecords(rows: seq<CsvRow>): (records: seq<LoanApplicationRecord>)
    requires forall j :: 0 <= j < |rows| ==> ValidateRow(rows[j]).Some?
    ensures |records| == |rows|
    ensures forall j :: 0 <= j < |rows| ==> Some(records[j]) == ValidateRow(rows[j])
  {
    seq(|rows|, j requires 0 <= j < |rows| => ValidateRow(rows[j]).value)
  }

  /** What loading the source yields: every record, or the error that ends the load. */
  function Load(source: CsvSource): Result<seq<LoanApplicationRecord>, LoadError> {
    if !source.fileExists then Failure(FileNotFoundError(source.path))
    else match FirstInvalidRow(source.rows)
      case Some(i) => Failure(IOError(InvalidRow(i + 2)))
      case None =>
        if source.endsInError then Failure(IOError(ReadFailed))
        else if source.rows == [] then Failure(ValueError)
        else Success(ValidatedRecords(source.rows))
  }

  /**
   * Reads the rows in order, appending each validated record; the first row
   * that fails validation abandons the records gathered so far.
   */
  method LoadAndValidateCsv(source: CsvSource)
      returns (result: Result<seq<LoanApplicationRecord>, LoadError>)
    ensures result == Load(source)
  {
    if !source.fileExists {
      return Failure(FileNotFoundError(source.path));
    }
    var records: seq<LoanApplicationRecord> := [];
    var i := 0;
    while i < |source.rows|
      invariant 0 <= i <= |source.rows|
      invariant |records| == i
      invariant forall j :: 0 <= j < i ==> Some(records[j]) == ValidateRow(source.rows[j])
    {
      var record := ValidateRow(source.rows[i]);
      if record.None? {
        return Failure(IOError(InvalidRow(i + 2)));
      }
      records := records + [record.value];
      i := i + 1;
    }
    if source.endsInError {
      return Failure(IOError(ReadFailed));
    }
    if records == [] {
      return Failure(ValueError);
    }
    assert records == ValidatedRecords(source.rows);
    result := Success(records);
  }

  /** A load succeeds exactly when the file exists, reads to its end, and has only valid rows, at least one. */
  lemma LoadSucceedsIff(source: CsvSource)
    ensures Load(source).Success? <==>
      source.fileExists && !source.endsInError && |source.rows| > 0 &&
      forall j :: 0 <= j < |source.rows| ==> ValidateRow(source.rows[j]).Some?
  {
  }

  /** On success there is one record per row, in order, each valid and carrying its row's values. */
  lemma LoadSuccessPreservesRows(source: CsvSource, k: nat)
    requires Load(source).Success?
    requires k < |source.rows|
    ensures |Load(source).value| == |source.rows| > 0
    ensures var rec, row := Load(source).value[k], source.rows[k];
      SatisfiesFieldConstraints(rec) &&
      Some(rec.applicationId) == row.applicationId &&
      Some(rec.loanAmount) == row.loanAmount &&
      Some(rec.statedIncome) == row.statedIncome &&
      Some(rec.debtToIncomeRatio) == row.debtToIncomeRatio
  {
  }

  /** The first invalid row aborts the whole load with an error naming row number `i + 2`. */
  lemma FirstInvalidRowAbortsLoad(source: CsvSource, i: nat)
    requires source.fileExists
    requires i < |source.rows| && ValidateRow(source.rows[i]).None?
    requires forall j :: 0 <= j < i ==> ValidateRow(source.rows[j]).Some?
    ensures Load(source) == Failure(IOError(InvalidRow(i + 2)))
  {
  }

  /** A file with no data rows that reads without error is a ValueError, not an IOError. */
  lemma EmptyInputIsValueError(source: CsvSource)
    requires source.fileExists && source.rows == [] && !source.endsInError
    ensures Load(source) == Failure(ValueError)
  {
  }

  /** A missing file is reported as such, whatever its rows would have been. */
  lemma MissingFileIsNotFound(source: CsvSource)
    requires !source.fileExists
    ensures Load(source) == Failure(FileNotFoundError(source.path))
    ensures forall e :: Load(source) == Failure(e) ==> !e.IOError? && !e.ValueError?
  {
  }

  /** An invalid row is reported before a read failure that comes after it. */
  lemma InvalidRowTakesPrecedence(source: CsvSource)
    requires source.fileExists && source.endsInError
    requires FirstInvalidRow(source.rows).Some?
    ensures Load(source).Failure? && Load(source).error.IOError?
    ensures Load(source).error.cause.InvalidRow?
  {
  }
}
