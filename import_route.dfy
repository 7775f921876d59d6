/**
 * The CSV import handler of app/api/buyers/import/route.ts: at most 200
 * rows, each checked against the CSV schema; a rejected row is reported
 * by its 1-based number, an accepted one is mapped to a stored record, and
 * all accepted records go to the store in one transaction.
 */
module ImportRoute {
  import opened Wrappers
  import opened Text
  import opened Validation
  import opened Tables

  /** The largest number of data rows a file may hold. */
  const MaxRows: nat := 200

  /** The `file` field of the form, after `csv-parse`. */
  datatype Upload =
    | Missing                   // no `file` field
    | Unparseable               // `parse` throws
    | Rows(rows: seq<CsvRow>)   // the data rows, header excluded

  /** One entry of `errors`: the 1-based row number and what was wrong. */
  datatype RowError = RowError(row: nat, message: string)

  /** The answer of the handler. */
  datatype ImportResult =
    | NoFile                                               // 400, "No file uploaded"
    | TooManyRows                                          // 400, "CSV exceeds maximum allowed rows (200)"
    | Imported(inserted: nat, errors: seq<RowError>)       // 200, `{ inserted, errors }`
    | ImportFailed                                         // 500, "Failed to import CSV"

  function ImportStatus(r: ImportResult): nat {
    match r
    case NoFile => 400
    case TooManyRows => 400
    case Imported(_, _) => 200
    case ImportFailed => 500
  }

  /** The messages of the issues, in order. */
  function Wordings(issues: seq<Issue>): (r: seq<string>)
    ensures |r| == |issues|
    ensures forall i :: 0 <= i < |r| ==> r[i] == Wording(issues[i].message)
  {
    if |issues| == 0 then [] else [Wording(issues[0].message)] + Wordings(issues[1..])
  }

  /** The message of a rejected row: every issue's message, joined by ", ". */
  function RejectionMessage(issues: seq<Issue>): string {
    Join(Wordings(issues), ", ")
  }

  /** What one row adds: the errors it reports and the record it contributes, if any. */
  datatype RowOutcome = RowOutcome(errors: seq<RowError>, record: Option<BuyerRow>)

  /** The result of `validateCsvBuyer` on a row. */
  type Validated = Result<Lead, seq<Issue>>

  /**
   * The callback for row `index`, given its validation result: a schema
   * failure is one error; an accepted row whose timeline or source has no
   * table entry reports each missing one and contributes nothing; otherwise
   * it contributes its mapped record.
   */
  function Outcome(result: Validated, index: nat): (o: RowOutcome)
    ensures o.record.Some? <==> |o.errors| == 0
    ensures forall e :: e in o.errors ==> e.row == index + 1
    ensures result.Failure? ==> o.errors == [RowError(index + 1, RejectionMessage(result.error))]
  {
    match result
    case Failure(issues) => RowOutcome([RowError(index + 1, RejectionMessage(issues))], None)
    case Success(lead) =>
      var timeline := Lookup(TimelineMap, lead.timeline);
      var source := Lookup(SourceMap, lead.source);
      var errors :=
        (if timeline.None? then [RowError(index + 1, "Invalid timeline: " + lead.timeline)] else [])
        + (if source.None? then [RowError(index + 1, "Invalid source: " + lead.source)] else []);
      if timeline.Some? && source.Some? then RowOutcome(errors, Some(ImportRecord(lead, timeline.value, source.value)))
      else RowOutcome(errors, None)
  }

  /** An accepted result whose timeline and source have table entries. */
  predicate Mapped(result: Validated) {
    result.Success? ==> result.value.timeline in TimelineMap && result.value.source in SourceMap
  }

  /** `validateCsvBuyer` on every row, in order. */
  function Validations(rows: seq<CsvRow>): (r: seq<Validated>)
    ensures |r| == |rows|
  {
    if |rows| == 0 then [] else Validations(rows[..|rows| - 1]) + [ValidateCsvBuyer(rows[|rows| - 1])]
  }

  /** The schema's spellings all have table entries. */
  lemma SpelledIsMapped(result: Validated)
    requires result.Success? ==> Spelled(result.value)
    ensures Mapped(result)
  {
    if result.Success? {
      SpelledLeadsMap(result.value);
    }
  }

  /** A row the CSV schema accepts has a timeline and a source with table entries. */
  lemma RowMapped(row: CsvRow)
    ensures Mapped(ValidateCsvBuyer(row))
  {
    SpelledIsMapped(ValidateCsvBuyer(row));
  }

  /** So does every accepted row of a file. */
  lemma {:induction false} ValidationsMapped(rows: seq<CsvRow>)
    ensures forall k :: 0 <= k < |rows| ==> Mapped(Validations(rows)[k])
  {
    if |rows| > 0 {
      ValidationsMapped(rows[..|rows| - 1]);
      RowMapped(rows[|rows| - 1]);
    }
  }

  /** The errors of the rows, in row order. */
  function ErrorsOf(results: seq<Validated>): seq<RowError> {
    if |results| == 0 then []
    else ErrorsOf(results[..|results| - 1]) + Outcome(results[|results| - 1], |results| - 1).errors
  }

  /** The records of the accepted rows, in row order (`validData`). */
  function RecordsOf(results: seq<Validated>): seq<BuyerRow> {
    if |results| == 0 then []
    else
      var o := Outcome(results[|results| - 1], |results| - 1);
      RecordsOf(results[..|results| - 1]) + (if o.record.Some? then [o.record.value] else [])
  }

  /** The 1-based numbers of the rows that contribute no record, in order. */
  function RejectedRows(results: seq<Validated>): seq<nat> {
    if |results| == 0 then []
    else
      var o := Outcome(results[|results| - 1], |results| - 1);
      RejectedRows(results[..|results| - 1]) + (if o.record.None? then [|results|] else [])
  }

  /** Adding a row's result adds its outcome. */
  lemma Step(results: seq<Validated>, r: Validated)
    ensures var o := Outcome(r, |results|);
      && ErrorsOf(results + [r]) == ErrorsOf(results) + o.errors
      && RecordsOf(results + [r]) == RecordsOf(results) + (if o.record.Some? then [o.record.value] else [])
  {
    assert (results + [r])[..|results|] == results;
  }

  /**
   * The handler. `insertFails` says whether the transaction throws; `batch`
   * is what the transaction is asked to create, `None` when it is not
   * started.
   */
  method Import(upload: Upload, insertFails: bool) returns (result: ImportResult, batch: Option<seq<BuyerRow>>)
    ensures upload.Missing? ==> result == NoFile && batch.None?
    ensures upload.Unparseable? ==> result == ImportFailed && batch.None?
    ensures upload.Rows? && |upload.rows| > MaxRows ==> result == TooManyRows && batch.None?
    ensures upload.Rows? && |upload.rows| <= MaxRows ==>
      var records := RecordsOf(Validations(upload.rows));
      && batch == (if |records| > 0 then Some(records) else None)
      && result == (if batch.Some? && insertFails then ImportFailed
                    else Imported(|records|, ErrorsOf(Validations(upload.rows))))
  {
    batch := None;
    if upload.Missing? {
      return NoFile, batch;
    }
    if upload.Unparseable? {
      return ImportFailed, batch;
    }
    var rows := upload.rows;
    if |rows| > MaxRows {
      return TooManyRows, batch;
    }
    var errors, validData := ProcessRows(rows);
    if |validData| > 0 {
      batch := Some(validData);
      if insertFails {
        return ImportFailed, batch;
      }
    }
    result := Imported(|validData|, errors);
  }

  /** The `forEach` over the rows: the errors and the records, row by row. */
  method ProcessRows(rows: seq<CsvRow>) returns (errors: seq<RowError>, validData: seq<BuyerRow>)
    ensures errors == ErrorsOf(Validations(rows))
    ensures validData == RecordsOf(Validations(rows))
  {
    errors := [];
    validData := [];
    ghost var results: seq<Validated> := [];
    var i := 0;
    while i < |rows|
      invariant 0 <= i <= |rows|
      invariant results == Validations(rows[..i])
      invariant errors == ErrorsOf(results)
      invariant validData == RecordsOf(results)
    {
      assert rows[..i + 1][..i] == rows[..i];
      var validated := ValidateCsvBuyer(rows[i]);
      var outcome := RowCallback(validated, i);
      Step(results, validated);
      results := results + [validated];
      errors := errors + outcome.errors;
      if outcome.record.Some? {
        validData := validData + [outcome.record.value];
      }
      i := i + 1;
    }
    assert rows[..|rows|] == rows;
  }

  /** The body of the `forEach` callback for row `index`, given `validateCsvBuyer(row)`. */
  method RowCallback(result: Validated, index: nat) returns (o: RowOutcome)
    ensures o == Outcome(result, index)
  {
    if result.Failure? {
      return RowOutcome([RowError(index + 1, RejectionMessage(result.error))], None);
    }
    var data := result.value;
    var timeline := Lookup(TimelineMap, data.timeline);
    var source := Lookup(SourceMap, data.source);
    var errors := [];
    if timeline.None? {
      errors := errors + [RowError(index + 1, "Invalid timeline: " + data.timeline)];
    }
    if source.None? {
      errors := errors + [RowError(index + 1, "Invalid source: " + data.source)];
    }
    if timeline.Some? && source.Some? {
      return RowOutcome(errors, Some(ImportRecord(data, timeline.value, source.value)));
    }
    return RowOutcome(errors, None);
  }

  /**
   * Every row is accounted for once: it contributes a record or it is a
   * rejected row, and the two counts add up to the number of rows.
   */
  lemma {:induction false} ImportPartition(results: seq<Validated>)
    ensures |RecordsOf(results)| + |RejectedRows(results)| == |results|
  {
    if |results| > 0 {
      ImportPartition(results[..|results| - 1]);
    }
  }

  /**
   * The errors name exactly the rejected rows: every error carries the
   * number of a rejected row, every rejected row has an error, and the row
   * numbers never go down.
   */
  lemma {:induction false} ErrorsNameRejectedRows(results: seq<Validated>)
    ensures forall e :: e in ErrorsOf(results) ==> e.row in RejectedRows(results)
    ensures forall n :: n in RejectedRows(results) ==> exists e :: e in ErrorsOf(results) && e.row == n
    ensures forall n :: n in RejectedRows(results) ==> 1 <= n <= |results|
    ensures forall i, j :: 0 <= i < j < |ErrorsOf(results)| ==> ErrorsOf(results)[i].row <= ErrorsOf(results)[j].row
  {
    if |results| > 0 {
      var init := results[..|results| - 1];
      var o := Outcome(results[|results| - 1], |results| - 1);
      ErrorsNameRejectedRows(init);
      var errs := ErrorsOf(results);
      assert errs == ErrorsOf(init) + o.errors;
      assert RejectedRows(results) == RejectedRows(init) + (if o.record.None? then [|results|] else []);
      if o.record.None? {
        assert o.errors[0] in errs;
      }
      forall i, j | 0 <= i < j < |errs|
        ensures errs[i].row <= errs[j].row
      {
        if j >= |ErrorsOf(init)| {
          assert errs[j] in o.errors;
          if i < |ErrorsOf(init)| {
            assert errs[i] in ErrorsOf(init);
          } else {
            assert errs[i] in o.errors;
          }
        }
      }
    }
  }

  /** A mapped accepted result reports nothing and contributes its record. */
  lemma MappedOutcome(result: Validated, index: nat)
    requires Mapped(result) && result.Success?
    ensures Outcome(result, index).errors == [] && Outcome(result, index).record.Some?
  {
  }

  /** When every accepted row is mapped, the rejected rows are exactly the rows the schema rejected. */
  lemma {:induction false} RejectedMeansInvalid(results: seq<Validated>)
    requires forall k :: 0 <= k < |results| ==> Mapped(results[k])
    ensures forall n :: n in RejectedRows(results) <==> 1 <= n <= |results| && results[n - 1].Failure?
  {
    if |results| > 0 {
      var init := results[..|results| - 1];
      var last := results[|results| - 1];
      RejectedMeansInvalid(init);
      assert forall k :: 0 <= k < |init| ==> init[k] == results[k];
      var o := Outcome(last, |results| - 1);
      assert RejectedRows(results) == RejectedRows(init) + (if o.record.None? then [|results|] else []);
      if last.Success? {
        MappedOutcome(last, |results| - 1);
      }
    }
  }

  /** Result `k` is the validation of row `k`. */
  lemma {:induction false} ValidationOf(rows: seq<CsvRow>, k: nat)
    requires k < |rows|
    ensures Validations(rows)[k] == ValidateCsvBuyer(rows[k])
  {
    if k < |rows| - 1 {
      ValidationOf(rows[..|rows| - 1], k);
    }
  }

  /**
   * Row `k + 1` of a file is rejected exactly when the CSV schema rejects
   * it, and no row reports "Invalid timeline" or "Invalid source": the
   * schema's enums and the tables agree, so those branches cannot be
   * reached.
   */
  lemma ImportedRowOfFile(rows: seq<CsvRow>, k: nat)
    requires k < |rows|
    ensures k + 1 in RejectedRows(Validations(rows)) <==> ValidateCsvBuyer(rows[k]).Failure?
    ensures ValidateCsvBuyer(rows[k]).Success? ==> Outcome(Validations(rows)[k], k).errors == []
  {
    var results := Validations(rows);
    ValidationsMapped(rows);
    RejectedMeansInvalid(results);
    ValidationOf(rows, k);
    if results[k].Success? {
      MappedOutcome(results[k], k);
    }
  }

  /** A row the schema accepts contributes its record with the mapped timeline and source. */
  lemma AcceptedRowImported(lead: Lead, index: nat)
    requires Spelled(lead)
    ensures Outcome(Success(lead), index) == RowOutcome([], Some(ImportRecord(lead, TimelineMap[lead.timeline], SourceMap[lead.source])))
  {
    SpelledLeadsMap(lead);
  }

  /** The number of records imported never exceeds the number of rows. */
  lemma RowLimit(results: seq<Validated>)
    ensures |RecordsOf(results)| <= |results|
  {
    ImportPartition(results);
  }
}
