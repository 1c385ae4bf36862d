/** `process_data` end to end (app.py:46-129) and the request handler's date-order guard
    (app.py:137-147). */
module Pipeline {
  import opened Seqs
  import opened Schedule
  import opened Filter
  import opened Classifier

  /** After filtering every row has an allowed, hence present, visit type, so the
      null-visit-type guard of Pattern A (app.py:82-84) removes nothing. */
  lemma GuardIsVacuous(rows: seq<Row>, start: int, end: int)
    ensures NamesWithEmptyVisitType(FilterRows(rows, start, end)) == {}
    ensures Pm1Rows(FilterRows(rows, start, end)) == Select(FilterRows(rows, start, end), Pm1Completed)
  {
    var f := FilterRows(rows, start, end);
    var completed := Select(f, Pm1Completed);
    SelectAll(completed, HasVisitType);
    SelectAll(completed, IdNotIn(NamesWithEmptyVisitType(f)));
  }

  /** On a filtered table Pattern A's guard set is empty, so the selected names are
      exactly the IDs meeting one of the three completion rules. */
  lemma ClassifyFiltered(rows: seq<Row>, start: int, end: int)
    ensures forall x :: x in Classify(FilterRows(rows, start, end)) <==> Qualifies(FilterRows(rows, start, end), x)
  {
    GuardIsVacuous(rows, start, end);
  }

  /** The report's selected names for the visit rows `rows` and the inclusive window
      `[start, end]` of day keys. */
  function ProcessData(rows: seq<Row>, start: int, end: int): (out: seq<string>)
    ensures NoDups(out)
    ensures forall x :: x in out <==> Qualifies(FilterRows(rows, start, end), x)
    ensures forall x :: x in out ==> exists r :: r in rows && Keep(r, start, end) && r.id == x
    ensures FilterRows(rows, start, end) == [] ==> out == []
  {
    var f := FilterRows(rows, start, end);
    ClassifyFiltered(rows, start, end);
    ClassifySound(f);
    var out := Classify(f);
    IndexIsElement(out, 0);
    out
  }

  /** A table that holds one schedule yields that schedule's ID alone when it meets a
      completion rule, and nothing otherwise. */
  lemma SingleSchedule(rows: seq<Row>, x: string, start: int, end: int)
    requires forall r :: r in rows ==> r.id == x
    ensures ProcessData(rows, start, end) == if Qualifies(FilterRows(rows, start, end), x) then [x] else []
  {
    var out := ProcessData(rows, start, end);
    if Qualifies(FilterRows(rows, start, end), x) {
      SingletonOfNoDups(out, x);
    } else {
      IndexIsElement(out, 0);
    }
  }

  /** A row that fails the filter has no influence on the result, wherever it sits. */
  lemma RejectedRowIgnored(before: seq<Row>, r: Row, after: seq<Row>, start: int, end: int)
    requires !Keep(r, start, end)
    ensures ProcessData(before + [r] + after, start, end) == ProcessData(before + after, start, end)
  {
    FilterDropsRejected(before, r, after, start, end);
  }

  /** No ID satisfies Pattern C together with Pattern A or Pattern B. */
  lemma PatternCExclusive(t: seq<Row>, x: string)
    requires QualifiesC(t, x)
    ensures !QualifiesA(t, x) && !QualifiesB(t, x)
  {
  }

  // ---------------------------------------------------------------------------
  // The request handler (app.py:133-155)
  // ---------------------------------------------------------------------------

  /** What a report request produces: a rejection message, an empty-fetch notice, or
      the name list written to the spreadsheet. */
  datatype Response = Rejected(message: string) | NoData(message: string) | Sheet(names: seq<string>)

  const DateOrderMessage := "End Date must be after Start Date."
  const NoDataMessage := "No data fetched."

  /** One report request for the window `[start, end]`. `fetched` is what the remote
      fetch returns; a failed fetch returns no rows. */
  function HandleRequest(start: int, end: int, fetched: seq<Row>): (resp: Response)
    ensures resp.Rejected? <==> start > end
    ensures resp.Rejected? ==> resp.message == DateOrderMessage
    ensures resp.NoData? <==> start <= end && fetched == []
    ensures resp.Sheet? <==> start <= end && fetched != []
    ensures resp.Sheet? ==> resp.names == ProcessData(fetched, start, end)
    ensures resp.Sheet? ==> NoDups(resp.names)
    ensures resp.Sheet? ==> forall x :: x in resp.names <==> Qualifies(FilterRows(fetched, start, end), x)
    ensures resp.Sheet? ==> forall x :: x in resp.names ==> exists r :: r in fetched && Keep(r, start, end) && r.id == x
  {
    if start > end then Rejected(DateOrderMessage)
    else if |fetched| == 0 then NoData(NoDataMessage)
    else Sheet(ProcessData(fetched, start, end))
  }

  /** The date-order check comes first: a reversed window is rejected whatever the
      fetch would have returned. */
  lemma ReversedWindowIgnoresFetch(start: int, end: int, a: seq<Row>, b: seq<Row>)
    requires start > end
    ensures HandleRequest(start, end, a) == HandleRequest(start, end, b) == Rejected(DateOrderMessage)
  {
  }
}
