/** One visit row of a maintenance schedule, as the schedule API returns it, and the
    visit-type vocabulary of the report. */
module Schedule {
  import opened Nullable

  /** A visit row. Many rows share one `id` (the maintenance schedule's `name`).
      `scheduledDate` is the parsed visit date as an ordered day key; a date that does
      not parse is `None`. The report reads `serviceStatus`
      (`service_completion_status`); `completionStatus` (`completion_status`) is
      fetched too but no rule reads it. */
  datatype Row = Row(
    id: string,
    visitType: Option<string>,
    serviceStatus: Option<string>,
    completionStatus: Option<string>,
    salesInvoice: Option<string>,
    scheduledDate: Option<int>)

  const PmVisit1 := "PM Visit 1"
  const PmVisit2 := "PM Visit 2"
  const PvtAssistVisit := "PVT Assist Visit"
  const InHouseWork := "In House Work"
  const OthersWork := "Others Work"
  const AstmAssistVisit := "ASTM Assist Visit"

  /** The six visit types the report keeps. */
  const AllowedVisitTypes: set<string> :=
    {PmVisit1, PmVisit2, PvtAssistVisit, InHouseWork, OthersWork, AstmAssistVisit}

  /** The status value that marks a finished visit. */
  const Completed := "Completed"

  /** A status cell equals "Completed"; a missing cell never does. */
  predicate IsCompleted(status: Option<string>) {
    status == Some(Completed)
  }

  /** The ID column of a table, row by row. */
  function Ids(rows: seq<Row>): (ids: seq<string>)
    ensures |ids| == |rows|
    ensures forall i :: 0 <= i < |rows| ==> ids[i] == rows[i].id
    ensures forall x :: x in ids <==> exists r :: r in rows && r.id == x
  {
    if |rows| == 0 then []
    else [rows[0].id] + Ids(rows[1..])
  }
}
