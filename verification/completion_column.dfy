/** The report fetches both `service_completion_status` and `completion_status`, but
    every rule reads only the first (app.py:80, 92, 94, 100, 109, 117). Blanking the
    second column in every row leaves the report unchanged. */
module CompletionColumn {
  import opened Nullable
  import opened Seqs
  import opened Schedule
  import opened Filter
  import opened Classifier
  import opened Pipeline

  function Blank(r: Row): Row {
    r.(completionStatus := None)
  }

  /** The table with `completion_status` blanked in every row. */
  function BlankAll(rows: seq<Row>): (out: seq<Row>)
    ensures |out| == |rows|
    ensures forall r :: r in out <==> exists s :: s in rows && r == Blank(s)
  {
    if |rows| == 0 then []
    else
      var rest := BlankAll(rows[1..]);
      assert forall s :: s in rows <==> s == rows[0] || s in rows[1..];
      [Blank(rows[0])] + rest
  }

  lemma {:induction false} BlankAllIds(rows: seq<Row>)
    ensures Ids(BlankAll(rows)) == Ids(rows)
  {
    if |rows| > 0 {
      BlankAllIds(rows[1..]);
    }
  }

  /** Selecting by a mask that does not look at the blanked column commutes with
      blanking. */
  lemma {:induction false} BlankSelect(rows: seq<Row>, keep: Row -> bool, keep': Row -> bool)
    requires forall r :: keep'(Blank(r)) == keep(r)
    ensures Select(BlankAll(rows), keep') == BlankAll(Select(rows, keep))
  {
    if |rows| > 0 {
      BlankSelect(rows[1..], keep, keep');
    }
  }

  lemma GroupAllBlank(t: seq<Row>, name: string, p: Row -> bool)
    requires forall r :: p(Blank(r)) == p(r)
    ensures GroupAll(BlankAll(t), name, p) == GroupAll(t, name, p)
  {
    if GroupAll(t, name, p) {
      forall r | r in BlankAll(t) && r.id == name
        ensures p(r)
      {
        var s :| s in t && r == Blank(s);
      }
    }
    if GroupAll(BlankAll(t), name, p) {
      forall s | s in t && s.id == name
        ensures p(s)
      {
        assert Blank(s) in BlankAll(t);
      }
    }
  }

  lemma FilterBlank(rows: seq<Row>, start: int, end: int)
    ensures FilterRows(BlankAll(rows), start, end) == BlankAll(FilterRows(rows, start, end))
  {
    BlankSelect(rows, KeepMask(start, end), KeepMask(start, end));
  }

  lemma NamesBlank(t: seq<Row>)
    ensures NamesWithEmptyVisitType(BlankAll(t)) == NamesWithEmptyVisitType(t)
  {
    forall x | x in NamesWithEmptyVisitType(t)
      ensures x in NamesWithEmptyVisitType(BlankAll(t))
    {
      var s :| s in t && s.id == x && !HasVisitType(s);
      assert Blank(s) in BlankAll(t);
    }
  }

  lemma Pm1RecordedBlank(t: seq<Row>, name: string)
    ensures Pm1Recorded(BlankAll(t), name) == Pm1Recorded(t, name)
  {
    if Pm1Recorded(t, name) {
      forall r | r in BlankAll(t) && r.id == name && IsVisit(r, PmVisit1)
        ensures r.serviceStatus.Some?
      {
        var s :| s in t && r == Blank(s);
      }
    }
    if Pm1Recorded(BlankAll(t), name) {
      forall s | s in t && s.id == name && IsVisit(s, PmVisit1)
        ensures s.serviceStatus.Some?
      {
        assert Blank(s) in BlankAll(t);
      }
    }
  }

  lemma PatternARowMaskBlank(t: seq<Row>)
    ensures forall r :: PatternARowMask(BlankAll(t))(Blank(r)) == PatternARowMask(t)(r)
  {
    NamesBlank(t);
    forall r
      ensures PatternARowMask(BlankAll(t))(Blank(r)) == PatternARowMask(t)(r)
    {
      Pm1RecordedBlank(t, r.id);
    }
  }

  lemma PatternABlank(t: seq<Row>)
    ensures PatternA(BlankAll(t)) == PatternA(t)
  {
    PatternARowMaskBlank(t);
    BlankSelect(t, PatternARowMask(t), PatternARowMask(BlankAll(t)));
    BlankAllIds(Select(t, PatternARowMask(t)));
  }

  lemma PatternBBlank(t: seq<Row>)
    ensures PatternB(BlankAll(t)) == PatternB(t)
  {
    var nonPm := Select(t, NonPm);
    BlankSelect(t, NonPm, NonPm);
    forall r
      ensures GroupAllMask(BlankAll(nonPm), RowCompleted)(Blank(r)) == GroupAllMask(nonPm, RowCompleted)(r)
    {
      GroupAllBlank(nonPm, r.id, RowCompleted);
    }
    BlankSelect(nonPm, GroupAllMask(nonPm, RowCompleted), GroupAllMask(BlankAll(nonPm), RowCompleted));
    BlankAllIds(Select(nonPm, GroupAllMask(nonPm, RowCompleted)));
  }

  lemma PatternCBlank(t: seq<Row>)
    ensures PatternC(BlankAll(t)) == PatternC(t)
  {
    forall r
      ensures GroupAllMask(BlankAll(t), IsPm2)(Blank(r)) == GroupAllMask(t, IsPm2)(r)
    {
      GroupAllBlank(t, r.id, IsPm2);
    }
    BlankSelect(t, GroupAllMask(t, IsPm2), GroupAllMask(BlankAll(t), IsPm2));
    var onlyPm2 := Select(t, GroupAllMask(t, IsPm2));
    forall r
      ensures GroupAllMask(BlankAll(onlyPm2), RowCompleted)(Blank(r)) == GroupAllMask(onlyPm2, RowCompleted)(r)
    {
      GroupAllBlank(onlyPm2, r.id, RowCompleted);
    }
    BlankSelect(onlyPm2, GroupAllMask(onlyPm2, RowCompleted), GroupAllMask(BlankAll(onlyPm2), RowCompleted));
    BlankAllIds(Select(onlyPm2, GroupAllMask(onlyPm2, RowCompleted)));
  }

  /** Blanking `completion_status` everywhere leaves the selected names unchanged. */
  lemma CompletionStatusUnread(rows: seq<Row>, start: int, end: int)
    ensures ProcessData(BlankAll(rows), start, end) == ProcessData(rows, start, end)
  {
    var f := FilterRows(rows, start, end);
    FilterBlank(rows, start, end);
    PatternABlank(f);
    PatternBBlank(f);
    PatternCBlank(f);
  }

  /** Two tables that differ only in `completion_status` give the same report. */
  lemma SameReportWithoutCompletionColumn(a: seq<Row>, b: seq<Row>, start: int, end: int)
    requires BlankAll(a) == BlankAll(b)
    ensures ProcessData(a, start, end) == ProcessData(b, start, end)
  {
    CompletionStatusUnread(a, start, end);
    CompletionStatusUnread(b, start, end);
  }
}
