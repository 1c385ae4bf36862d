/** The row filter at the head of the report: date window, no sales invoice, allowed
    visit type (app.py:47-57). */
module Filter {
  import opened Nullable
  import opened Seqs
  import opened Schedule

  /** The scheduled date lies in the inclusive window; an unparsed date (NaT) compares
      false with both bounds, so it never lies in any window. */
  predicate InWindow(date: Option<int>, start: int, end: int) {
    date.Some? && start <= date.value && date.value <= end
  }

  /** No sales invoice has been raised for the visit. */
  predicate Uninvoiced(r: Row) {
    r.salesInvoice.None?
  }

  /** The visit type is one of the six allowed ones; a missing type is in no list. */
  predicate AllowedType(r: Row) {
    r.visitType.Some? && r.visitType.value in AllowedVisitTypes
  }

  /** The row survives all three masks. */
  predicate Keep(r: Row, start: int, end: int) {
    InWindow(r.scheduledDate, start, end) && Uninvoiced(r) && AllowedType(r)
  }

  function InWindowMask(start: int, end: int): Row -> bool {
    (r: Row) => InWindow(r.scheduledDate, start, end)
  }

  function KeepMask(start: int, end: int): Row -> bool {
    (r: Row) => Keep(r, start, end)
  }

  /** The three successive masks of the source, applied in its order. The result is
      one selection by the combined rule, so it holds exactly the rows that satisfy
      it, in input order. */
  function FilterRows(rows: seq<Row>, start: int, end: int): (out: seq<Row>)
    ensures out == Select(rows, KeepMask(start, end))
    ensures forall r :: r in out <==> r in rows && Keep(r, start, end)
  {
    var inWindow := Select(rows, InWindowMask(start, end));
    var uninvoiced := Select(inWindow, Uninvoiced);
    var byType := Select(uninvoiced, AllowedType);
    var dated := (r: Row) => InWindow(r.scheduledDate, start, end) && Uninvoiced(r);
    SelectFuse(rows, InWindowMask(start, end), Uninvoiced, dated);
    SelectFuse(rows, dated, AllowedType, KeepMask(start, end));
    byType
  }

  /** Filtering a concatenation filters each part. */
  lemma FilterAppend(a: seq<Row>, b: seq<Row>, start: int, end: int)
    ensures FilterRows(a + b, start, end) == FilterRows(a, start, end) + FilterRows(b, start, end)
  {
    SelectAppend(a, b, KeepMask(start, end));
  }

  /** A single row passes the filter exactly when it satisfies the combined rule.
      With `FilterAppend` this pins the filter down completely: every row is judged on
      its own, kept rows stay in input order, and nothing is reordered or repeated. */
  lemma FilterSingle(r: Row, start: int, end: int)
    ensures FilterRows([r], start, end) == if Keep(r, start, end) then [r] else []
  {
    assert [r][1..] == [];
  }

  /** A table whose rows all satisfy the rule passes through unchanged; in particular
      filtering twice is filtering once. */
  lemma FilterKeepsAll(rows: seq<Row>, start: int, end: int)
    requires forall r :: r in rows ==> Keep(r, start, end)
    ensures FilterRows(rows, start, end) == rows
  {
    SelectAll(rows, KeepMask(start, end));
  }

  /** Removing a row that fails the rule does not change the filtered table. */
  lemma FilterDropsRejected(before: seq<Row>, r: Row, after: seq<Row>, start: int, end: int)
    requires !Keep(r, start, end)
    ensures FilterRows(before + [r] + after, start, end) == FilterRows(before + after, start, end)
  {
    FilterAppend(before + [r], after, start, end);
    FilterAppend(before, [r], start, end);
    FilterSingle(r, start, end);
    FilterAppend(before, after, start, end);
    assert FilterRows(before, start, end) + [] == FilterRows(before, start, end);
  }
}
