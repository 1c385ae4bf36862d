/** The completion classifier (app.py:78-127): three passes over the filtered visit
    table, each producing a list of schedule IDs, concatenated in the order A, C, B and
    de-duplicated keeping first occurrences. */
module Classifier {
  import opened Nullable
  import opened Seqs
  import opened Schedule

  predicate IsVisit(r: Row, visitType: string) {
    r.visitType == Some(visitType)
  }

  predicate IsPm2(r: Row) {
    IsVisit(r, PmVisit2)
  }

  predicate HasVisitType(r: Row) {
    r.visitType.Some?
  }

  /** The service completion status reads "Completed". */
  predicate RowCompleted(r: Row) {
    IsCompleted(r.serviceStatus)
  }

  /** A completed first preventive-maintenance visit. */
  predicate Pm1Completed(r: Row) {
    IsVisit(r, PmVisit1) && RowCompleted(r)
  }

  /** Neither PM visit. A missing visit type compares unequal to both, so it would
      count as non-PM. */
  predicate NonPm(r: Row) {
    r.visitType != Some(PmVisit1) && r.visitType != Some(PmVisit2)
  }

  /** Every row of `t` carrying ID `name` satisfies `p`: the test a
      `groupby('ID').filter(...)` applies to one group. */
  predicate GroupAll(t: seq<Row>, name: string, p: Row -> bool) {
    forall r :: r in t && r.id == name ==> p(r)
  }

  /** Every PM Visit 1 row of the ID has a recorded service completion status. */
  predicate Pm1Recorded(t: seq<Row>, name: string) {
    forall r :: r in t && r.id == name && IsVisit(r, PmVisit1) ==> r.serviceStatus.Some?
  }

  // ---------------------------------------------------------------------------
  // The three completion rules, stated over the table as a whole.
  // ---------------------------------------------------------------------------

  /** Pattern A: some PM Visit 1 of the ID is completed, and none of its PM Visit 1
      rows lacks a status. */
  predicate QualifiesA(t: seq<Row>, x: string) {
    (exists r :: r in t && r.id == x && Pm1Completed(r)) && Pm1Recorded(t, x)
  }

  /** Pattern B: the ID has at least one non-PM visit, and all of them are completed. */
  predicate QualifiesB(t: seq<Row>, x: string) {
    (exists r :: r in t && r.id == x && NonPm(r))
    && forall r :: r in t && r.id == x && NonPm(r) ==> RowCompleted(r)
  }

  /** Pattern C: the ID occurs, and every one of its rows is a completed PM Visit 2. */
  predicate QualifiesC(t: seq<Row>, x: string) {
    (exists r :: r in t && r.id == x)
    && forall r :: r in t && r.id == x ==> IsPm2(r) && RowCompleted(r)
  }

  predicate Qualifies(t: seq<Row>, x: string) {
    QualifiesA(t, x) || QualifiesB(t, x) || QualifiesC(t, x)
  }

  // ---------------------------------------------------------------------------
  // Masks, each built in one place so that every use denotes the same function.
  // ---------------------------------------------------------------------------

  function IdIs(name: string): Row -> bool {
    (r: Row) => r.id == name
  }

  function IdNotIn(names: set<string>): Row -> bool {
    (r: Row) => r.id !in names
  }

  function GroupAllMask(t: seq<Row>, p: Row -> bool): Row -> bool {
    (r: Row) => GroupAll(t, r.id, p)
  }

  function Pm1RecordedMask(t: seq<Row>): string -> bool {
    (name: string) => Pm1Recorded(t, name)
  }

  /** A test on IDs read as a test on rows. */
  function OnId(p: string -> bool): Row -> bool {
    (r: Row) => p(r.id)
  }

  /** A completed PM Visit 1 row whose ID has no row without a visit type. */
  function GuardedPm1Mask(t: seq<Row>): Row -> bool {
    (r: Row) => Pm1Completed(r) && r.id !in NamesWithEmptyVisitType(t)
  }

  /** A row that puts its ID on Pattern A's list. */
  function PatternARowMask(t: seq<Row>): Row -> bool {
    (r: Row) => Pm1Completed(r) && r.id !in NamesWithEmptyVisitType(t) && Pm1Recorded(t, r.id)
  }

  /** A row that puts its ID on Pattern B's list: a non-PM row of a Pattern B ID. */
  function PatternBRowMask(t: seq<Row>): Row -> bool {
    (r: Row) => NonPm(r) && QualifiesB(t, r.id)
  }

  /** A row that puts its ID on Pattern C's list: any row of a Pattern C ID. */
  function PatternCRowMask(t: seq<Row>): Row -> bool {
    (r: Row) => QualifiesC(t, r.id)
  }

  /** Testing the ID column is testing the rows by their IDs, row for row. */
  lemma {:induction false} SelectIds(rows: seq<Row>, p: string -> bool)
    ensures Select(Ids(rows), p) == Ids(Select(rows, OnId(p)))
  {
    if |rows| > 0 {
      assert Ids(rows) == [rows[0].id] + Ids(rows[1..]);
      SelectIds(rows[1..], p);
    }
  }

  // ---------------------------------------------------------------------------
  // Pattern A (app.py:78-101)
  // ---------------------------------------------------------------------------

  /** IDs that have a row without a visit type (app.py:83). */
  function NamesWithEmptyVisitType(t: seq<Row>): (names: set<string>)
    ensures forall x :: x in names <==> exists r :: r in t && r.id == x && !HasVisitType(r)
  {
    set r | r in t && !HasVisitType(r) :: r.id
  }

  /** Completed PM Visit 1 rows, less rows without a visit type, less IDs that have a
      row without a visit type (app.py:78-84). */
  function Pm1Rows(t: seq<Row>): (g: seq<Row>)
    ensures g == Select(t, GuardedPm1Mask(t))
    ensures forall r :: r in g <==> r in t && Pm1Completed(r) && r.id !in NamesWithEmptyVisitType(t)
    ensures forall r :: r in g ==> IsVisit(r, PmVisit1)
  {
    var completed := Select(t, Pm1Completed);
    var typed := Select(completed, HasVisitType);
    SelectFuse(t, Pm1Completed, HasVisitType, Pm1Completed);
    SelectFuse(t, Pm1Completed, IdNotIn(NamesWithEmptyVisitType(t)), GuardedPm1Mask(t));
    Select(typed, IdNotIn(NamesWithEmptyVisitType(t)))
  }

  /** The PM Visit 2 test applied to one ID's rows (app.py:89-95): accept when there is
      no PM Visit 2 row, or one is completed, or all are completed. */
  predicate Pm2Accepts(nameData: seq<Row>) {
    var pm2 := Select(nameData, IsPm2);
    |pm2| == 0
    || |Select(pm2, RowCompleted)| > 0
    || (forall r :: r in pm2 ==> RowCompleted(r))
  }

  function Pm2AcceptsMask(g: seq<Row>): string -> bool {
    (name: string) => Pm2Accepts(Select(g, IdIs(name)))
  }

  /** The PM Visit 2 test reads rows drawn from a PM-Visit-1-only table, so it finds no
      PM Visit 2 row and accepts every ID. */
  lemma Pm2TestAlwaysAccepts(g: seq<Row>)
    requires forall r :: r in g ==> IsVisit(r, PmVisit1)
    ensures forall name :: Pm2AcceptsMask(g)(name)
  {
    forall name
      ensures Pm2AcceptsMask(g)(name)
    {
      var pm2 := Select(Select(g, IdIs(name)), IsPm2);
      if |pm2| > 0 {
        IndexIsElement(pm2, 0);
        assert false;
      }
    }
  }

  /** The loop over unique IDs of the guarded PM Visit 1 rows (app.py:86-95). */
  function Candidates(t: seq<Row>): (c: seq<string>)
    ensures c == Dedup(Ids(Pm1Rows(t)))
  {
    var g := Pm1Rows(t);
    var names := Dedup(Ids(g));
    Pm2TestAlwaysAccepts(g);
    SelectAll(names, Pm2AcceptsMask(g));
    Select(names, Pm2AcceptsMask(g))
  }

  /** Pattern A's list: candidates whose PM Visit 1 rows all carry a status
      (app.py:97-101). */
  function PatternA(t: seq<Row>): (a: seq<string>)
    ensures NoDups(a)
    ensures forall x :: x in a <==> QualifiesA(t, x) && x !in NamesWithEmptyVisitType(t)
    ensures a == Dedup(Ids(Select(t, PatternARowMask(t))))
  {
    var c := Candidates(t);
    SelectNoDups(c, Pm1RecordedMask(t));
    PatternAOrder(t);
    Select(c, Pm1RecordedMask(t))
  }

  /** Keeping the candidates with recorded PM Visit 1 rows lists, once each and in
      order of first appearance, the IDs of the rows that carry Pattern A. */
  lemma PatternAOrder(t: seq<Row>)
    ensures Select(Candidates(t), Pm1RecordedMask(t)) == Dedup(Ids(Select(t, PatternARowMask(t))))
  {
    var g := Pm1Rows(t);
    SelectDedup(Ids(g), Pm1RecordedMask(t));
    SelectIds(g, Pm1RecordedMask(t));
    SelectFuse(t, GuardedPm1Mask(t), OnId(Pm1RecordedMask(t)), PatternARowMask(t));
  }

  // ---------------------------------------------------------------------------
  // Pattern B (app.py:105-112) and Pattern C (app.py:114-119)
  // ---------------------------------------------------------------------------

  /** Pattern B's list: the ID of every non-PM row whose ID's non-PM rows are all
      completed, in table order (one entry per row). */
  function PatternB(t: seq<Row>): (b: seq<string>)
    ensures forall x :: x in b <==> QualifiesB(t, x)
    ensures b == Ids(Select(t, PatternBRowMask(t)))
  {
    var nonPm := Select(t, NonPm);
    SelectFuse(t, NonPm, GroupAllMask(nonPm, RowCompleted), PatternBRowMask(t));
    Ids(Select(nonPm, GroupAllMask(nonPm, RowCompleted)))
  }

  /** Pattern C's list: the ID of every row whose ID has only PM Visit 2 rows, all of
      them completed, in table order (one entry per row). */
  function PatternC(t: seq<Row>): (c: seq<string>)
    ensures forall x :: x in c <==> QualifiesC(t, x)
    ensures c == Ids(Select(t, PatternCRowMask(t)))
  {
    var onlyPm2 := Select(t, GroupAllMask(t, IsPm2));
    SelectFuse(t, GroupAllMask(t, IsPm2), GroupAllMask(onlyPm2, RowCompleted), PatternCRowMask(t));
    Ids(Select(onlyPm2, GroupAllMask(onlyPm2, RowCompleted)))
  }

  // ---------------------------------------------------------------------------
  // Union (app.py:124-127)
  // ---------------------------------------------------------------------------

  /** The selected names: Pattern A's list first, unchanged, then every Pattern C or
      Pattern B ID not already listed, in first-seen order, each once. */
  function Classify(t: seq<Row>): (out: seq<string>)
    ensures NoDups(out)
    ensures forall x :: x in out <==>
      (QualifiesA(t, x) && x !in NamesWithEmptyVisitType(t)) || QualifiesC(t, x) || QualifiesB(t, x)
    ensures out == PatternA(t) + DedupFrom(PatternC(t) + PatternB(t), Elems(PatternA(t)))
  {
    var a, c, b := PatternA(t), PatternC(t), PatternB(t);
    DedupPrefix(a, c + b);
    Dedup(a + (c + b))
  }

  /** Every selected name is the ID of some row of the table. */
  lemma ClassifySound(t: seq<Row>)
    ensures forall x :: x in Classify(t) ==> exists r :: r in t && r.id == x
  {
    forall x | x in Classify(t)
      ensures exists r :: r in t && r.id == x
    {
      if QualifiesA(t, x) {
        var r :| r in t && r.id == x && Pm1Completed(r);
      } else if QualifiesB(t, x) {
        var r :| r in t && r.id == x && NonPm(r);
      }
    }
  }
}
