/** Concrete visit tables and what the report selects for them. Dates are day keys
    written as YYYYMMDD numbers, which order like the calendar dates they stand for. */
module Scenarios {
  import opened Nullable
  import opened Seqs
  import opened Schedule
  import opened Filter
  import opened Classifier
  import opened Pipeline

  const January1 := 20240101
  const January31 := 20240131

  /** An uninvoiced visit row with a parsed date. */
  function Visit(id: string, visitType: string, status: Option<string>, date: int): Row {
    Row(id, Some(visitType), status, None, None, Some(date))
  }

  /** A schedule whose first visit was completed and whose second visit has no status is
      still selected: the PM Visit 2 test reads a table that holds only PM Visit 1 rows. */
  lemma UnresolvedSecondVisitSelected()
    ensures "MS-002" in ProcessData([Visit("MS-002", PmVisit1, Some(Completed), 20240105),
                                     Visit("MS-002", PmVisit2, None, 20240125)], January1, January31)
  {
    var rows := [Visit("MS-002", PmVisit1, Some(Completed), 20240105),
                 Visit("MS-002", PmVisit2, None, 20240125)];
    FilterKeepsAll(rows, January1, January31);
    assert QualifiesA(rows, "MS-002") by {
      assert rows[0] in rows;
    }
    SingleSchedule(rows, "MS-002", January1, January31);
    assert ProcessData(rows, January1, January31) == ["MS-002"];
  }

  /** Two completed PM visits inside the window: the schedule is selected, once. */
  lemma JanuaryEndToEnd()
    ensures ProcessData([Visit("MS-001", PmVisit1, Some(Completed), 20240110),
                         Visit("MS-001", PmVisit2, Some(Completed), 20240120)], January1, January31)
            == ["MS-001"]
  {
    var rows := [Visit("MS-001", PmVisit1, Some(Completed), 20240110),
                 Visit("MS-001", PmVisit2, Some(Completed), 20240120)];
    FilterKeepsAll(rows, January1, January31);
    assert QualifiesA(rows, "MS-001") by {
      assert rows[0] in rows;
    }
    SingleSchedule(rows, "MS-001", January1, January31);
    assert ProcessData(rows, January1, January31) == ["MS-001"];
  }

  /** Only completed in-house work: selected by Pattern B. */
  lemma InHouseWorkCompleted()
    ensures ProcessData([Visit("MS-003", InHouseWork, Some(Completed), 20240102),
                         Visit("MS-003", InHouseWork, Some(Completed), 20240103)], January1, January31)
            == ["MS-003"]
  {
    var rows := [Visit("MS-003", InHouseWork, Some(Completed), 20240102),
                 Visit("MS-003", InHouseWork, Some(Completed), 20240103)];
    FilterKeepsAll(rows, January1, January31);
    assert QualifiesB(rows, "MS-003") by {
      assert rows[0] in rows;
    }
    SingleSchedule(rows, "MS-003", January1, January31);
    assert ProcessData(rows, January1, January31) == ["MS-003"];
  }

  /** The same schedule with one in-house visit lacking a status: not selected. */
  lemma InHouseWorkUnfinished()
    ensures ProcessData([Visit("MS-003", InHouseWork, Some(Completed), 20240102),
                         Visit("MS-003", InHouseWork, None, 20240103)], January1, January31)
            == []
  {
    var rows := [Visit("MS-003", InHouseWork, Some(Completed), 20240102),
                 Visit("MS-003", InHouseWork, None, 20240103)];
    FilterKeepsAll(rows, January1, January31);
    assert !Qualifies(rows, "MS-003") by {
      assert rows[0] in rows && rows[1] in rows;
      assert !IsPm2(rows[0]);
      assert NonPm(rows[1]) && !RowCompleted(rows[1]);
    }
    SingleSchedule(rows, "MS-003", January1, January31);
    assert ProcessData(rows, January1, January31) == [];
  }

  /** Only completed second PM visits, no first visit: selected by Pattern C. */
  lemma OnlySecondVisitsCompleted()
    ensures ProcessData([Visit("MS-004", PmVisit2, Some(Completed), 20240115)], January1, January31)
            == ["MS-004"]
  {
    var rows := [Visit("MS-004", PmVisit2, Some(Completed), 20240115)];
    FilterKeepsAll(rows, January1, January31);
    assert QualifiesC(rows, "MS-004") by {
      assert rows[0] in rows;
    }
    SingleSchedule(rows, "MS-004", January1, January31);
    assert ProcessData(rows, January1, January31) == ["MS-004"];
  }

  /** A completed visit dated one day after the window contributes nothing. */
  lemma AfterWindowIgnored()
    ensures ProcessData([Visit("MS-005", PmVisit1, Some(Completed), 20240201)], January1, January31) == []
  {
    FilterSingle(Visit("MS-005", PmVisit1, Some(Completed), 20240201), January1, January31);
  }

  /** A completed visit that has been invoiced contributes nothing. */
  lemma InvoicedIgnored()
    ensures ProcessData([Row("MS-006", Some(PmVisit1), Some(Completed), None, Some("SINV-1"), Some(20240110))],
                        January1, January31) == []
  {
    FilterSingle(Row("MS-006", Some(PmVisit1), Some(Completed), None, Some("SINV-1"), Some(20240110)),
                 January1, January31);
  }

  /** A visit dated on the last day of the window is inside it. */
  lemma WindowEndInclusive()
    ensures ProcessData([Visit("MS-007", OthersWork, Some(Completed), January31)], January1, January31)
            == ["MS-007"]
  {
    var rows := [Visit("MS-007", OthersWork, Some(Completed), January31)];
    FilterKeepsAll(rows, January1, January31);
    assert QualifiesB(rows, "MS-007") by {
      assert rows[0] in rows;
    }
    SingleSchedule(rows, "MS-007", January1, January31);
    assert ProcessData(rows, January1, January31) == ["MS-007"];
  }

  /** The rules read the service completion status only: a visit whose
      `completion_status` says "Completed" but whose service status is missing does not
      count as completed. */
  lemma CompletionStatusColumnUnread()
    ensures ProcessData([Row("MS-008", Some(InHouseWork), None, Some(Completed), None, Some(20240110))],
                        January1, January31) == []
  {
    var rows := [Row("MS-008", Some(InHouseWork), None, Some(Completed), None, Some(20240110))];
    FilterKeepsAll(rows, January1, January31);
    assert !Qualifies(rows, "MS-008") by {
      assert rows[0] in rows;
      assert !IsPm2(rows[0]);
      assert NonPm(rows[0]) && !RowCompleted(rows[0]);
    }
    SingleSchedule(rows, "MS-008", January1, January31);
    assert ProcessData(rows, January1, January31) == [];
  }

  /** A completed first visit next to a first visit with no status: Pattern A's final
      check drops the schedule. */
  lemma UnrecordedFirstVisitBlocksA()
    ensures ProcessData([Visit("MS-009", PmVisit1, Some(Completed), 20240105),
                         Visit("MS-009", PmVisit1, None, 20240106)], January1, January31)
            == []
  {
    var rows := [Visit("MS-009", PmVisit1, Some(Completed), 20240105),
                 Visit("MS-009", PmVisit1, None, 20240106)];
    FilterKeepsAll(rows, January1, January31);
    assert !Qualifies(rows, "MS-009") by {
      assert rows[0] in rows && rows[1] in rows;
      assert !IsPm2(rows[0]);
      assert IsVisit(rows[1], PmVisit1) && rows[1].serviceStatus.None?;
    }
    SingleSchedule(rows, "MS-009", January1, January31);
    assert ProcessData(rows, January1, January31) == [];
  }

  /** Pattern A and Pattern B are not disjoint: a schedule with a completed first PM visit
      and completed in-house work meets both, and is listed once. */
  lemma PatternsAAndBOverlap()
    ensures var rows := [Visit("MS-010", PmVisit1, Some(Completed), 20240105),
                         Visit("MS-010", InHouseWork, Some(Completed), 20240106)];
            QualifiesA(rows, "MS-010") && QualifiesB(rows, "MS-010")
            && ProcessData(rows, January1, January31) == ["MS-010"]
  {
    var rows := [Visit("MS-010", PmVisit1, Some(Completed), 20240105),
                 Visit("MS-010", InHouseWork, Some(Completed), 20240106)];
    FilterKeepsAll(rows, January1, January31);
    assert rows[0] in rows && rows[1] in rows;
    assert QualifiesA(rows, "MS-010") && QualifiesB(rows, "MS-010");
    SingleSchedule(rows, "MS-010", January1, January31);
    assert ProcessData(rows, January1, January31) == ["MS-010"];
  }

  /** A reversed window is rejected before anything else is looked at. */
  lemma ReversedWindowRejected()
    ensures HandleRequest(January31, January1,
                          [Visit("MS-001", PmVisit1, Some(Completed), 20240110)]) == Rejected(DateOrderMessage)
  {
  }
}
