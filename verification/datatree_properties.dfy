/**
 * What the queries of the result model promise its views: indices and their
 * parents round-trip, out-of-bounds requests give the invalid index, there is
 * no third level, every index the model hands out can be read without a
 * lookup failing, and the summary reports the exact counts.
 */
module DataTreeProperties {
  import opened Wrappers
  import opened TestResults
  import opened DataTree
  import opened Decimal

  /** A top-level index of an existing result, in one of the four columns. */
  ghost predicate IsTopLevel(m: TestDataModel, x: ModelIndex)
    reads m
  {
    x.Idx? && x.id == TOPLEVEL_ID && x.row < |m.results| && x.col < |HEADERS|
  }

  /** A detail line of an existing result, in the only column detail rows have. */
  ghost predicate IsDetail(m: TestDataModel, x: ModelIndex)
    reads m
  {
    x.Idx? && x.id != TOPLEVEL_ID && x.id < |m.results| && x.row < |m.results[x.id].extraText| && x.col == 0
  }

  /** The indices that denote a node of the current tree: the root, a result or a detail line. */
  ghost predicate Wellformed(m: TestDataModel, x: ModelIndex)
    reads m
  {
    x.Invalid? || IsTopLevel(m, x) || IsDetail(m, x)
  }

  // ----- index -----

  /** Under the root, `index` gives a top-level index exactly for the in-bounds positions. */
  lemma IndexUnderRoot(m: TestDataModel, row: int, column: int)
    ensures m.Index(row, column, Invalid) ==
      if 0 <= row < |m.results| && 0 <= column < 4 then Idx(row, column, TOPLEVEL_ID) else Invalid
  {
  }

  /** Under a result's row in column 0, `index` gives its detail lines, tagged with that row. */
  lemma IndexUnderTopLevel(m: TestDataModel, r: nat, row: int, column: int)
    requires r < |m.results|
    ensures m.Index(row, column, Idx(r, 0, TOPLEVEL_ID)) ==
      if 0 <= row < |m.results[r].extraText| && column == 0 then Idx(row, 0, r) else Invalid
  {
  }

  /** `index` never fails: it is valid exactly when the position is within rowCount and columnCount. */
  lemma IndexInBounds(m: TestDataModel, row: int, column: int, parent: ModelIndex)
    requires m.RowCountDefined(parent)
    ensures m.Index(row, column, parent).Idx? <==>
      0 <= row < m.RowCount(parent) && 0 <= column < m.ColumnCount(parent)
  {
  }

  /** A detail line, or a result's row outside column 0, has no children: there is no third level. */
  lemma NoThirdLevel(m: TestDataModel, parent: ModelIndex, row: int, column: int)
    requires parent.Idx? && (parent.id != TOPLEVEL_ID || parent.col != 0)
    ensures m.RowCount(parent) == 0
    ensures m.Index(row, column, parent) == Invalid
  {
  }

  // ----- rowCount and columnCount -----

  /**
   * The root has one row per result (none for the empty list); a result's
   * row in column 0 has one row per detail line.
   */
  lemma RowCounts(m: TestDataModel, r: nat, c: nat)
    ensures m.RowCount(Invalid) == |m.results|
    ensures m.results == [] ==> m.RowCount(Invalid) == 0
    ensures r < |m.results| ==>
      m.RowCount(Idx(r, c, TOPLEVEL_ID)) == if c == 0 then |m.results[r].extraText| else 0
  {
  }

  /** The root has one column per header; every other node has a single column. */
  lemma ColumnCounts(m: TestDataModel, x: ModelIndex)
    ensures m.ColumnCount(Invalid) == |HEADERS| == 4
    ensures x.Idx? ==> m.ColumnCount(x) == 1
  {
  }

  // ----- parent -----

  /** The root and every top-level index have the root as parent. */
  lemma ParentOfTopLevel(m: TestDataModel, x: ModelIndex)
    requires x.Invalid? || x.id == TOPLEVEL_ID
    ensures m.Parent(x) == Invalid
  {
  }

  /** The parent of a detail line is column 0 of the row its id names, when that row exists. */
  lemma ParentOfDetail(m: TestDataModel, row: nat, column: nat, r: nat)
    requires r != TOPLEVEL_ID
    ensures m.Parent(Idx(row, column, r)) == if r < |m.results| then Idx(r, 0, TOPLEVEL_ID) else Invalid
    ensures r < |m.results| ==> m.Parent(Idx(row, column, r)) == m.Index(r, 0, Invalid)
  {
  }

  /**
   * The parent of an index built under `parent` is `parent` again, as long
   * as no result's row collides with the top-level sentinel.
   */
  lemma ParentOfIndex(m: TestDataModel, row: int, column: int, parent: ModelIndex)
    requires m.RowCountDefined(parent)
    requires |m.results| <= TOPLEVEL_ID
    ensures m.Index(row, column, parent).Idx? ==> m.Parent(m.Index(row, column, parent)) == parent
  {
  }

  /** Every node of the tree is rebuilt by `index` from its position under its parent. */
  lemma IndexOfParent(m: TestDataModel, x: ModelIndex)
    requires IsTopLevel(m, x) || IsDetail(m, x)
    ensures m.RowCountDefined(m.Parent(x))
    ensures m.Index(x.row, x.col, m.Parent(x)) == x
  {
  }

  /**
   * With a row at the sentinel itself, a detail line of that row reads as a
   * top-level index: its parent is the root, not the row it was built under.
   */
  lemma SentinelCollision(m: TestDataModel, i: nat)
    requires TOPLEVEL_ID < |m.results| && i < |m.results[TOPLEVEL_ID].extraText|
    ensures m.Index(i, 0, Idx(TOPLEVEL_ID, 0, TOPLEVEL_ID)) == Idx(i, 0, TOPLEVEL_ID)
    ensures m.Parent(m.Index(i, 0, Idx(TOPLEVEL_ID, 0, TOPLEVEL_ID))) == Invalid
  {
  }

  // ----- the indices the model hands out -----

  /** `index` under a node of the tree gives a node of the tree or the invalid index. */
  lemma IndexIsWellformed(m: TestDataModel, row: int, column: int, parent: ModelIndex)
    requires Wellformed(m, parent)
    requires |m.results| <= TOPLEVEL_ID
    ensures m.RowCountDefined(parent)
    ensures Wellformed(m, m.Index(row, column, parent))
  {
  }

  /** `parent` of any index gives a node of the tree. */
  lemma ParentIsWellformed(m: TestDataModel, x: ModelIndex)
    ensures Wellformed(m, m.Parent(x))
  {
  }

  /** A node of the tree can be passed to rowCount and, in every role, to data without a lookup failing. */
  lemma WellformedIsReadable(m: TestDataModel, x: ModelIndex, role: Role)
    requires Wellformed(m, x)
    ensures m.RowCountDefined(x)
    ensures m.DataDefined(x, role)
  {
  }

  // ----- data -----

  /** A detail line displays its line of the owning result's extra text. */
  lemma DisplayOfDetail(m: TestDataModel, r: nat, i: nat)
    requires r != TOPLEVEL_ID && r < |m.results| && i < |m.results[r].extraText|
    ensures m.Data(Idx(i, 0, r), DisplayRole) == Text(m.results[r].extraText[i])
  {
  }

  /** A result's row displays status, name, message and time in its four columns, and nothing beyond. */
  lemma DisplayOfTopLevel(m: TestDataModel, r: nat, c: nat)
    requires r < |m.results|
    ensures c == STATUS_COLUMN ==> m.Data(Idx(r, c, TOPLEVEL_ID), DisplayRole) == Text(m.results[r].status)
    ensures c == NAME_COLUMN ==> m.Data(Idx(r, c, TOPLEVEL_ID), DisplayRole) == Text(m.results[r].name)
    ensures c == MESSAGE_COLUMN ==> m.Data(Idx(r, c, TOPLEVEL_ID), DisplayRole) == Text(m.results[r].message)
    ensures c == TIME_COLUMN ==> (
      var t := m.results[r].time;
      m.Data(Idx(r, c, TOPLEVEL_ID), DisplayRole) ==
        if t.None? || t.value == 0.0 then Text("") else TimeText(t.value * 1000.0))
    ensures c >= |HEADERS| ==> m.Data(Idx(r, c, TOPLEVEL_ID), DisplayRole) == NoData
  {
  }

  /** Only the name cell of a result's row has a tool tip: the test's module and name joined by a dot. */
  lemma ToolTipOnlyOnName(m: TestDataModel, x: ModelIndex)
    requires m.DataDefined(x, ToolTipRole)
    ensures m.Data(x, ToolTipRole) != NoData <==> x.Idx? && x.id == TOPLEVEL_ID && x.col == NAME_COLUMN
    ensures m.Data(x, ToolTipRole) != NoData ==>
      m.Data(x, ToolTipRole) == Text(m.results[x.row].moduleName + "." + m.results[x.row].name)
  {
  }

  /** Only detail lines have a font, and it is the monospace one. */
  lemma FontOnlyOnDetail(m: TestDataModel, x: ModelIndex)
    ensures m.DataDefined(x, FontRole)
    ensures m.Data(x, FontRole) != NoData <==> x.Idx? && x.id != TOPLEVEL_ID
    ensures m.Data(x, FontRole) != NoData ==> m.Data(x, FontRole) == MonospaceFont
  {
  }

  /**
   * Only result rows have a background, and it depends on the result's
   * category alone: every column of the row has the same one.
   */
  lemma BackgroundByCategory(m: TestDataModel, r: nat, c1: nat, c2: nat)
    requires r < |m.results|
    ensures m.Data(Idx(r, c1, TOPLEVEL_ID), BackgroundRole) == Brush(ColorOf(m.results[r].category))
    ensures m.Data(Idx(r, c1, TOPLEVEL_ID), BackgroundRole) == m.Data(Idx(r, c2, TOPLEVEL_ID), BackgroundRole)
  {
  }

  lemma NoBackgroundOnDetail(m: TestDataModel, x: ModelIndex)
    requires x.Invalid? || x.id != TOPLEVEL_ID
    ensures m.Data(x, BackgroundRole) == NoData
  {
  }

  /** Passed, failed and skipped rows are told apart by colour; skipped and pending rows are not. */
  lemma ColorsDistinct()
    ensures ColorOf(OK) != ColorOf(FAIL)
    ensures ColorOf(OK) != ColorOf(SKIP)
    ensures ColorOf(FAIL) != ColorOf(SKIP)
    ensures ColorOf(SKIP) == ColorOf(PENDING)
  {
  }

  /** Roles the model does not answer give no data. */
  lemma OtherRoleGivesNoData(m: TestDataModel, x: ModelIndex)
    ensures m.DataDefined(x, OtherRole)
    ensures m.Data(x, OtherRole) == NoData
  {
  }

  // ----- headerData -----

  /** Column i of the horizontal header is titled HEADERS[i], and the titles match the column constants. */
  lemma HeaderTitles(m: TestDataModel, section: nat)
    requires section < |HEADERS|
    ensures m.HeaderData(section, Horizontal, DisplayRole) == Text(HEADERS[section])
    ensures m.HeaderData(section - |HEADERS|, Horizontal, DisplayRole) == Text(HEADERS[section])
    ensures HEADERS[STATUS_COLUMN] == "Status" && HEADERS[NAME_COLUMN] == "Name"
    ensures HEADERS[MESSAGE_COLUMN] == "Message" && HEADERS[TIME_COLUMN] == "Time (ms)"
  {
  }

  // ----- summary -----

  /** The summary of a non-empty list reports its exact failed, passed and skipped counts. */
  lemma SummaryRoundTrip(m: TestDataModel)
    requires m.results != []
    ensures ParseSummary(m.Summary()) == Some(Tally(
      CountOf(m.results, FAIL), CountOf(m.results, FAIL) == 1,
      CountOf(m.results, OK), CountOf(m.results, SKIP)))
  {
    SummaryTextRoundTrip(CountOf(m.results, FAIL), CountOf(m.results, OK), CountOf(m.results, SKIP));
  }

  /** The empty model's message is not mistaken for a count line. */
  lemma NoResultsIsNotATally()
    ensures ParseSummary(NO_RESULTS).None?
  {
  }

  /** Pending tests are counted nowhere: the three counts add up to the list length exactly when none is pending. */
  lemma SummaryCountsBound(m: TestDataModel)
    ensures CountOf(m.results, FAIL) + CountOf(m.results, OK) + CountOf(m.results, SKIP) <= |m.results|
    ensures CountOf(m.results, FAIL) + CountOf(m.results, OK) + CountOf(m.results, SKIP) == |m.results|
      <==> CountOf(m.results, PENDING) == 0
  {
    CountsPartition(m.results);
  }

  /**
   * Two passes, one failure and one skip: the summary reads back as
   * "1 test failed, 2 passed, 1 other", with the singular "test".
   */
  lemma SummaryExample(m: TestDataModel)
    requires |m.results| == 4
    requires m.results[0].category == OK && m.results[1].category == OK
    requires m.results[2].category == FAIL && m.results[3].category == SKIP
    ensures m.Summary() == SummaryText(1, 2, 1)
    ensures ParseSummary(m.Summary()) == Some(Tally(1, true, 2, 1))
  {
    var rs := m.results;
    var t1, t2, t3 := rs[1..], rs[2..], rs[3..];
    assert t1[1..] == t2 && t2[1..] == t3 && t3[1..] == [];
    assert t1[0] == rs[1] && t2[0] == rs[2] && t3[0] == rs[3];
    assert CountOf(t3, FAIL) == 0 && CountOf(t3, OK) == 0 && CountOf(t3, SKIP) == 1;
    assert CountOf(t2, FAIL) == 1 && CountOf(t2, OK) == 0 && CountOf(t2, SKIP) == 1;
    assert CountOf(t1, FAIL) == 1 && CountOf(t1, OK) == 1 && CountOf(t1, SKIP) == 1;
    assert CountOf(rs, FAIL) == 1 && CountOf(rs, OK) == 2 && CountOf(rs, SKIP) == 1;
    SummaryTextRoundTrip(1, 2, 1);
  }
}
