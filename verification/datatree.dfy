/**
 * The result model of the unit-testing plugin (`TestDataModel` in
 * spyder_unittest/widgets/datatree.py): a list of test results exposed to a
 * tree view as a two-level tree. Every result is a top-level row with four
 * columns; every line of a result's `extraText` is a one-column child of
 * that row.
 *
 * An index is Qt's triple (row, column, internal id). Top-level items carry
 * the sentinel TOPLEVEL_ID as their id; a child carries the row of the result
 * it belongs to. Translation is the identity and colours and fonts are tokens.
 */
module DataTree {
  import opened Wrappers
  import opened TestResults
  import opened Decimal

  const STATUS_COLUMN: nat := 0
  const NAME_COLUMN: nat := 1
  const MESSAGE_COLUMN: nat := 2
  const TIME_COLUMN: nat := 3

  /** Column titles, one per column of a top-level row. */
  const HEADERS: seq<string> := ["Status", "Name", "Message", "Time (ms)"]

  /** The internal id of every top-level index: 2^32 - 1. */
  const TOPLEVEL_ID: nat := 0x1_0000_0000 - 1

  const NO_RESULTS: string := "No results to show."

  /** Qt's QModelIndex: the invalid index stands for the root of the tree. */
  datatype ModelIndex = Invalid | Idx(row: nat, col: nat, id: nat)

  /** The item-data roles the model answers; every other role is OtherRole. */
  datatype Role = DisplayRole | ToolTipRole | FontRole | BackgroundRole | OtherRole

  datatype Orientation = Horizontal | Vertical

  /**
   * What `data` and `headerData` return. NoData is Python's `None`;
   * TimeText(ms) is the text `str(ms)` of a duration in milliseconds;
   * MonospaceFont is the model's fixed-width font; Brush(rgb) a background
   * brush of the given colour.
   */
  datatype Variant = NoData | Text(s: string) | TimeText(ms: real) | MonospaceFont | Brush(rgb: string)

  predicate IsHexDigit(c: char) {
    IsDigit(c) || 'A' <= c <= 'F'
  }

  /** The COLORS table: the background colour of a row of each category. */
  function ColorOf(c: Category): (rgb: string)
    ensures |rgb| == 7 && rgb[0] == '#'
    ensures forall i :: 1 <= i < 7 ==> IsHexDigit(rgb[i])
  {
    match c
    case OK => "#C1FFBA"
    case FAIL => "#FF0000"
    case SKIP => "#C5C5C5"
    case PENDING => "#C5C5C5"
  }

  /** The Time column: milliseconds when the time is present and non-zero, else empty. */
  function TimeDisplay(time: Option<real>): (v: Variant)
    ensures v.TimeText? <==> time.Some? && time.value != 0.0
    ensures v.TimeText? ==> v.ms == time.value * 1000.0
    ensures !v.TimeText? ==> v == Text("")
  {
    if time.Some? && time.value != 0.0 then TimeText(time.value * 1000.0) else Text("")
  }

  /**
   * The reset notifications the model sends to its views. Each carries the
   * result list as it stands when the notification is sent.
   */
  datatype Notification = BeginReset(before: seq<TestResult>) | EndReset(after: seq<TestResult>)

  /**
   * A log made of BeginReset/EndReset pairs, in which each reset begins with
   * the list the previous reset ended with: the list never changes outside a
   * reset, so a view never sees a change it was not told about.
   */
  ghost predicate Bracketed(log: seq<Notification>)
  {
    if log == [] then true
    else
      |log| >= 2 && log[0].BeginReset? && log[1].EndReset? &&
      (|log| > 2 ==> log[2].BeginReset? && log[2].before == log[1].after) &&
      Bracketed(log[2..])
  }

  /** One more reset pair that starts from the list the log ended with keeps the log bracketed. */
  lemma {:induction false} BracketedExtend(log: seq<Notification>, before: seq<TestResult>, after: seq<TestResult>)
    requires Bracketed(log)
    requires log != [] ==> log[|log| - 1] == EndReset(before)
    ensures Bracketed(log + [BeginReset(before), EndReset(after)])
    decreases |log|
  {
    var ext := log + [BeginReset(before), EndReset(after)];
    if log != [] {
      assert ext[2..] == log[2..] + [BeginReset(before), EndReset(after)];
      if |log| > 2 {
        BracketedExtend(log[2..], before, after);
      } else {
        assert ext[2..] == [BeginReset(before), EndReset(after)];
        assert ext[2..][2..] == [];
      }
    } else {
      assert ext[2..] == [];
    }
  }

  /** The result list and what the views have been told about it. */
  class TestDataModel {
    /** `_testresults` in the source. */
    var results: seq<TestResult>
    /** Every reset notification sent so far, oldest first. */
    ghost var log: seq<Notification>

    ghost predicate Valid()
      reads this
    {
      Bracketed(log) && |log| >= 2 && log[|log| - 1] == EndReset(results)
    }

    /**
     * A new model holds no results; the constructor assigns the empty list
     * through the setter, so the log starts with one reset pair. There is no
     * list before that first assignment: its BeginReset carries the empty one.
     */
    constructor ()
      ensures Valid()
      ensures results == []
      ensures log == [BeginReset([]), EndReset([])]
    {
      results := [];
      log := [BeginReset([]), EndReset([])];
      new;
      assert log[2..] == [];
    }

    /** The `testresults` setter: replaces the whole list inside a reset. */
    method SetTestResults(newValue: seq<TestResult>)
      requires Valid()
      modifies this
      ensures Valid()
      ensures results == newValue
      ensures log == old(log) + [BeginReset(old(results)), EndReset(newValue)]
    {
      BracketedExtend(log, results, newValue);
      log := log + [BeginReset(results)];
      results := newValue;
      log := log + [EndReset(results)];
      assert log == old(log) + [BeginReset(old(results)), EndReset(newValue)];
    }

    /** `add_testresults`: assigns the old list followed by the new tests through the setter. */
    method AddTestResults(newTests: seq<TestResult>)
      requires Valid()
      modifies this
      ensures Valid()
      ensures results == old(results) + newTests
      ensures log == old(log) + [BeginReset(old(results)), EndReset(old(results) + newTests)]
      ensures forall c :: CountOf(results, c) == CountOf(old(results), c) + CountOf(newTests, c)
    {
      forall c {
        CountOfAppend(results, newTests, c);
      }
      SetTestResults(results + newTests);
    }

    /**
     * The indices `RowCount` may be asked about without the list lookup
     * raising IndexError: a top-level index in column 0 must name an
     * existing result.
     */
    predicate RowCountDefined(parent: ModelIndex)
      reads this
    {
      parent.Idx? && parent.id == TOPLEVEL_ID && parent.col == 0 ==> parent.row < |results|
    }

    /** `rowCount`: the number of children of `parent`. */
    function RowCount(parent: ModelIndex): (n: nat)
      reads this
      requires RowCountDefined(parent)
      ensures parent.Invalid? ==> n == |results|
      ensures parent.Idx? && parent.id == TOPLEVEL_ID && parent.col == 0 ==> n == |results[parent.row].extraText|
      ensures parent.Idx? && (parent.id != TOPLEVEL_ID || parent.col != 0) ==> n == 0
    {
      if parent.Invalid? then |results|
      else if parent.id == TOPLEVEL_ID && parent.col == 0 then |results[parent.row].extraText|
      else 0
    }

    /** `columnCount`: four columns at the top level, one below it. */
    function ColumnCount(parent: ModelIndex): (n: nat)
      ensures parent.Invalid? ==> n == |HEADERS| == 4
      ensures parent.Idx? ==> n == 1
    {
      if parent.Invalid? then |HEADERS| else 1
    }

    /** Qt's `hasIndex`: the bounds check `index` starts with. */
    predicate HasIndex(row: int, column: int, parent: ModelIndex)
      reads this
      requires row >= 0 && column >= 0 ==> RowCountDefined(parent)
    {
      row >= 0 && column >= 0 && row < RowCount(parent) && column < ColumnCount(parent)
    }

    /**
     * `index`: the index of the item at (row, column) under `parent`, or the
     * invalid index when that position is out of bounds.
     */
    function Index(row: int, column: int, parent: ModelIndex): (r: ModelIndex)
      reads this
      requires row >= 0 && column >= 0 ==> RowCountDefined(parent)
      ensures r.Idx? ==> r.row == row && r.col == column
    {
      if !HasIndex(row, column, parent) then Invalid
      else if parent.Invalid? then Idx(row, column, TOPLEVEL_ID)
      else Idx(row, column, parent.row)
    }

    /** `parent`: the root for a top-level index, else the top-level index of the owning result. */
    function Parent(index: ModelIndex): (r: ModelIndex)
      reads this
      ensures r.Idx? ==> r.col == 0 && r.id == TOPLEVEL_ID && r.row < |results|
    {
      if index.Invalid? then Invalid
      else if index.id == TOPLEVEL_ID then Invalid
      else Index(index.id, 0, Invalid)
    }

    /**
     * The (index, role) pairs `data` may be asked about without a list
     * lookup raising IndexError: exactly the lookups the source makes.
     */
    predicate DataDefined(index: ModelIndex, role: Role)
      reads this
    {
      index.Idx? ==>
        match role
        case DisplayRole =>
          if index.id != TOPLEVEL_ID then index.id < |results| && index.row < |results[index.id].extraText|
          else index.col <= TIME_COLUMN ==> index.row < |results|
        case ToolTipRole => index.id == TOPLEVEL_ID && index.col == NAME_COLUMN ==> index.row < |results|
        case BackgroundRole => index.id == TOPLEVEL_ID ==> index.row < |results|
        case FontRole => true
        case OtherRole => true
    }

    /** `data`: the value of the item `index` points to in the given role. */
    function Data(index: ModelIndex, role: Role): (r: Variant)
      reads this
      requires DataDefined(index, role)
      ensures index.Invalid? ==> r == NoData
    {
      if index.Invalid? then NoData
      else
        match role
        case DisplayRole =>
          if index.id != TOPLEVEL_ID then Text(results[index.id].extraText[index.row])
          else if index.col == STATUS_COLUMN then Text(results[index.row].status)
          else if index.col == NAME_COLUMN then Text(results[index.row].name)
          else if index.col == MESSAGE_COLUMN then Text(results[index.row].message)
          else if index.col == TIME_COLUMN then TimeDisplay(results[index.row].time)
          else NoData
        case ToolTipRole =>
          if index.id == TOPLEVEL_ID && index.col == NAME_COLUMN
          then Text(results[index.row].moduleName + "." + results[index.row].name)
          else NoData
        case FontRole =>
          if index.id != TOPLEVEL_ID then MonospaceFont else NoData
        case BackgroundRole =>
          if index.id == TOPLEVEL_ID then Brush(ColorOf(results[index.row].category)) else NoData
        case OtherRole => NoData
    }

    /**
     * `headerData`: the column title for a horizontal header in the display
     * role. The source subscripts HEADERS with `section`, so Python's
     * negative subscripts count from the end and anything else raises.
     */
    function HeaderData(section: int, orientation: Orientation, role: Role): (r: Variant)
      requires orientation == Horizontal && role == DisplayRole ==> -|HEADERS| <= section < |HEADERS|
      ensures r != NoData <==> orientation == Horizontal && role == DisplayRole
    {
      if orientation == Horizontal && role == DisplayRole
      then Text(HEADERS[if section < 0 then section + |HEADERS| else section])
      else NoData
    }

    /** `summary`: the one-line account of the failed, passed and skipped tests. */
    function Summary(): (s: string)
      reads this
      ensures s == NO_RESULTS <==> results == []
    {
      if |results| == 0 then NO_RESULTS
      else SummaryText(CountOf(results, FAIL), CountOf(results, OK), CountOf(results, SKIP))
    }
  }

  /** The summary line for the given counts; "test" is singular only for one failure. */
  function SummaryText(failed: nat, passed: nat, other: nat): (s: string)
    ensures |s| > 7 && s[..3] == "<b>" && s[|s| - 4..] == "</b>"
  {
    var tail := NatToString(other) + " other</b>";
    assert tail[|tail| - 4..] == "</b>";
    var s := "<b>" + (NatToString(failed) + (FailedPhrase(failed) +
      (NatToString(passed) + (" passed, " + tail))));
    assert s[|s| - 4..] == tail[|tail| - 4..];
    s
  }

  /** The words after the failure count. */
  function FailedPhrase(failed: nat): string
  {
    if failed == 1 then " test failed, " else " tests failed, "
  }

  /** What a summary line states: the three counts and whether "test" was singular. */
  datatype Tally = Tally(failed: nat, singular: bool, passed: nat, other: nat)

  /** `s` without the prefix `p`, or None when `s` does not start with `p`. */
  function StripPrefix(p: string, s: string): (r: Option<string>)
    ensures r.Some? <==> |p| <= |s| && s[..|p|] == p
    ensures r.Some? ==> s == p + r.value
  {
    if |p| <= |s| && s[..|p|] == p then Some(s[|p|..]) else None
  }

  /** Reads a summary line back into the counts it reports; None for any other text. */
  function ParseSummary(s: string): Option<Tally>
  {
    match StripPrefix("<b>", s)
    case None => None
    case Some(s0) =>
      match ParseNat(s0)
      case None => None
      case Some((failed, s1)) =>
        match ParseAfterFailed(s1)
        case None => None
        case Some((singular, passed, other)) => Some(Tally(failed, singular, passed, other))
  }

  /** Reads " test failed, " or " tests failed, " and then the passed and other counts. */
  function ParseAfterFailed(s: string): Option<(bool, nat, nat)>
  {
    var singular := StripPrefix(" test failed, ", s);
    var plural := StripPrefix(" tests failed, ", s);
    if singular.None? && plural.None? then None
    else
      match ParsePassedOther(if singular.Some? then singular.value else plural.value)
      case None => None
      case Some((passed, other)) => Some((singular.Some?, passed, other))
  }

  /** Reads the "<passed> passed, <other> other</b>" end of a summary line. */
  function ParsePassedOther(s: string): Option<(nat, nat)>
  {
    match ParseNat(s)
    case None => None
    case Some((passed, s1)) =>
      match StripPrefix(" passed, ", s1)
      case None => None
      case Some(s2) =>
        match ParseNat(s2)
        case None => None
        case Some((other, s3)) => if s3 == " other</b>" then Some((passed, other)) else None
  }

  lemma StripPrefixOf(p: string, t: string)
    ensures StripPrefix(p, p + t) == Some(t)
  {
  }

  lemma PassedOtherRoundTrip(passed: nat, other: nat)
    ensures ParsePassedOther(NatToString(passed) + (" passed, " + (NatToString(other) + " other</b>")))
      == Some((passed, other))
  {
    var tail := NatToString(other) + " other</b>";
    ParseNatToString(passed, " passed, " + tail);
    StripPrefixOf(" passed, ", tail);
    ParseNatToString(other, " other</b>");
  }

  lemma AfterFailedRoundTrip(failed: nat, tail: string)
    ensures ParseAfterFailed(FailedPhrase(failed) + tail) ==
      match ParsePassedOther(tail)
      case None => None
      case Some((passed, other)) => Some((failed == 1, passed, other))
  {
    if failed == 1 {
      StripPrefixOf(" test failed, ", tail);
    } else {
      var s := " tests failed, " + tail;
      assert s[5] != " test failed, "[5];
      assert StripPrefix(" test failed, ", s).None?;
      StripPrefixOf(" tests failed, ", tail);
    }
  }

  /** Reading a summary line back gives the counts it was written from. */
  lemma SummaryTextRoundTrip(failed: nat, passed: nat, other: nat)
    ensures ParseSummary(SummaryText(failed, passed, other)) == Some(Tally(failed, failed == 1, passed, other))
  {
    var tail2 := NatToString(passed) + (" passed, " + (NatToString(other) + " other</b>"));
    var tail1 := FailedPhrase(failed) + tail2;
    var tail0 := NatToString(failed) + tail1;
    StripPrefixOf("<b>", tail0);
    ParseNatToString(failed, tail1);
    PassedOtherRoundTrip(passed, other);
    AfterFailedRoundTrip(failed, tail2);
  }
}
