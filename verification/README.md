# Test-result tree model of spyder-unittest, in Dafny

This project models `TestDataModel`, the Qt item model behind the unit-testing
plugin's result pane (`spyder_unittest/widgets/datatree.py`). The model holds
the list of test results as a two-level tree:

- every test result is a top-level row with four columns: Status, Name,
  Message and Time (ms);
- every line of a result's `extra_text` is a one-column child of that row.

A Qt index is the triple (row, column, internal id). The id of a top-level
item is the sentinel `TOPLEVEL_ID = 2^32 - 1`. The id of a child is the row of
the result it belongs to.

Files:

- `wrappers.dfy`: `Option`.
- `decimal.dfy`: the decimal text Python's `'{}'.format(n)` gives a count, and
  a reader that takes it back.
- `test_results.dfy`: the `Category` enumeration, the `TestResult` record and
  `CountOf`, which counts the results in a category (the `Counter` of the
  summary).
- `datatree.dfy`: the module constants, `ModelIndex`, roles and returned
  values, and the class `TestDataModel`:
  - its `results` field and a ghost log of the reset notifications it sends;
  - the setter and `add_testresults` as methods;
  - `index`, `parent`, `rowCount`, `columnCount`, `data`, `headerData` and
    `summary` as functions over the field;
  - `ParseSummary`, a reader for the summary line, used to state what the line
    reports.
- `datatree_properties.dfy`: lemmas about these queries:
  - an index and its parent round-trip;
  - out-of-bounds requests give the invalid index;
  - there is no third level;
  - every index the model hands out can be read without a failing lookup;
  - `data` by role;
  - header titles;
  - exact summary counts.

Where the Python code would raise `IndexError` (a list subscript out of
range), the model has a precondition that names exactly that subscript:
`RowCountDefined`, `DataDefined`, and the section range of `HeaderData`.
For the index preconditions:

- `IndexIsWellformed` shows that, with at most `TOPLEVEL_ID` results, `index`
  under a node of the tree gives a node of the tree or the invalid index;
- `ParentIsWellformed` shows that `parent` always gives a node of the tree;
- `WellformedIsReadable` shows that every node of the tree meets
  `RowCountDefined` and `DataDefined` in every role.

A header section is a column number, not an index. `HeaderTitles` shows
that every column of the root, counted from either end, is a section
`HeaderData` accepts.

Translation (`_`) is the identity. Colours are their hex strings. The
monospace font is a token.

## Model

| member | source | states |
|---|---|---|
| `TestResults.CountOf` | spyder_unittest/widgets/datatree.py:214 | a category's count never exceeds the number of results; its exact value is pinned down by `CountOfIsMultiplicity` |
| `TestResults.CountOfIsMultiplicity` | spyder_unittest/widgets/datatree.py:214 | the count of a category is exactly its multiplicity in the multiset of the results' categories, which is what `Counter` computes |
| `TestResults.CountOfAppend` | spyder_unittest/widgets/datatree.py:214 | counting distributes over concatenation of result lists |
| `TestResults.CountsPartition` | spyder_unittest/widgets/datatree.py:214 | the OK, FAIL, SKIP and PENDING counts add up to the number of results |
| `Decimal.NatToString` | spyder_unittest/widgets/datatree.py:219-222 | the decimal text of a count is non-empty and all digits; it starts with '0' only for zero; it has one digit exactly below ten |
| `Decimal.DigitsValueOfNatToString` | spyder_unittest/widgets/datatree.py:219-222 | the digits written for a count denote that count |
| `Decimal.ParseNatToString` | spyder_unittest/widgets/datatree.py:219-222 | reading a number back from its text followed by a non-digit gives the number and the rest of the text |
| `DataTree.ColorOf` | spyder_unittest/widgets/datatree.py:26-31 | the COLORS table maps every category to a `#RRGGBB` colour: `#` followed by six hex digits |
| `DataTree.TimeDisplay` | spyder_unittest/widgets/datatree.py:161-163 | the Time cell is the time in milliseconds (seconds times 1000) exactly when a time is present and non-zero; otherwise it is the empty text |
| `DataTree.BracketedExtend` | spyder_unittest/widgets/datatree.py:108-113 | appending one more begin/end reset pair, whose begin sees the list the last reset ended with, keeps the notification log well bracketed |
| `DataTree.TestDataModel.constructor` | spyder_unittest/widgets/datatree.py:93-96 | a new model holds no results and has sent one reset pair (the empty list is assigned through the setter) |
| `DataTree.TestDataModel.SetTestResults` | spyder_unittest/widgets/datatree.py:108-113 | the setter replaces the whole list: begin-reset is sent with the old list, end-reset with the new one, and the log stays bracketed |
| `DataTree.TestDataModel.AddTestResults` | spyder_unittest/widgets/datatree.py:115-123 | appending leaves the list as old rows followed by the new tests in their order, inside one reset pair; each category's count becomes the old count plus its count among the new tests |
| `DataTree.TestDataModel.RowCount` | spyder_unittest/widgets/datatree.py:195-201 | the root has one row per result; a result's row in column 0 has one row per line of its extra text; every other index has none |
| `DataTree.TestDataModel.ColumnCount` | spyder_unittest/widgets/datatree.py:203-208 | the root has `len(HEADERS) = 4` columns, every valid index one |
| `DataTree.TestDataModel.Index` | spyder_unittest/widgets/datatree.py:125-137 | a valid index returned by `index` carries the requested row and column |
| `DataTree.TestDataModel.Parent` | spyder_unittest/widgets/datatree.py:185-193 | a parent is the root or column 0 of an existing result's row |
| `DataTree.TestDataModel.Data` | spyder_unittest/widgets/datatree.py:147-148 | an invalid index gives no data |
| `DataTree.TestDataModel.HeaderData` | spyder_unittest/widgets/datatree.py:178-183 | a header has data exactly for the horizontal orientation in the display role |
| `DataTree.TestDataModel.Summary` | spyder_unittest/widgets/datatree.py:210-213 | the summary is "No results to show." exactly when the list is empty |
| `DataTree.SummaryText` | spyder_unittest/widgets/datatree.py:215-224 | the count line starts with `<b>` and ends with `</b>`; its content is pinned down by `SummaryTextRoundTrip` |
| `DataTree.SummaryTextRoundTrip` | spyder_unittest/widgets/datatree.py:215-224 | reading a count line back gives the failed, passed and other counts it was written from. It reads "test" exactly when one test failed |
| `DataTreeProperties.IndexUnderRoot` | spyder_unittest/widgets/datatree.py:131-134 | under the root, `index(r, c)` is `Idx(r, c, TOPLEVEL_ID)` for `0 <= r < len(results)` and `0 <= c < 4`. It is the invalid index for every other r and c |
| `DataTreeProperties.IndexUnderTopLevel` | spyder_unittest/widgets/datatree.py:131-137 | under row r in column 0, `index(i, c)` is `Idx(i, 0, r)` for an existing detail line i in column 0, else invalid: a child's id is its parent's row |
| `DataTreeProperties.IndexInBounds` | spyder_unittest/widgets/datatree.py:131-132 | `index` is valid exactly when row and column are within `rowCount` and `columnCount` of the parent; otherwise it returns the invalid index and never fails |
| `DataTreeProperties.NoThirdLevel` | spyder_unittest/widgets/datatree.py:195-201 | a detail line, or a result's row outside column 0, has no rows and every index under it is invalid |
| `DataTreeProperties.RowCounts` | spyder_unittest/widgets/datatree.py:195-201 | the root has one row per result, so none for the empty list; row r in column 0 has one row per line of its extra text, in another column none |
| `DataTreeProperties.ColumnCounts` | spyder_unittest/widgets/datatree.py:203-208 | the root has `len(HEADERS) = 4` columns, every valid index one |
| `DataTreeProperties.ParentOfTopLevel` | spyder_unittest/widgets/datatree.py:187-191 | the parent of the invalid index and of every top-level index is the root |
| `DataTreeProperties.ParentOfDetail` | spyder_unittest/widgets/datatree.py:192-193 | the parent of a detail index with id r is `index(r, 0)`: `Idx(r, 0, TOPLEVEL_ID)` when row r exists, else invalid |
| `DataTreeProperties.ParentOfIndex` | spyder_unittest/widgets/datatree.py:125-137 | the parent of any valid index built under `parent` is `parent` (when there are at most `TOPLEVEL_ID` results) |
| `DataTreeProperties.IndexOfParent` | spyder_unittest/widgets/datatree.py:185-193 | every result row and detail line is rebuilt by `index` from its row and column under its parent |
| `DataTreeProperties.SentinelCollision` | spyder_unittest/widgets/datatree.py:40 | with a result at row `TOPLEVEL_ID`, a child of that row gets the sentinel as id, and its parent is the root rather than that row. This needs more rows than Qt's 32-bit `int` allows, so it documents a limit of the id scheme |
| `DataTreeProperties.IndexIsWellformed` | spyder_unittest/widgets/datatree.py:125-137 | `index` under a node of the tree gives a node of the tree or the invalid index |
| `DataTreeProperties.ParentIsWellformed` | spyder_unittest/widgets/datatree.py:185-193 | `parent` always gives a node of the tree |
| `DataTreeProperties.WellformedIsReadable` | spyder_unittest/widgets/datatree.py:139-176 | a node of the tree can be passed to `rowCount`, and to `data` in every role, without a list lookup failing |
| `DataTreeProperties.DisplayOfDetail` | spyder_unittest/widgets/datatree.py:153-154 | detail line i of result r displays `extra_text[i]` of that result |
| `DataTreeProperties.DisplayOfTopLevel` | spyder_unittest/widgets/datatree.py:155-163 | a result's row displays its status, name and message, and the time in milliseconds or empty text, in columns 0 to 3, and no data in other columns |
| `DataTreeProperties.ToolTipOnlyOnName` | spyder_unittest/widgets/datatree.py:164-167 | a tool tip exists exactly on the Name cell of a result's row; it is the module, a dot and the name |
| `DataTreeProperties.FontOnlyOnDetail` | spyder_unittest/widgets/datatree.py:168-170 | only detail lines have a font, and it is the monospace one |
| `DataTreeProperties.BackgroundByCategory` | spyder_unittest/widgets/datatree.py:171-174 | the background of a result's row is the colour of its category, the same in every column |
| `DataTreeProperties.NoBackgroundOnDetail` | spyder_unittest/widgets/datatree.py:171-174 | the invalid index and detail lines have no background |
| `DataTreeProperties.ColorsDistinct` | spyder_unittest/widgets/datatree.py:26-31 | OK, FAIL and SKIP rows have three different colours; SKIP and PENDING share one |
| `DataTreeProperties.OtherRoleGivesNoData` | spyder_unittest/widgets/datatree.py:175-176 | every other role gives no data, for any index |
| `DataTreeProperties.HeaderTitles` | spyder_unittest/widgets/datatree.py:33-38 | section i of the horizontal header is titled `HEADERS[i]`, also when counted from the end. The titles match the column constants |
| `DataTreeProperties.SummaryRoundTrip` | spyder_unittest/widgets/datatree.py:210-224 | the summary of a non-empty list reports exactly the FAIL, OK and SKIP counts, with "test" exactly when one test failed |
| `DataTreeProperties.NoResultsIsNotATally` | spyder_unittest/widgets/datatree.py:212-213 | the empty-list message reads as no counts |
| `DataTreeProperties.SummaryCountsBound` | spyder_unittest/widgets/datatree.py:214-222 | failed + passed + other is at most the number of results, with equality exactly when no test is pending: PENDING is counted nowhere |
| `DataTreeProperties.SummaryExample` | spyder_unittest/widgets/datatree.py:210-224 | results OK, OK, FAIL, SKIP give the line for 1 failed (singular "test"), 2 passed, 1 other |

## Left out

- `TestDataView` (`datatree.py:43-77`) is not modelled. It resizes columns, aligns headers and spans detail rows across the first column: these are toolkit calls with no state of the model's own.
- The text of the Time cell is not modelled. The source gives `str(time * 1e3)`, which is float multiplication and Python's float formatting. The model returns `TimeText(ms)` with the exact real product, and the empty text for an absent or zero time.
- `QBrush`, `QColor` and `QFont` objects are not modelled. Colours are their hex strings and the font is the token `MonospaceFont`.
- The plugin-font lookup through `parent.window().editor` and its Courier New fallback (`datatree.py:97-101`) are not modelled, because they call into the host application.
- The `get_translation`/gettext fallback (`datatree.py:20-24`) is not modelled: translation is the identity.
- `spyder_unittest/backend/runnerbase.py` is not part of this model. `Category` and `TestResult` keep only the fields the model reads.
- Qt's `createIndex`, `hasIndex`, `beginResetModel` and `endResetModel` are modelled only by their contracts: an index triple, the standard bounds check, and an entry in the ghost notification log.
- `DataTree.TestDataModel.AddTestResults`: Python's `+=` extends the list object in place before the setter's begin-reset fires, so a caller holding the list sees it change. The model builds a new sequence instead, so it does not capture that aliasing.
- `DataTree.TestDataModel.Data`: when an index names a missing row, the source raises `IndexError`. The model requires `DataDefined` instead. Views pass only indices the model created, and `WellformedIsReadable` shows those always meet it.
- `DataTree.TestDataModel.RowCount`: a top-level index in column 0 that names a missing row raises `IndexError` in the source. The model requires `RowCountDefined` instead.
- `DataTree.TestDataModel.Index` has the same precondition, because `hasIndex` calls `rowCount`.
- `DataTree.TestDataModel.HeaderData`: a display-role horizontal section outside -4..3 raises `IndexError` in the source. The model requires the section to be in range, and wraps negative sections as Python does.
- Rows and columns are unbounded naturals, not Qt's 32-bit `int`. In Qt a row cannot reach `TOPLEVEL_ID = 2^32 - 1`, so the id collision that `SentinelCollision` exhibits at that row is outside what the real program can reach.
- The round-trip lemmas assume at most `TOPLEVEL_ID` results, which Qt's row width guarantees.
- `add_testresults` assigns through the setter, so an append sends one begin-reset/end-reset pair and no row-insert notifications. The model does the same.
- Summary text is stated through `ParseSummary` rather than as literal strings. The HTML bold tags and the wording are kept exactly.
- `spyder_unittest/backend/tests/test_pytestworker.py` is not modelled. It tests pytest hooks and a JSON stream writer whose source is not part of this model.
