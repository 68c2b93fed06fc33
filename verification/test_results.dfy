/**
 * The records the test runner hands to the result model. The runner's own
 * `Category` enumeration and `TestResult` class live in
 * spyder_unittest/backend/runnerbase.py, which is not part of this model;
 * only the fields the model reads are kept.
 */
module TestResults {
  import opened Wrappers

  /** How a test ended: this drives the row colour and the summary counts. */
  datatype Category = OK | FAIL | SKIP | PENDING

  /**
   * One test result. `time` is in seconds and may be absent (Python `None`);
   * `extraText` holds the detail lines (captured output, traceback) shown as
   * children of the result's row.
   */
  datatype TestResult = TestResult(
    category: Category,
    status: string,
    name: string,
    moduleName: string,
    message: string,
    time: Option<real>,
    extraText: seq<string>)

  /** The categories of `rs`, in row order. */
  function Categories(rs: seq<TestResult>): (cs: seq<Category>)
    ensures |cs| == |rs|
  {
    seq(|rs|, i requires 0 <= i < |rs| => rs[i].category)
  }

  /** How many results of `rs` are in category `c`: `Counter(...)[c]` in the source. */
  function CountOf(rs: seq<TestResult>, c: Category): (n: nat)
    ensures n <= |rs|
  {
    if rs == [] then 0 else (if rs[0].category == c then 1 else 0) + CountOf(rs[1..], c)
  }

  /** The count is exact: it is the multiplicity of `c` in the multiset of categories. */
  lemma {:induction false} CountOfIsMultiplicity(rs: seq<TestResult>, c: Category)
    ensures CountOf(rs, c) == multiset(Categories(rs))[c]
  {
    if rs != [] {
      CountOfIsMultiplicity(rs[1..], c);
      assert Categories(rs) == [rs[0].category] + Categories(rs[1..]);
    }
  }

  /** Counting distributes over appending results. */
  lemma {:induction false} CountOfAppend(a: seq<TestResult>, b: seq<TestResult>, c: Category)
    ensures CountOf(a + b, c) == CountOf(a, c) + CountOf(b, c)
  {
    if a != [] {
      assert (a + b)[1..] == a[1..] + b;
      CountOfAppend(a[1..], b, c);
    } else {
      assert a + b == b;
    }
  }

  /** Every result is in exactly one of the four categories. */
  lemma {:induction false} CountsPartition(rs: seq<TestResult>)
    ensures CountOf(rs, OK) + CountOf(rs, FAIL) + CountOf(rs, SKIP) + CountOf(rs, PENDING) == |rs|
  {
    if rs != [] {
      CountsPartition(rs[1..]);
    }
  }
}
