/**
 * `minibench/report.py`: what the reporters compute from the run suites. `summary` gathers
 * one entry per suite, keyed by class name and `times`; `with_sizes` adds the width of each
 * column of the fixed-width tables; the Markdown and reStructuredText reporters emit those
 * tables line by line, and the CSV reporter emits one row per method.
 *
 * A reporter reads each method's results as an aggregate (`total`, `has_success`,
 * `has_errors`, `error`), given here as data. Formatting a float with the reporter's
 * precision (`FixedWidth.float`) is the parameter `fmt`, used alike for sizing and
 * rendering. Lines and rows are collected in order instead of being written to a file.
 */
module Report {
  import opened Wrappers
  import opened PyStr
  import opened Dicts

  // ---------------------------------------------------------------------------
  // What a reporter reads
  // ---------------------------------------------------------------------------

  /** The results of one method as a reporter reads them. */
  datatype Aggregate = Aggregate(total: real, hasSuccess: bool, hasErrors: bool, error: Option<string>)

  /** One method of a run suite: its label (`label_for(method)`) and its results. */
  datatype MethodView = MethodView(caption: string, aggregate: Aggregate)

  /** One run suite instance: its class name, its `label`, `times` and `results` by method name. */
  datatype SuiteView = SuiteView(className: string, caption: string, times: int, results: Dict<string, MethodView>)

  /** The exceptions the reporters let through. */
  datatype ReportError = ValueError | ZeroDivisionError

  // ---------------------------------------------------------------------------
  // key
  // ---------------------------------------------------------------------------

  /** `key(bench)`: the class name, a dash, then `times`. */
  function Key(suite: SuiteView): string {
    suite.className + "-" + IntStr(suite.times)
  }

  /** A key splits back into the class name, the dash and the decimal digits of `times`. */
  lemma KeyParts(suite: SuiteView)
    ensures var k := Key(suite);
      |k| > |suite.className| + 1 && k[..|suite.className|] == suite.className &&
      k[|suite.className|] == '-' && k[|suite.className| + 1..] == IntStr(suite.times)
  {
  }

  /** The position of the first `c` in `s`, or `|s|` when there is none. */
  function Find(s: string, c: char): (i: nat)
    ensures i <= |s|
    decreases |s|
  {
    if s == [] || s[0] == c then 0 else 1 + Find(s[1..], c)
  }

  /** The first dash of a key is the one after the class name, when the name has none. */
  lemma {:induction false} FindAfter(name: string, c: char, rest: string)
    requires c !in name
    ensures Find(name + [c] + rest, c) == |name|
    decreases |name|
  {
    if name != [] {
      assert (name + [c] + rest)[1..] == name[1..] + [c] + rest;
      FindAfter(name[1..], c, rest);
    }
  }

  /**
   * Class names are identifiers and hold no dash, so two suites share a key exactly when
   * they share class name and `times`.
   */
  lemma KeyInjective(a: SuiteView, b: SuiteView)
    requires '-' !in a.className && '-' !in b.className
    ensures Key(a) == Key(b) <==> a.className == b.className && a.times == b.times
  {
    if Key(a) == Key(b) {
      var k := Key(a);
      FindAfter(a.className, '-', IntStr(a.times));
      FindAfter(b.className, '-', IntStr(b.times));
      var n := |a.className|;
      assert a.className == k[..n] == b.className;
      assert IntStr(a.times) == k[n + 1..] == IntStr(b.times);
      IntStrInjective(a.times, b.times);
    }
  }

  // ---------------------------------------------------------------------------
  // summary
  // ---------------------------------------------------------------------------

  /** One entry of `runs`. */
  datatype RunSummary = RunSummary(name: string, total: real, mean: real)

  /** One entry of the summary. */
  datatype SuiteSummary = SuiteSummary(name: string, times: int, runs: Dict<string, RunSummary>)

  /** A method's entry: its label, its total and the mean over `times` calls. */
  function RunSummaryOf(v: MethodView, times: int): (r: RunSummary)
    requires times != 0
    ensures r.name == v.caption && r.total == v.aggregate.total
    ensures r.mean * (times as real) == r.total
  {
    RunSummary(v.caption, v.aggregate.total, v.aggregate.total / (times as real))
  }

  /** `runs` for results `results`, entry by entry in dict order. */
  function RunsOf(results: Dict<string, MethodView>, times: int): Dict<string, RunSummary>
    requires times != 0 || results == []
    decreases |results|
  {
    if results == [] then []
    else
      var (test, v) := results[|results| - 1];
      Put(RunsOf(results[..|results| - 1], times), test, RunSummaryOf(v, times))
  }

  /** A suite's entry: its label, `times` and `runs`; dividing by `times == 0` fails. */
  function SuiteSummaryOf(suite: SuiteView): Result<SuiteSummary, ReportError> {
    if suite.times == 0 && suite.results != [] then Failure(ZeroDivisionError)
    else Success(SuiteSummary(suite.caption, suite.times, RunsOf(suite.results, suite.times)))
  }

  /** `summary()` over the run suites `runned`, in order; a later suite with the same key wins. */
  function SummaryOf(runned: seq<SuiteView>): (r: Result<Dict<string, SuiteSummary>, ReportError>)
    ensures r.Failure? ==> r.error == ZeroDivisionError
    decreases |runned|
  {
    if runned == [] then Success([])
    else
      var last := runned[|runned| - 1];
      match SummaryOf(runned[..|runned| - 1])
      case Failure(e) => Failure(e)
      case Success(out) =>
        match SuiteSummaryOf(last)
        case Failure(e) => Failure(e)
        case Success(row) => Success(Put(out, Key(last), row))
  }

  /** One more entry of the results gives one more entry of `runs`. */
  lemma RunsOfStep(results: Dict<string, MethodView>, i: nat, times: int)
    requires times != 0 && i < |results|
    ensures RunsOf(results[..i + 1], times)
         == Put(RunsOf(results[..i], times), results[i].0, RunSummaryOf(results[i].1, times))
  {
    assert results[..i + 1][..i] == results[..i];
  }

  /** One more suite gives one more entry of the summary, or its failure. */
  lemma SummaryStep(runned: seq<SuiteView>, i: nat, out: Dict<string, SuiteSummary>)
    requires i < |runned| && SummaryOf(runned[..i]) == Success(out)
    ensures SummaryOf(runned[..i + 1]) ==
      match SuiteSummaryOf(runned[i])
      case Failure(e) => Failure(e)
      case Success(row) => Success(Put(out, Key(runned[i]), row))
  {
    assert runned[..i + 1][..i] == runned[..i];
  }

  /** Once a prefix of the suites fails, the whole summary fails the same way. */
  lemma {:induction false} SummaryFailureStays(runned: seq<SuiteView>, k: nat)
    requires k <= |runned| && SummaryOf(runned[..k]).Failure?
    ensures SummaryOf(runned) == SummaryOf(runned[..k])
    decreases |runned| - k
  {
    if k < |runned| {
      assert runned[..k + 1][..k] == runned[..k];
      SummaryFailureStays(runned, k + 1);
    } else {
      assert runned[..k] == runned;
    }
  }

  /**
   * The loop over one suite's results in `summary`: each method gets its entry; the first
   * division by `times == 0` raises.
   */
  method SummarizeRuns(suite: SuiteView) returns (r: Result<Dict<string, RunSummary>, ReportError>)
    ensures r == if suite.times == 0 && suite.results != [] then Failure(ZeroDivisionError)
                 else Success(RunsOf(suite.results, suite.times))
  {
    var runs: Dict<string, RunSummary> := [];
    for i := 0 to |suite.results|
      invariant suite.times != 0 || i == 0
      invariant runs == RunsOf(suite.results[..i], suite.times)
    {
      if suite.times == 0 {
        return Failure(ZeroDivisionError);
      }
      var (test, results) := suite.results[i];
      var mean := results.aggregate.total / (suite.times as real);
      assert RunSummary(results.caption, results.aggregate.total, mean) == RunSummaryOf(results, suite.times);
      RunsOfStep(suite.results, i, suite.times);
      runs := Put(runs, test, RunSummary(results.caption, results.aggregate.total, mean));
    }
    assert suite.results[..|suite.results|] == suite.results;
    return Success(runs);
  }

  /** `summary()`: one entry per run suite under its key, with its label, `times` and `runs`. */
  method Summarize(runned: seq<SuiteView>) returns (r: Result<Dict<string, SuiteSummary>, ReportError>)
    ensures r == SummaryOf(runned)
  {
    var out: Dict<string, SuiteSummary> := [];
    for i := 0 to |runned|
      invariant SummaryOf(runned[..i]) == Success(out)
    {
      var bench := runned[i];
      var key := Key(bench);
      var runs := SummarizeRuns(bench);
      SummaryStep(runned, i, out);
      if runs.Failure? {
        SummaryFailureStays(runned, i + 1);
        return Failure(runs.error);
      }
      out := Put(out, key, SuiteSummary(bench.caption, bench.times, runs.value));
    }
    assert runned[..|runned|] == runned;
    return Success(out);
  }

  /** A suite whose `runs` need a division by zero. */
  predicate DividesByZero(suite: SuiteView) {
    suite.times == 0 && suite.results != []
  }

  /** The summary fails exactly when some suite has results and `times == 0`, by dividing by zero. */
  lemma {:induction false} SummaryFails(runned: seq<SuiteView>)
    ensures SummaryOf(runned).Failure? <==> exists i :: 0 <= i < |runned| && DividesByZero(runned[i])
    ensures SummaryOf(runned).Failure? ==> SummaryOf(runned).error == ZeroDivisionError
    decreases |runned|
  {
    if runned != [] {
      var init := runned[..|runned| - 1];
      assert SummaryOf(runned).Failure? <==> SummaryOf(init).Failure? || DividesByZero(runned[|runned| - 1]);
      SummaryFails(init);
      SomeDividesStep(runned, init);
    }
  }

  /** Some suite divides by zero exactly when the last one or one before it does. */
  lemma SomeDividesStep(runned: seq<SuiteView>, init: seq<SuiteView>)
    requires runned != [] && init == runned[..|runned| - 1]
    ensures (exists i :: 0 <= i < |runned| && DividesByZero(runned[i])) <==>
      (exists i :: 0 <= i < |init| && DividesByZero(init[i])) || DividesByZero(runned[|runned| - 1])
  {
    if exists i :: 0 <= i < |runned| && DividesByZero(runned[i]) {
      var i :| 0 <= i < |runned| && DividesByZero(runned[i]);
      if i < |runned| - 1 {
        assert DividesByZero(init[i]);
      }
    }
    if exists i :: 0 <= i < |init| && DividesByZero(init[i]) {
      var i :| 0 <= i < |init| && DividesByZero(init[i]);
      assert DividesByZero(runned[i]);
    }
  }

  /** The position of the last suite with key `k`, or `-1` when there is none. */
  function LastWith(runned: seq<SuiteView>, k: string): (i: int)
    ensures -1 <= i < |runned|
    ensures i >= 0 ==> Key(runned[i]) == k
    decreases |runned|
  {
    if runned == [] then -1
    else if Key(runned[|runned| - 1]) == k then |runned| - 1
    else
      var init := runned[..|runned| - 1];
      var i := LastWith(init, k);
      assert i >= 0 ==> init[i] == runned[i];
      i
  }

  /** No suite after the one `LastWith` finds has key `k`. */
  lemma {:induction false} LastWithIsLast(runned: seq<SuiteView>, k: string)
    ensures forall j :: LastWith(runned, k) < j < |runned| ==> Key(runned[j]) != k
    decreases |runned|
  {
    if runned != [] && Key(runned[|runned| - 1]) != k {
      var init := runned[..|runned| - 1];
      LastWithIsLast(init, k);
      forall j | LastWith(runned, k) < j < |runned| ensures Key(runned[j]) != k {
        if j < |init| {
          assert init[j] == runned[j];
        }
      }
    }
  }

  /**
   * A summary holds, for each key, the entry of the last suite with that key, and nothing
   * under a key no suite has; its keys are distinct.
   */
  lemma {:induction false} SummaryEntries(runned: seq<SuiteView>, k: string)
    requires SummaryOf(runned).Success?
    ensures UniqueKeys(SummaryOf(runned).value)
    ensures Get(SummaryOf(runned).value, k) ==
      if LastWith(runned, k) < 0 then None else SuiteSummaryOf(runned[LastWith(runned, k)]).ToOption()
    decreases |runned|
  {
    if runned != [] {
      var init := runned[..|runned| - 1];
      var last := runned[|runned| - 1];
      SummaryEntries(init, k);
      if Key(last) != k {
        assert LastWith(runned, k) == LastWith(init, k);
        if LastWith(init, k) >= 0 {
          assert runned[LastWith(init, k)] == init[LastWith(init, k)];
        }
      }
    }
  }

  /**
   * `runs` has one entry per method, in the order of `results`: the method's label, its
   * total and the mean over `times`.
   */
  lemma {:induction false} RunsOfEntries(results: Dict<string, MethodView>, times: int, k: string)
    requires times != 0 && UniqueKeys(results)
    ensures Keys(RunsOf(results, times)) == Keys(results)
    ensures Get(RunsOf(results, times), k) ==
      if k in Keys(results) then Some(RunSummaryOf(Get(results, k).value, times)) else None
    decreases |results|
  {
    if results != [] {
      var init := results[..|results| - 1];
      var (test, v) := results[|results| - 1];
      var before := RunsOf(init, times);
      LastEntry(results, k);
      assert RunsOf(results, times) == Put(before, test, RunSummaryOf(v, times));
      assert Keys(before) == Keys(init) && (k != test ==>
        Get(before, k) == if k in Keys(init) then Some(RunSummaryOf(Get(init, k).value, times)) else None) by {
        RunsOfEntries(init, times, k);
      }
    }
  }



  // ---------------------------------------------------------------------------
  // with_sizes
  // ---------------------------------------------------------------------------

  /** `FixedWidth.headers`: the titles of a table's columns after the suite column. */
  const TableHeaders: seq<string> := ["Method", "Times", "Total (s)", "Average (s)"]

  /** A summary entry with the column sizes `with_sizes` adds to it. */
  datatype SizedSummary = SizedSummary(suite: SuiteSummary, sizes: seq<nat>)

  /** The larger of two lengths. */
  function Max(a: nat, b: nat): nat {
    if a < b then b else a
  }

  /** `max(floor, *(len(v) for v in values))`: the widest of a floor and the values. */
  function Widest(floor: nat, values: seq<string>): (w: nat)
    ensures w >= floor && forall i :: 0 <= i < |values| ==> w >= |values[i]|
    ensures w == floor || exists i :: 0 <= i < |values| && w == |values[i]|
    decreases |values|
  {
    if values == [] then floor
    else
      var init := values[..|values| - 1];
      assert forall i :: 0 <= i < |init| ==> init[i] == values[i];
      Max(Widest(floor, init), |values[|values| - 1]|)
  }

  /** The method labels of a suite's entry, in order. */
  function Labels(runs: Dict<string, RunSummary>): seq<string> {
    seq(|runs|, i requires 0 <= i < |runs| => runs[i].1.name)
  }

  /** The formatted totals of a suite's entry, in order. */
  function Totals(runs: Dict<string, RunSummary>, fmt: real -> string): seq<string> {
    seq(|runs|, i requires 0 <= i < |runs| => fmt(runs[i].1.total))
  }

  /** The formatted means of a suite's entry, in order. */
  function Means(runs: Dict<string, RunSummary>, fmt: real -> string): seq<string> {
    seq(|runs|, i requires 0 <= i < |runs| => fmt(runs[i].1.mean))
  }

  /**
   * The cells of each column of a suite's table: the suite label, the method labels,
   * `times`, the formatted totals and the formatted means.
   */
  function Columns(row: SuiteSummary, fmt: real -> string): (columns: seq<seq<string>>)
    ensures |columns| == 5
  {
    [[row.name], Labels(row.runs), [IntStr(row.times)], Totals(row.runs, fmt), Means(row.runs, fmt)]
  }

  /** The sizes of a suite's columns: each the widest of its header and its cells. */
  function RowSizes(row: SuiteSummary, headers: seq<string>, fmt: real -> string): (sizes: seq<nat>)
    requires |headers| == 5
    ensures |sizes| == 5
  {
    var columns := Columns(row, fmt);
    [Widest(|headers[0]|, columns[0]), Widest(|headers[1]|, columns[1]), Widest(|headers[2]|, columns[2]),
     Widest(|headers[3]|, columns[3]), Widest(|headers[4]|, columns[4])]
  }

  /** The summary with the sizes added to every entry, in order: `row['sizes'] = sizes` for each row. */
  function Attach(out: Dict<string, SuiteSummary>, headers: seq<string>, fmt: real -> string)
    : (sized: Dict<string, SizedSummary>)
    requires |headers| == 5
    ensures |sized| == |out| && FiveSizes(sized)
    ensures forall i :: 0 <= i < |out| ==> sized[i] == (out[i].0, SizedSummary(out[i].1, RowSizes(out[i].1, headers, fmt)))
  {
    MapValues(out, (row: SuiteSummary) => SizedSummary(row, RowSizes(row, headers, fmt)))
  }

  /** Every entry has five sizes. */
  predicate FiveSizes(sized: Dict<string, SizedSummary>) {
    forall i :: 0 <= i < |sized| ==> |sized[i].1.sizes| == 5
  }

  /** Every entry of the summary has at least one method. */
  predicate AllRun(out: Dict<string, SuiteSummary>) {
    forall i :: 0 <= i < |out| ==> |out[i].1.runs| > 0
  }

  /**
   * `with_sizes(*headers)`: not five headers raise `ValueError` before anything else; then
   * the summary is computed, and a suite without methods raises `ValueError` as the widest
   * method label of no method is asked for.
   */
  function WithSizesOf(runned: seq<SuiteView>, headers: seq<string>, fmt: real -> string)
    : (r: Result<Dict<string, SizedSummary>, ReportError>)
    ensures |headers| != 5 ==> r == Failure(ValueError)
    ensures r.Success? ==> FiveSizes(r.value)
  {
    if |headers| != 5 then Failure(ValueError)
    else
      match SummaryOf(runned)
      case Failure(e) => Failure(e)
      case Success(out) => if AllRun(out) then Success(Attach(out, headers, fmt)) else Failure(ValueError)
  }

  /** One more entry of the summary gives one more sized entry. */
  lemma AttachStep(out: Dict<string, SuiteSummary>, i: nat, headers: seq<string>, fmt: real -> string)
    requires |headers| == 5 && i < |out|
    ensures Attach(out[..i + 1], headers, fmt)
         == Attach(out[..i], headers, fmt) + [(out[i].0, SizedSummary(out[i].1, RowSizes(out[i].1, headers, fmt)))]
  {
    MapValuesStep(out, (row: SuiteSummary) => SizedSummary(row, RowSizes(row, headers, fmt)), i);
  }

  /** The widest of a floor and one value. */
  lemma WidestOne(floor: nat, v: string)
    ensures Widest(floor, [v]) == Max(floor, |v|)
  {
    assert [v][..0] == [];
  }

  /**
   * The body of `with_sizes`'s loop for a suite with methods: the sizes start from the header
   * lengths and are widened column by column. The source's loop over the two float columns
   * is written out as its two steps.
   */
  method SizesOf(row: SuiteSummary, headers: seq<string>, fmt: real -> string) returns (sizes: seq<nat>)
    requires |headers| == 5 && |row.runs| > 0
    ensures sizes == RowSizes(row, headers, fmt)
  {
    var h0: nat, h1: nat, h2: nat, h3: nat, h4: nat := |headers[0]|, |headers[1]|, |headers[2]|, |headers[3]|, |headers[4]|;
    var s0: nat, s1: nat, s2: nat := Max(h0, |row.name|), Widest(h1, Labels(row.runs)), Max(h2, |IntStr(row.times)|);
    var s3: nat, s4: nat := Widest(h3, Totals(row.runs, fmt)), Widest(h4, Means(row.runs, fmt));
    sizes := [h0, h1, h2, h3, h4];
    Replace5(h0, h1, h2, h3, h4, s0, 0);
    sizes := sizes[0 := Max(sizes[0], |row.name|)];
    Replace5(s0, h1, h2, h3, h4, s1, 1);
    sizes := sizes[1 := Widest(sizes[1], Labels(row.runs))];
    Replace5(s0, s1, h2, h3, h4, s2, 2);
    sizes := sizes[2 := Max(sizes[2], |IntStr(row.times)|)];
    Replace5(s0, s1, s2, h3, h4, s3, 3);
    sizes := sizes[3 := Widest(sizes[3], Totals(row.runs, fmt))];
    Replace5(s0, s1, s2, s3, h4, s4, 4);
    sizes := sizes[4 := Widest(sizes[4], Means(row.runs, fmt))];
    RowSizesAre(row, headers, fmt);
  }

  /** Replacing one of five values. */
  lemma Replace5<T>(a: T, b: T, c: T, d: T, e: T, x: T, i: nat)
    requires i < 5
    ensures [a, b, c, d, e][i := x]
         == [if i == 0 then x else a, if i == 1 then x else b, if i == 2 then x else c,
             if i == 3 then x else d, if i == 4 then x else e]
  {
  }

  /** The sizes of a row, column by column. */
  lemma RowSizesAre(row: SuiteSummary, headers: seq<string>, fmt: real -> string)
    requires |headers| == 5
    ensures RowSizes(row, headers, fmt)
         == [Max(|headers[0]|, |row.name|), Widest(|headers[1]|, Labels(row.runs)), Max(|headers[2]|, |IntStr(row.times)|),
             Widest(|headers[3]|, Totals(row.runs, fmt)), Widest(|headers[4]|, Means(row.runs, fmt))]
  {
    WidestOne(|headers[0]|, row.name);
    WidestOne(|headers[2]|, IntStr(row.times));
  }

  /**
   * `with_sizes`: not five headers raise `ValueError`; otherwise the summary is computed and
   * each of its entries gets its sizes.
   */
  method WithSizes(runned: seq<SuiteView>, headers: seq<string>, fmt: real -> string)
    returns (r: Result<Dict<string, SizedSummary>, ReportError>)
    ensures r == WithSizesOf(runned, headers, fmt)
  {
    if |headers| != 5 {
      return Failure(ValueError);
    }
    var summary := Summarize(runned);
    if summary.Failure? {
      return Failure(summary.error);
    }
    r := AddSizes(summary.value, headers, fmt);
  }

  /** `with_sizes`'s loop over the summary entries: each gets its sizes, or raises without methods. */
  method AddSizes(out: Dict<string, SuiteSummary>, headers: seq<string>, fmt: real -> string)
    returns (r: Result<Dict<string, SizedSummary>, ReportError>)
    requires |headers| == 5
    ensures r == if AllRun(out) then Success(Attach(out, headers, fmt)) else Failure(ValueError)
  {
    var sized: Dict<string, SizedSummary> := [];
    for i := 0 to |out|
      invariant sized == Attach(out[..i], headers, fmt)
      invariant forall j :: 0 <= j < i ==> |out[j].1.runs| > 0
    {
      var (key, row) := out[i];
      if |row.runs| == 0 {
        assert !AllRun(out);
        return Failure(ValueError);
      }
      assert forall j :: 0 <= j < i + 1 ==> |out[j].1.runs| > 0 by {
        assert |out[i].1.runs| > 0;
      }
      var sizes := SizesOf(row, headers, fmt);
      AttachStep(out, i, headers, fmt);
      sized := sized + [(key, SizedSummary(row, sizes))];
    }
    assert out[..|out|] == out;
    return Success(sized);
  }


  /**
   * What a table needs of its sizes: five of them, each of the last four at least as wide
   * as its header and as every cell of its column.
   */
  predicate Fits(entry: SizedSummary, fmt: real -> string) {
    var sizes, row := entry.sizes, entry.suite;
    |sizes| == 5 &&
    (forall c :: 1 <= c < 5 ==> sizes[c] >= |TableHeaders[c - 1]|) &&
    sizes[2] >= |IntStr(row.times)| &&
    forall i :: 0 <= i < |row.runs| ==>
      sizes[1] >= |row.runs[i].1.name| && sizes[3] >= |fmt(row.runs[i].1.total)| && sizes[4] >= |fmt(row.runs[i].1.mean)|
  }

  /** The sizes of a row for the reporters' headers fit the row. */
  lemma RowSizesFit(row: SuiteSummary, fmt: real -> string)
    ensures Fits(SizedSummary(row, RowSizes(row, [""] + TableHeaders, fmt)), fmt)
  {
    RowSizesFloors(row, fmt);
    RowSizesCover(row, fmt);
  }

  /** Each size of a row is at least its header's length, and the times column fits `times`. */
  lemma RowSizesFloors(row: SuiteSummary, fmt: real -> string)
    ensures var sizes := RowSizes(row, [""] + TableHeaders, fmt);
      |sizes| == 5 && (forall c :: 1 <= c < 5 ==> sizes[c] >= |TableHeaders[c - 1]|) && sizes[2] >= |IntStr(row.times)|
  {
    var headers := [""] + TableHeaders;
    var sizes := RowSizes(row, headers, fmt);
    RowSizesAre(row, headers, fmt);
    assert headers[1] == TableHeaders[0] && headers[2] == TableHeaders[1];
    assert headers[3] == TableHeaders[2] && headers[4] == TableHeaders[3];
    assert sizes[1] >= |headers[1]| && sizes[2] >= |headers[2]| && sizes[3] >= |headers[3]| && sizes[4] >= |headers[4]|;
  }

  /** Each method's label, total and mean fit their columns' sizes. */
  lemma RowSizesCover(row: SuiteSummary, fmt: real -> string)
    ensures var sizes := RowSizes(row, [""] + TableHeaders, fmt);
      forall i :: 0 <= i < |row.runs| ==>
        sizes[1] >= |row.runs[i].1.name| && sizes[3] >= |fmt(row.runs[i].1.total)| && sizes[4] >= |fmt(row.runs[i].1.mean)|
  {
    var sizes := RowSizes(row, [""] + TableHeaders, fmt);
    RowSizesAre(row, [""] + TableHeaders, fmt);
    forall i | 0 <= i < |row.runs|
      ensures sizes[1] >= |row.runs[i].1.name| && sizes[3] >= |fmt(row.runs[i].1.total)|
      ensures sizes[4] >= |fmt(row.runs[i].1.mean)|
    {
      assert Labels(row.runs)[i] == row.runs[i].1.name;
      assert Totals(row.runs, fmt)[i] == fmt(row.runs[i].1.total);
      assert Means(row.runs, fmt)[i] == fmt(row.runs[i].1.mean);
    }
  }

  /**
   * A sized summary for the reporters' headers has the summary's entries in order, each
   * with sizes that fit it, and each size is its header's length or one of its cells'.
   */
  lemma WithSizesEntries(runned: seq<SuiteView>, fmt: real -> string)
    requires WithSizesOf(runned, [""] + TableHeaders, fmt).Success?
    ensures SummaryOf(runned).Success?
    ensures Keys(WithSizesOf(runned, [""] + TableHeaders, fmt).value) == Keys(SummaryOf(runned).value)
    ensures forall i :: 0 <= i < |SummaryOf(runned).value| ==>
      var entry := WithSizesOf(runned, [""] + TableHeaders, fmt).value[i].1;
      entry.suite == SummaryOf(runned).value[i].1 && Fits(entry, fmt)
  {
    var out := SummaryOf(runned).value;
    var sized := WithSizesOf(runned, [""] + TableHeaders, fmt).value;
    forall i | 0 <= i < |out| ensures sized[i].1.suite == out[i].1 && Fits(sized[i].1, fmt) {
      RowSizesFit(out[i].1, fmt);
    }
  }

  /** Indexing into a sequence made of a head, a body and a tail. */
  lemma Sandwich<T>(head: seq<T>, body: seq<T>, tail: seq<T>)
    ensures |head + body + tail| == |head| + |body| + |tail|
    ensures forall i :: 0 <= i < |head| ==> (head + body + tail)[i] == head[i]
    ensures forall i :: |head| <= i < |head| + |body| ==> (head + body + tail)[i] == body[i - |head|]
    ensures forall i :: |head| + |body| <= i < |head| + |body| + |tail| ==>
      (head + body + tail)[i] == tail[i - |head| - |body|]
  {
  }

  // ---------------------------------------------------------------------------
  // Markdown
  // ---------------------------------------------------------------------------

  /** `MarkdownReporter.row(values, char)`: the first four values between bars, each flanked by `c`. */
  function MarkdownRow(values: seq<string>, c: char): (line: string)
    requires |values| >= 4
    ensures |line| == |values[0]| + |values[1]| + |values[2]| + |values[3]| + 13
  {
    "|" + [c] + values[0] + [c] + "|" + [c] + values[1] + [c] + "|" + [c] + values[2] + [c] + "|"
    + [c] + values[3] + [c] + "|"
  }

  /** `[str(v).ljust(s) for v, s in zip(values, sizes)]`. */
  function Padded(values: seq<string>, sizes: seq<nat>): (cells: seq<string>)
    ensures |cells| == if |values| < |sizes| then |values| else |sizes|
  {
    var n := if |values| < |sizes| then |values| else |sizes|;
    seq(n, i requires 0 <= i < n => Ljust(values[i], sizes[i]))
  }

  /** The cells of a method's table row: its label, `times`, its total and its mean. */
  function BodyCells(row: SuiteSummary, run: RunSummary, fmt: real -> string): seq<string> {
    [run.name, IntStr(row.times), fmt(run.total), fmt(run.mean)]
  }

  /** The lines of a suite's Markdown table, one per method. */
  function MarkdownBody(entry: SizedSummary, fmt: real -> string): (lines: seq<string>)
    requires |entry.sizes| == 5
    ensures |lines| == |entry.suite.runs|
  {
    var runs := entry.suite.runs;
    seq(|runs|, i requires 0 <= i < |runs| =>
      MarkdownRow(Padded(BodyCells(entry.suite, runs[i].1, fmt), entry.sizes[1..]), ' '))
  }

  /**
   * The lines `output` writes for one suite: its label as a title, a blank line, the padded
   * headers, the dashes between colons, a row per method and a blank line.
   */
  function MarkdownTable(entry: SizedSummary, fmt: real -> string): (lines: seq<string>)
    requires |entry.sizes| == 5
  {
    MarkdownHead(entry) + MarkdownBody(entry, fmt) + [""]
  }

  /** The title, the blank line, the header row and the separator row of a suite's Markdown table. */
  function MarkdownHead(entry: SizedSummary): (lines: seq<string>)
    requires |entry.sizes| == 5
    ensures |lines| == 4
  {
    var sizes := entry.sizes[1..];
    ["# " + entry.suite.name, "", MarkdownRow(Padded(TableHeaders, sizes), ' '),
     MarkdownRow(seq(4, i requires 0 <= i < 4 => Repeat('-', sizes[i])), ':')]
  }

  /** The padded cells of a row that fits are exactly as wide as the sizes. */
  lemma PaddedWidths(values: seq<string>, sizes: seq<nat>)
    requires |values| == 4 && |sizes| == 4
    requires forall i :: 0 <= i < 4 ==> |values[i]| <= sizes[i]
    ensures |Padded(values, sizes)| == 4
    ensures forall i :: 0 <= i < 4 ==> |Padded(values, sizes)[i]| == sizes[i]
  {
  }

  /** The width of every table line of a suite with sizes `sizes`. */
  function TableWidth(sizes: seq<nat>): nat
    requires |sizes| == 5
  {
    sizes[1] + sizes[2] + sizes[3] + sizes[4] + 13
  }

  /** A padded row of four cells that fit is as wide as the table. */
  lemma PaddedRowWidth(values: seq<string>, sizes: seq<nat>, c: char)
    requires |values| == 4 && |sizes| == 5
    requires forall i :: 0 <= i < 4 ==> |values[i]| <= sizes[i + 1]
    ensures |Padded(values, sizes[1..])| == 4
    ensures |MarkdownRow(Padded(values, sizes[1..]), c)| == TableWidth(sizes)
  {
    PaddedWidths(values, sizes[1..]);
  }

  /**
   * In a suite's Markdown table whose sizes fit, the header, the separator and every method
   * row have the same length.
   */
  lemma MarkdownWidths(entry: SizedSummary, fmt: real -> string)
    requires Fits(entry, fmt)
    ensures var lines := MarkdownTable(entry, fmt);
      |lines| == |entry.suite.runs| + 5 &&
      forall i :: 2 <= i < |lines| - 1 ==> |lines[i]| == TableWidth(entry.sizes)
  {
    var sizes := entry.sizes;
    var head, body, tail := MarkdownHead(entry), MarkdownBody(entry, fmt), [""];
    var lines := MarkdownTable(entry, fmt);
    assert lines == head + body + tail;
    Sandwich(head, body, tail);
    assert |head[2]| == TableWidth(sizes) by {
      PaddedRowWidth(TableHeaders, sizes, ' ');
    }
    forall i | 0 <= i < |body| ensures |body[i]| == TableWidth(sizes) {
      var run := entry.suite.runs[i].1;
      assert body[i] == MarkdownRow(Padded(BodyCells(entry.suite, run, fmt), sizes[1..]), ' ');
      PaddedRowWidth(BodyCells(entry.suite, run, fmt), sizes, ' ');
    }
    forall i | 2 <= i < |lines| - 1 ensures |lines[i]| == TableWidth(sizes) {
      if i < 4 {
        assert lines[i] == head[i];
      } else {
        assert lines[i] == body[i - 4];
      }
    }
  }

  // ---------------------------------------------------------------------------
  // reStructuredText
  // ---------------------------------------------------------------------------

  /** `RstReporter.row`: the first four values, each left-justified to its size, between bars. */
  function RstRow(values: seq<string>, sizes: seq<nat>): (line: string)
    requires |values| >= 4 && |sizes| >= 4
    ensures |values[0]| <= sizes[0] && |values[1]| <= sizes[1] && |values[2]| <= sizes[2] && |values[3]| <= sizes[3]
      ==> |line| == sizes[0] + sizes[1] + sizes[2] + sizes[3] + 13
  {
    "| " + Ljust(values[0], sizes[0]) + " | " + Ljust(values[1], sizes[1]) + " | "
    + Ljust(values[2], sizes[2]) + " | " + Ljust(values[3], sizes[3]) + " |"
  }

  /** `[char * (size + 2) for size in sizes]`. */
  function Segments(sizes: seq<nat>, c: char): (segments: seq<string>)
    ensures |segments| == |sizes|
    ensures forall i :: 0 <= i < |sizes| ==> segments[i] == Repeat(c, sizes[i] + 2)
  {
    seq(|sizes|, i requires 0 <= i < |sizes| => Repeat(c, sizes[i] + 2))
  }

  /** `RstReporter.separator`: a segment of `c` per column, two wider than the column, between `+`. */
  function Separator(sizes: seq<nat>, c: char): string {
    "+" + Join(Segments(sizes, c), "+") + "+"
  }

  function Sum(sizes: seq<nat>): nat {
    if sizes == [] then 0 else sizes[0] + Sum(sizes[1..])
  }

  /** The joined segments are as long as the columns plus two per column and one `+` between each two. */
  lemma {:induction false} JoinedSegmentsLength(sizes: seq<nat>, c: char)
    requires sizes != []
    ensures |Join(Segments(sizes, c), "+")| == Sum(sizes) + 3 * |sizes| - 1
    decreases |sizes|
  {
    var segments := Segments(sizes, c);
    if |sizes| > 1 {
      JoinedSegmentsLength(sizes[1..], c);
      assert segments[1..] == Segments(sizes[1..], c);
      assert Join(segments, "+") == segments[0] + "+" + Join(segments[1..], "+");
    } else {
      assert Join(segments, "+") == segments[0];
    }
  }

  /** A separator is as wide as a row whose cells fit the sizes. */
  lemma SeparatorWidth(sizes: seq<nat>, c: char)
    requires |sizes| == 4
    ensures |Separator(sizes, c)| == sizes[0] + sizes[1] + sizes[2] + sizes[3] + 13
  {
    JoinedSegmentsLength(sizes, c);
    assert Sum(sizes) == sizes[0] + Sum(sizes[1..]);
    assert Sum(sizes[1..]) == sizes[1] + Sum(sizes[2..]);
    assert Sum(sizes[2..]) == sizes[2] + Sum(sizes[3..]);
    assert Sum(sizes[3..]) == sizes[3] + Sum(sizes[4..]);
  }

  /** The lines of a suite's reStructuredText table, one per method. */
  function RstBody(entry: SizedSummary, fmt: real -> string): (lines: seq<string>)
    requires |entry.sizes| == 5
    ensures |lines| == |entry.suite.runs|
  {
    var runs := entry.suite.runs;
    seq(|runs|, i requires 0 <= i < |runs| => RstRow(BodyCells(entry.suite, runs[i].1, fmt), entry.sizes[1..]))
  }

  /**
   * The lines `output` writes for one suite: its label underlined with `=`, a blank line,
   * the header row between a `-` and a `=` separator, a row per method, a closing `-`
   * separator and a blank line.
   */
  function RstTable(entry: SizedSummary, fmt: real -> string): (lines: seq<string>)
    requires |entry.sizes| == 5
  {
    RstHead(entry) + RstBody(entry, fmt) + [Separator(entry.sizes[1..], '-'), ""]
  }

  /** The underlined title, the blank line and the header row between separators of a suite's table. */
  function RstHead(entry: SizedSummary): (lines: seq<string>)
    requires |entry.sizes| == 5
    ensures |lines| == 6
  {
    var sizes := entry.sizes[1..];
    var name := entry.suite.name;
    [name, Repeat('=', |name|), "", Separator(sizes, '-'), RstRow(TableHeaders, sizes), Separator(sizes, '=')]
  }

  /** The title's underline is as long as the title; the separators and the header row are as wide as the table. */
  lemma RstHeadWidths(entry: SizedSummary)
    requires |entry.sizes| == 5
    requires forall c :: 1 <= c < 5 ==> entry.sizes[c] >= |TableHeaders[c - 1]|
    ensures var head := RstHead(entry);
      |head[1]| == |head[0]| && forall i :: 3 <= i < 6 ==> |head[i]| == TableWidth(entry.sizes)
  {
    SeparatorWidth(entry.sizes[1..], '-');
    SeparatorWidth(entry.sizes[1..], '=');
  }

  /**
   * In a suite's reStructuredText table whose sizes fit, the title's underline is as long
   * as the title, and the separators, the header row and every method row have the same
   * length, so the grid table is well formed.
   */
  lemma RstWidths(entry: SizedSummary, fmt: real -> string)
    requires Fits(entry, fmt)
    ensures var lines := RstTable(entry, fmt);
      |lines| == |entry.suite.runs| + 8 && |lines[1]| == |lines[0]| &&
      forall i :: 3 <= i < |lines| - 1 ==> |lines[i]| == TableWidth(entry.sizes)
  {
    var sizes := entry.sizes;
    var head, body, tail := RstHead(entry), RstBody(entry, fmt), [Separator(sizes[1..], '-'), ""];
    var lines := RstTable(entry, fmt);
    assert lines == head + body + tail;
    Sandwich(head, body, tail);
    RstHeadWidths(entry);
    assert |tail[0]| == TableWidth(sizes) by {
      SeparatorWidth(sizes[1..], '-');
    }
    forall i | 0 <= i < |body| ensures |body[i]| == TableWidth(sizes) {
      assert body[i] == RstRow(BodyCells(entry.suite, entry.suite.runs[i].1, fmt), sizes[1..]);
    }
    assert lines[0] == head[0] && lines[1] == head[1];
    forall i | 3 <= i < |lines| - 1 ensures |lines[i]| == TableWidth(sizes) {
      if i < 6 {
        assert lines[i] == head[i];
      } else if i < 6 + |body| {
        assert lines[i] == body[i - 6];
      } else {
        assert lines[i] == tail[0];
      }
    }
  }

  // ---------------------------------------------------------------------------
  // The fixed-width reporters' output
  // ---------------------------------------------------------------------------

  /** The Markdown document: the tables of the sized entries, in order. */
  function MarkdownDocument(sized: Dict<string, SizedSummary>, fmt: real -> string): seq<string>
    requires FiveSizes(sized)
    decreases |sized|
  {
    if sized == [] then []
    else MarkdownDocument(sized[..|sized| - 1], fmt) + MarkdownTable(sized[|sized| - 1].1, fmt)
  }

  /** The reStructuredText document: the tables of the sized entries, in order. */
  function RstDocument(sized: Dict<string, SizedSummary>, fmt: real -> string): seq<string>
    requires FiveSizes(sized)
    decreases |sized|
  {
    if sized == [] then []
    else RstDocument(sized[..|sized| - 1], fmt) + RstTable(sized[|sized| - 1].1, fmt)
  }

  /** What `MarkdownReporter.output` writes, or the error `with_sizes` raises first. */
  function MarkdownReport(runned: seq<SuiteView>, fmt: real -> string): (r: Result<seq<string>, ReportError>)
    ensures SummaryOf(runned).Failure? ==> r == Failure(ZeroDivisionError)
    ensures SummaryOf(runned).Success? ==> (r.Failure? <==> !AllRun(SummaryOf(runned).value))
    ensures SummaryOf(runned).Success? && r.Failure? ==> r.error == ValueError
  {
    match WithSizesOf(runned, [""] + TableHeaders, fmt)
    case Failure(e) => Failure(e)
    case Success(sized) => Success(MarkdownDocument(sized, fmt))
  }

  /** What `RstReporter.output` writes, or the error `with_sizes` raises first. */
  function RstReport(runned: seq<SuiteView>, fmt: real -> string): (r: Result<seq<string>, ReportError>)
    ensures SummaryOf(runned).Failure? ==> r == Failure(ZeroDivisionError)
    ensures SummaryOf(runned).Success? ==> (r.Failure? <==> !AllRun(SummaryOf(runned).value))
    ensures SummaryOf(runned).Success? && r.Failure? ==> r.error == ValueError
  {
    match WithSizesOf(runned, [""] + TableHeaders, fmt)
    case Failure(e) => Failure(e)
    case Success(sized) => Success(RstDocument(sized, fmt))
  }

  /** One more table appended to a document. */
  lemma DocumentsStep(sized: Dict<string, SizedSummary>, i: nat, fmt: real -> string)
    requires FiveSizes(sized) && i < |sized|
    ensures MarkdownDocument(sized[..i + 1], fmt) == MarkdownDocument(sized[..i], fmt) + MarkdownTable(sized[i].1, fmt)
    ensures RstDocument(sized[..i + 1], fmt) == RstDocument(sized[..i], fmt) + RstTable(sized[i].1, fmt)
  {
    assert sized[..i + 1][..i] == sized[..i];
  }

  /** A head and a growing prefix of a body: one more element, or the whole body at the end. */
  lemma AppendNext<T>(head: seq<T>, body: seq<T>, i: nat)
    requires i <= |body|
    ensures i < |body| ==> head + body[..i + 1] == (head + body[..i]) + [body[i]]
    ensures i == |body| ==> head + body[..i] == head + body
  {
    if i < |body| {
      assert body[..i + 1] == body[..i] + [body[i]];
    } else {
      assert body[..i] == body;
    }
  }

  /** The lines `MarkdownReporter.output` writes for one suite, method row by method row. */
  method MarkdownTableLines(entry: SizedSummary, fmt: real -> string) returns (lines: seq<string>)
    requires |entry.sizes| == 5
    ensures lines == MarkdownTable(entry, fmt)
  {
    var sizes := entry.sizes[1..];
    var runs := entry.suite.runs;
    var body := MarkdownBody(entry, fmt);
    var head := MarkdownHead(entry);
    lines := head;
    for i := 0 to |runs|
      invariant lines == head + body[..i]
    {
      var row := MarkdownRow(Padded(BodyCells(entry.suite, runs[i].1, fmt), sizes), ' ');
      assert row == body[i];
      AppendNext(head, body, i);
      lines := lines + [row];
    }
    AppendNext(head, body, |runs|);
    lines := lines + [""];
  }

  /** The lines `RstReporter.output` writes for one suite, method row by method row. */
  method RstTableLines(entry: SizedSummary, fmt: real -> string) returns (lines: seq<string>)
    requires |entry.sizes| == 5
    ensures lines == RstTable(entry, fmt)
  {
    var sizes := entry.sizes[1..];
    var runs := entry.suite.runs;
    var body := RstBody(entry, fmt);
    var head := RstHead(entry);
    lines := head;
    for i := 0 to |runs|
      invariant lines == head + body[..i]
    {
      var row := RstRow(BodyCells(entry.suite, runs[i].1, fmt), sizes);
      assert row == body[i];
      AppendNext(head, body, i);
      lines := lines + [row];
    }
    AppendNext(head, body, |runs|);
    lines := lines + [Separator(sizes, '-'), ""];
  }

  /** `MarkdownReporter.output`: a table per sized entry, in the summary's order. */
  method MarkdownOutput(runned: seq<SuiteView>, fmt: real -> string) returns (r: Result<seq<string>, ReportError>)
    ensures r == MarkdownReport(runned, fmt)
  {
    var sized := WithSizes(runned, [""] + TableHeaders, fmt);
    if sized.Failure? {
      return Failure(sized.error);
    }
    var entries := sized.value;
    var lines: seq<string> := [];
    for i := 0 to |entries|
      invariant lines == MarkdownDocument(entries[..i], fmt)
    {
      var table := MarkdownTableLines(entries[i].1, fmt);
      DocumentsStep(entries, i, fmt);
      lines := lines + table;
    }
    assert entries[..|entries|] == entries;
    return Success(lines);
  }

  /** `RstReporter.output`: a table per sized entry, in the summary's order. */
  method RstOutput(runned: seq<SuiteView>, fmt: real -> string) returns (r: Result<seq<string>, ReportError>)
    ensures r == RstReport(runned, fmt)
  {
    var sized := WithSizes(runned, [""] + TableHeaders, fmt);
    if sized.Failure? {
      return Failure(sized.error);
    }
    var entries := sized.value;
    var lines: seq<string> := [];
    for i := 0 to |entries|
      invariant lines == RstDocument(entries[..i], fmt)
    {
      var table := RstTableLines(entries[i].1, fmt);
      DocumentsStep(entries, i, fmt);
      lines := lines + table;
    }
    assert entries[..|entries|] == entries;
    return Success(lines);
  }

  /**
   * Every table of a Markdown or reStructuredText report is aligned: within each, the
   * header, separator and method lines share one width.
   */
  lemma ReportTablesAligned(runned: seq<SuiteView>, fmt: real -> string)
    requires WithSizesOf(runned, [""] + TableHeaders, fmt).Success?
    ensures var sized := WithSizesOf(runned, [""] + TableHeaders, fmt).value;
      forall k :: 0 <= k < |sized| ==>
        var entry := sized[k].1;
        var md, rst := MarkdownTable(entry, fmt), RstTable(entry, fmt);
        (forall i :: 2 <= i < |md| - 1 ==> |md[i]| == TableWidth(entry.sizes)) &&
        |rst[1]| == |rst[0]| &&
        (forall i :: 3 <= i < |rst| - 1 ==> |rst[i]| == TableWidth(entry.sizes))
  {
    var sized := WithSizesOf(runned, [""] + TableHeaders, fmt).value;
    WithSizesEntries(runned, fmt);
    forall k | 0 <= k < |sized|
      ensures var entry := sized[k].1;
        var md, rst := MarkdownTable(entry, fmt), RstTable(entry, fmt);
        (forall i :: 2 <= i < |md| - 1 ==> |md[i]| == TableWidth(entry.sizes)) &&
        |rst[1]| == |rst[0]| &&
        (forall i :: 3 <= i < |rst| - 1 ==> |rst[i]| == TableWidth(entry.sizes))
    {
      MarkdownWidths(sized[k].1, fmt);
      RstWidths(sized[k].1, fmt);
    }
  }

  // ---------------------------------------------------------------------------
  // CSV
  // ---------------------------------------------------------------------------

  /**
   * A CSV cell as the writer receives it: with non-numeric quoting, text is quoted and
   * numbers are written bare.
   */
  datatype CsvCell = Text(text: string) | Number(number: int) | Decimal(decimal: real)

  const CsvHeader: seq<CsvCell> := [Text("Benchmark"), Text("Method"), Text("Times"), Text("Total (s)"), Text("Average (s)")]

  /** A method's CSV row: the suite label, the method label, `times`, the total and the mean. */
  function CsvRow(row: SuiteSummary, run: RunSummary): seq<CsvCell> {
    [Text(row.name), Text(run.name), Number(row.times), Decimal(run.total), Decimal(run.mean)]
  }

  /** The rows of one summary entry, one per method in order. */
  function CsvRunRows(row: SuiteSummary): (rows: seq<seq<CsvCell>>)
    ensures |rows| == |row.runs|
  {
    seq(|row.runs|, i requires 0 <= i < |row.runs| => CsvRow(row, row.runs[i].1))
  }

  /** The rows after the header: each entry's rows, entry after entry. */
  function CsvBody(out: Dict<string, SuiteSummary>): seq<seq<CsvCell>>
    decreases |out|
  {
    if out == [] then [] else CsvBody(out[..|out| - 1]) + CsvRunRows(out[|out| - 1].1)
  }

  /**
   * What `CsvReporter.output` writes, and the error it stops on: the header is written
   * before the summary is computed, so a failing summary leaves the header alone.
   */
  function CsvReport(runned: seq<SuiteView>): (out: (seq<seq<CsvCell>>, Option<ReportError>))
    ensures |out.0| > 0 && out.0[0] == CsvHeader
    ensures out.1.Some? <==> SummaryOf(runned).Failure?
    ensures out.1.Some? ==> out.1 == Some(ZeroDivisionError) && out.0 == [CsvHeader]
  {
    match SummaryOf(runned)
    case Failure(e) => ([CsvHeader], Some(e))
    case Success(out) => ([CsvHeader] + CsvBody(out), None)
  }

  /** One more entry gives its rows after those of the entries before it. */
  lemma CsvBodyStep(out: Dict<string, SuiteSummary>, i: nat)
    requires i < |out|
    ensures [CsvHeader] + CsvBody(out[..i + 1]) == ([CsvHeader] + CsvBody(out[..i])) + CsvRunRows(out[i].1)
  {
    assert out[..i + 1][..i] == out[..i];
  }

  /** The inner loop of `CsvReporter.output`: a row per method of one entry. */
  method WriteRunRows(rows: seq<seq<CsvCell>>, row: SuiteSummary) returns (written: seq<seq<CsvCell>>)
    ensures written == rows + CsvRunRows(row)
  {
    written := rows;
    var runRows := CsvRunRows(row);
    for j := 0 to |row.runs|
      invariant written == rows + runRows[..j]
    {
      AppendNext(rows, runRows, j);
      written := written + [CsvRow(row, row.runs[j].1)];
    }
    AppendNext(rows, runRows, |row.runs|);
  }

  /** `CsvReporter.output`: the header, then a row per method of every summary entry. */
  method CsvOutput(runned: seq<SuiteView>) returns (rows: seq<seq<CsvCell>>, error: Option<ReportError>)
    ensures (rows, error) == CsvReport(runned)
  {
    rows := [CsvHeader];
    var summary := Summarize(runned);
    if summary.Failure? {
      return rows, Some(summary.error);
    }
    var out := summary.value;
    for i := 0 to |out|
      invariant rows == [CsvHeader] + CsvBody(out[..i])
    {
      CsvBodyStep(out, i);
      rows := WriteRunRows(rows, out[i].1);
    }
    assert out[..|out|] == out;
    return rows, None;
  }

  /** The number of methods over all entries of a summary. */
  function TotalRuns(out: Dict<string, SuiteSummary>): nat
    decreases |out|
  {
    if out == [] then 0 else TotalRuns(out[..|out| - 1]) + |out[|out| - 1].1.runs|
  }

  /** A row of five cells: two quoted texts, then the bare `times`, total and mean. */
  predicate CsvShaped(r: seq<CsvCell>) {
    |r| == 5 && r[0].Text? && r[1].Text? && r[2].Number? && r[3].Decimal? && r[4].Decimal?
  }

  /**
   * The CSV body has one row per method of every entry, all shaped alike, and the row of
   * each entry's each method is among them.
   */
  lemma {:induction false} CsvBodyRows(out: Dict<string, SuiteSummary>)
    ensures |CsvBody(out)| == TotalRuns(out)
    ensures forall r :: r in CsvBody(out) ==> CsvShaped(r)
    ensures forall k, j :: 0 <= k < |out| && 0 <= j < |out[k].1.runs| ==> CsvRow(out[k].1, out[k].1.runs[j].1) in CsvBody(out)
    decreases |out|
  {
    if out != [] {
      var init := out[..|out| - 1];
      var last := out[|out| - 1].1;
      CsvBodyRows(init);
      var body, before, rows := CsvBody(out), CsvBody(init), CsvRunRows(last);
      assert body == before + rows;
      forall r | r in body ensures CsvShaped(r) {
        if r in rows {
          var j :| 0 <= j < |rows| && rows[j] == r;
        }
      }
      forall k, j | 0 <= k < |out| && 0 <= j < |out[k].1.runs|
        ensures CsvRow(out[k].1, out[k].1.runs[j].1) in body
      {
        if k < |init| {
          assert init[k] == out[k];
          assert CsvRow(init[k].1, init[k].1.runs[j].1) in before;
        } else {
          assert rows[j] == CsvRow(last, last.runs[j].1);
        }
      }
    }
  }

  /**
   * A CSV report starts with the header; when the summary fails it is the header alone,
   * otherwise one more row per method of every entry.
   */
  lemma CsvReportRows(runned: seq<SuiteView>)
    ensures var (rows, error) := CsvReport(runned);
      |rows| > 0 && rows[0] == CsvHeader &&
      (error.Some? <==> SummaryOf(runned).Failure?) &&
      (error.None? ==> |rows| == 1 + TotalRuns(SummaryOf(runned).value)) &&
      (error.Some? ==> |rows| == 1)
  {
    if SummaryOf(runned).Success? {
      CsvBodyRows(SummaryOf(runned).value);
    }
  }

  // ---------------------------------------------------------------------------
  // Examples from the reporter tests
  // ---------------------------------------------------------------------------

  /** The literals the examples rely on. */
  lemma ExamplePieces()
    ensures |"A method with long label"| == 24 && |"Short"| == 5
    ensures |TableHeaders[0]| == 6 && |TableHeaders[1]| == 5
    ensures "bench_short" != "bench_long"
    ensures IntStr(5) == "5"
  {
  }

  /** Two one-element sequences make a pair. */
  lemma Pair<T>(x: T, y: T)
    ensures [x] + [y] == [x, y]
  {
  }

  /** The summary after one more suite. */
  lemma SummarySnoc(init: seq<SuiteView>, a: SuiteView)
    requires SummaryOf(init).Success? && SuiteSummaryOf(a).Success?
    ensures SummaryOf(init + [a]) == Success(Put(SummaryOf(init).value, Key(a), SuiteSummaryOf(a).value))
  {
    assert (init + [a])[..|init|] == init;
  }

  /** `runs` after one more method. */
  lemma RunsSnoc(init: Dict<string, MethodView>, test: string, v: MethodView, times: int)
    requires times != 0
    ensures RunsOf(init + [(test, v)], times) == Put(RunsOf(init, times), test, RunSummaryOf(v, times))
  {
    assert (init + [(test, v)])[..|init|] == init;
  }

  /** The summary of a single suite. */
  lemma SummaryOfOne(a: SuiteView)
    requires SuiteSummaryOf(a).Success?
    ensures SummaryOf([a]) == Success([(Key(a), SuiteSummaryOf(a).value)])
  {
    var row := SuiteSummaryOf(a).value;
    assert SummaryOf([a]) == Success(Put([], Key(a), row)) by {
      SummarySnoc([], a);
      assert [] + [a] == [a];
    }
    assert Put([], Key(a), row) == [(Key(a), row)] by {
      PutNew([], Key(a), row);
    }
  }

  /** The summary of two suites under different keys. */
  lemma SummaryOfTwo(a: SuiteView, b: SuiteView)
    requires SuiteSummaryOf(a).Success? && SuiteSummaryOf(b).Success? && Key(a) != Key(b)
    ensures SummaryOf([a, b]) == Success([(Key(a), SuiteSummaryOf(a).value), (Key(b), SuiteSummaryOf(b).value)])
  {
    var one := [(Key(a), SuiteSummaryOf(a).value)];
    var row := SuiteSummaryOf(b).value;
    assert SummaryOf([a, b]) == Success(Put(one, Key(b), row)) by {
      SummaryOfOne(a);
      SummarySnoc([a], b);
      Pair(a, b);
    }
    assert Put(one, Key(b), row) == one + [(Key(b), row)] by {
      assert Keys(one) == [Key(a)];
      PutNew(one, Key(b), row);
    }
    Pair((Key(a), SuiteSummaryOf(a).value), (Key(b), row));
  }

  /** `runs` of a single method. */
  lemma RunsOfOne(test: string, v: MethodView, times: int)
    requires times != 0
    ensures RunsOf([(test, v)], times) == [(test, RunSummaryOf(v, times))]
  {
    var run := RunSummaryOf(v, times);
    assert RunsOf([(test, v)], times) == Put([], test, run) by {
      RunsSnoc([], test, v, times);
      assert [] + [(test, v)] == [(test, v)];
    }
    assert Put([], test, run) == [(test, run)] by {
      PutNew([], test, run);
    }
  }

  /** `runs` of two differently named methods. */
  lemma RunsOfTwo(test: string, v: MethodView, test': string, v': MethodView, times: int)
    requires times != 0 && test != test'
    ensures RunsOf([(test, v), (test', v')], times) == [(test, RunSummaryOf(v, times)), (test', RunSummaryOf(v', times))]
  {
    var one := [(test, RunSummaryOf(v, times))];
    var run := RunSummaryOf(v', times);
    assert RunsOf([(test, v), (test', v')], times) == Put(one, test', run) by {
      RunsOfOne(test, v, times);
      RunsSnoc([(test, v)], test', v', times);
      Pair((test, v), (test', v'));
    }
    assert Put(one, test', run) == one + [(test', run)] by {
      assert Keys(one) == [test];
      PutNew(one, test', run);
    }
    Pair((test, RunSummaryOf(v, times)), (test', run));
  }

  /**
   * A suite run 5 times with one method gives a summary of one entry under the suite's
   * key: the suite's label, `times` 5 and one run with the method's label.
   */
  lemma OneSuiteSummary(className: string, nothing: Aggregate)
    ensures var suite := SuiteView(className, "Empty benchmark", 5, [("bench_nothing", MethodView("Nothing", nothing))]);
      var r := SummaryOf([suite]);
      r.Success? && |r.value| == 1 && r.value[0].0 == Key(suite) &&
      r.value[0].1.name == "Empty benchmark" && r.value[0].1.times == 5 &&
      r.value[0].1.runs == [("bench_nothing", RunSummary("Nothing", nothing.total, nothing.total / 5.0))]
  {
    var suite := SuiteView(className, "Empty benchmark", 5, [("bench_nothing", MethodView("Nothing", nothing))]);
    RunsOfOne("bench_nothing", MethodView("Nothing", nothing), 5);
    SummaryOfOne(suite);
  }

  /**
   * With a long and a short method label, collected in that order, in a suite run 5 times,
   * the method column is as wide as the long label and the times column as wide as its header.
   */
  lemma LongLabelSizes(className: string, long: Aggregate, short: Aggregate, fmt: real -> string)
    ensures var results := [("bench_long", MethodView("A method with long label", long)), ("bench_short", MethodView("Short", short))];
      var r := WithSizesOf([SuiteView(className, "Test bench", 5, results)], [""] + TableHeaders, fmt);
      r.Success? && |r.value| == 1 && r.value[0].1.sizes[1] == 24 && r.value[0].1.sizes[2] == 5
  {
    var long', short' := MethodView("A method with long label", long), MethodView("Short", short);
    var suite := SuiteView(className, "Test bench", 5, [("bench_long", long'), ("bench_short", short')]);
    var row := SuiteSummary("Test bench", 5, [("bench_long", RunSummaryOf(long', 5)), ("bench_short", RunSummaryOf(short', 5))]);
    var out := [(Key(suite), row)];
    LongLabelSummary(suite, long', short');
    LongLabelRowSizes(row, fmt);
    assert AllRun(out);
    WithSizesOfSuccess([suite], fmt);
  }

  /** The summary of the long label example: one entry with both methods in order. */
  lemma LongLabelSummary(suite: SuiteView, long: MethodView, short: MethodView)
    requires suite.caption == "Test bench" && suite.times == 5
    requires suite.results == [("bench_long", long), ("bench_short", short)]
    ensures SummaryOf([suite]) == Success([(Key(suite),
      SuiteSummary("Test bench", 5, [("bench_long", RunSummaryOf(long, 5)), ("bench_short", RunSummaryOf(short, 5))]))])
  {
    ExamplePieces();
    RunsOfTwo("bench_long", long, "bench_short", short, 5);
    SummaryOfOne(suite);
  }

  /** The sizes of the long label example's entry. */
  lemma LongLabelRowSizes(row: SuiteSummary, fmt: real -> string)
    requires row.times == 5 && |row.runs| == 2
    requires row.runs[0].1.name == "A method with long label" && row.runs[1].1.name == "Short"
    ensures RowSizes(row, [""] + TableHeaders, fmt)[1] == 24
    ensures RowSizes(row, [""] + TableHeaders, fmt)[2] == 5
  {
    ExamplePieces();
    var headers := [""] + TableHeaders;
    var sizes := RowSizes(row, headers, fmt);
    assert sizes[1] == 24 by {
      var labels := Labels(row.runs);
      assert |labels| == 2 && |labels[0]| == 24 && |labels[1]| == 5;
      assert sizes[1] == Widest(|headers[1]|, labels) && |headers[1]| == 6;
    }
    assert sizes[2] == 5 by {
      assert sizes[2] == Widest(|headers[2]|, ["5"]) && |headers[2]| == 5;
    }
  }

  /** Two suites under different keys give two sized entries. */
  lemma TwoSuitesTwoEntries(a: SuiteView, b: SuiteView, fmt: real -> string)
    requires Key(a) != Key(b)
    requires a.times != 0 && |a.results| > 0 && b.times != 0 && |b.results| > 0
    ensures WithSizesOf([a, b], [""] + TableHeaders, fmt).Success?
    ensures |WithSizesOf([a, b], [""] + TableHeaders, fmt).value| == 2
  {
    TwoSuitesSummary(a, b);
    WithSizesOfSuccess([a, b], fmt);
  }

  /** The summary of two suites with methods under different keys: two entries, both run. */
  lemma TwoSuitesSummary(a: SuiteView, b: SuiteView)
    requires Key(a) != Key(b)
    requires a.times != 0 && |a.results| > 0 && b.times != 0 && |b.results| > 0
    ensures SummaryOf([a, b]).Success? && |SummaryOf([a, b]).value| == 2 && AllRun(SummaryOf([a, b]).value)
  {
    var ra, rb := SuiteSummaryOf(a).value, SuiteSummaryOf(b).value;
    SummaryOfTwo(a, b);
    RunsNonEmpty(a.results, a.times);
    RunsNonEmpty(b.results, b.times);
    AllRunPair((Key(a), ra), (Key(b), rb));
  }

  /** Two entries with methods each: both run. */
  lemma AllRunPair(x: (string, SuiteSummary), y: (string, SuiteSummary))
    requires |x.1.runs| > 0 && |y.1.runs| > 0
    ensures AllRun([x, y])
  {
  }

  /** With every entry run, `with_sizes` for the reporters' headers sizes the summary. */
  lemma WithSizesOfSuccess(runned: seq<SuiteView>, fmt: real -> string)
    requires SummaryOf(runned).Success? && AllRun(SummaryOf(runned).value)
    ensures WithSizesOf(runned, [""] + TableHeaders, fmt)
         == Success(Attach(SummaryOf(runned).value, [""] + TableHeaders, fmt))
  {
    assert |[""] + TableHeaders| == 5;
  }

  /** A suite with methods has entries in its `runs`. */
  lemma RunsNonEmpty(results: Dict<string, MethodView>, times: int)
    requires times != 0 && |results| > 0
    ensures |RunsOf(results, times)| > 0
  {
    var (test, v) := results[|results| - 1];
    assert test in Keys(RunsOf(results, times));
  }
}
