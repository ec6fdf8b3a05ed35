/**
 * `minibench/cli.py`: the decisions of the console reporter and the assembly done by the
 * `minibench` command.
 *
 * The console reporter compares each benchmark method with a previous run loaded from a
 * JSON file (`--ref`): it looks the method up, computes the signed difference of its total and mean
 * and picks a status mark. Text is kept as pieces tagged with their colour; rendering the
 * colours, the progress bar and the terminal width are not modelled. Formatting a float
 * with five decimals is the parameter `fmt`.
 *
 * The command resolves its patterns to files (`resolve`, which reads the filesystem),
 * builds the reporters and the keyword arguments of `run`, then creates the runner and
 * runs it.
 */
module Cli {
  import opened Wrappers
  import opened PyStr
  import opened Dicts
  import Report
  import Bench
  import Runner

  // ---------------------------------------------------------------------------
  // Styled text and the loaded reference
  // ---------------------------------------------------------------------------

  datatype Colour = Plain | White | Green | Yellow | Red

  /** A piece of text and the colour `click.style` gives it. */
  datatype Styled = Styled(colour: Colour, text: string)

  /** A line echoed as pieces, one after the other. */
  type Line = seq<Styled>

  const OkMark: string := "\U{2714}"
  const KoMark: string := "\U{2718}"
  const WarningMark: string := "\U{26a0}"

  /** A value `json.load` returns. */
  datatype Json =
    | JNull
    | JBool(b: bool)
    | JNum(x: real)
    | JStr(s: string)
    | JArray(items: seq<Json>)
    | JObject(fields: Dict<string, Json>)

  /** Python truthiness of a loaded value. */
  predicate Truthy(j: Json) {
    match j
    case JNull => false
    case JBool(b) => b
    case JNum(x) => x != 0.0
    case JStr(s) => s != ""
    case JArray(items) => items != []
    case JObject(fields) => fields != []
  }

  /** The exceptions the console reporter lets through. */
  datatype CliError = AttributeError | KeyError | TypeError | ZeroDivisionError

  // ---------------------------------------------------------------------------
  // ref
  // ---------------------------------------------------------------------------

  /** `j.get(k, default)`: only an object has `get`. */
  function GetOr(j: Json, k: string, default: Json): (r: Result<Json, CliError>)
    ensures r.Failure? <==> !j.JObject?
    ensures r.Failure? ==> r.error == AttributeError
  {
    if !j.JObject? then Failure(AttributeError)
    else
      match Get(j.fields, k)
      case Some(v) => Success(v)
      case None => Success(default)
  }

  /**
   * `CliReporter.ref`: the entry of `test` under the suite's key and `runs` in the loaded
   * reference, or `None` when there is no reference or a level is missing.
   */
  function Ref(doc: Option<Json>, key: string, test: string): (r: Result<Option<Json>, CliError>)
    ensures r.Failure? ==> r.error == AttributeError
  {
    if doc.None? || !Truthy(doc.value) then Success(None)
    else
      match GetOr(doc.value, key, JObject([]))
      case Failure(e) => Failure(e)
      case Success(suite) =>
        match GetOr(suite, "runs", JObject([]))
        case Failure(e) => Failure(e)
        case Success(runs) =>
          if !runs.JObject? then Failure(AttributeError) else Success(Get(runs.fields, test))
  }

  /** The field `k` of an object; nothing for a missing key or a value that is not an object. */
  function Field(j: Json, k: string): Option<Json> {
    if j.JObject? then Get(j.fields, k) else None
  }

  /** The value reached by following `keys` from `j`, if every one of them is there. */
  function Path(j: Json, keys: seq<string>): Option<Json>
    decreases |keys|
  {
    if keys == [] then Some(j)
    else
      match Field(j, keys[0])
      case None => None
      case Some(v) => Path(v, keys[1..])
  }

  /** `j` is an object, and so is every value found by following `keys` as far as they go. */
  predicate Walkable(j: Json, keys: seq<string>)
    decreases |keys|
  {
    && j.JObject?
    && (keys != [] && Field(j, keys[0]).Some? ==> Walkable(Field(j, keys[0]).value, keys[1..]))
  }

  /** Following a key, then the rest. */
  lemma {:induction false} PathCons(j: Json, k: string, rest: seq<string>)
    ensures Path(j, [k] + rest) == if Field(j, k).Some? then Path(Field(j, k).value, rest) else None
  {
    assert ([k] + rest)[0] == k && ([k] + rest)[1..] == rest;
  }

  /** Walking a key, then the rest. */
  lemma {:induction false} WalkableCons(j: Json, k: string, rest: seq<string>)
    ensures Walkable(j, [k] + rest) <==>
      j.JObject? && (Field(j, k).Some? ==> Walkable(Field(j, k).value, rest))
  {
    assert ([k] + rest)[0] == k && ([k] + rest)[1..] == rest;
  }

  /** Following three keys, level by level. */
  lemma {:induction false} PathOfThree(j: Json, a: string, b: string, c: string)
    ensures Path(j, [a, b, c]) ==
      if Field(j, a).Some? && Field(Field(j, a).value, b).Some? then Field(Field(Field(j, a).value, b).value, c)
      else None
  {
    assert [a, b, c] == [a] + [b, c] && [b, c] == [b] + [c] && [c] == [c] + [];
    PathCons(j, a, [b, c]);
    if Field(j, a).Some? {
      var v := Field(j, a).value;
      PathCons(v, b, [c]);
      if Field(v, b).Some? {
        PathCons(Field(v, b).value, c, []);
      }
    }
  }

  /** Walking two keys, level by level. */
  lemma {:induction false} WalkableTwo(j: Json, a: string, b: string)
    ensures Walkable(j, [a, b]) <==>
      && j.JObject?
      && (Field(j, a).Some? ==>
            Field(j, a).value.JObject? &&
            (Field(Field(j, a).value, b).Some? ==> Field(Field(j, a).value, b).value.JObject?))
  {
    assert [a, b] == [a] + [b] && [b] == [b] + [];
    WalkableCons(j, a, [b]);
    if Field(j, a).Some? {
      var v := Field(j, a).value;
      WalkableCons(v, b, []);
    }
  }

  /** `ref` finds `v` exactly when the reference holds `v` under the key, `runs` and the method name `test`. */
  lemma {:induction false} RefFound(doc: Option<Json>, key: string, test: string, v: Json)
    ensures Ref(doc, key, test) == Success(Some(v)) <==>
      doc.Some? && Truthy(doc.value) && Path(doc.value, [key, "runs", test]) == Some(v)
  {
    if doc.Some? {
      PathOfThree(doc.value, key, "runs", test);
    }
  }

  /**
   * `ref` fails exactly when there is a reference and the reference, the suite's entry or its
   * `runs` is there but is not an object (a missing level reads as an empty object).
   */
  lemma {:induction false} RefFails(doc: Option<Json>, key: string, test: string)
    ensures Ref(doc, key, test).Failure? <==>
      doc.Some? && Truthy(doc.value) && !Walkable(doc.value, [key, "runs"])
  {
    if doc.Some? {
      WalkableTwo(doc.value, key, "runs");
    }
  }

  /** Where every level is an object, `ref` is what following the three keys finds. */
  lemma {:induction false} RefWalked(doc: Json, key: string, test: string)
    requires Truthy(doc) && Walkable(doc, [key, "runs"])
    ensures Ref(Some(doc), key, test) == Success(Path(doc, [key, "runs", test]))
  {
    RefFails(Some(doc), key, test);
    var r := Ref(Some(doc), key, test).value;
    if r.Some? {
      RefFound(Some(doc), key, test, r.value);
    } else if Path(doc, [key, "runs", test]).Some? {
      RefFound(Some(doc), key, test, Path(doc, [key, "runs", test]).value);
    }
  }

  // ---------------------------------------------------------------------------
  // What the reporters read of the runner's instances
  // ---------------------------------------------------------------------------

  /**
   * The methods of `results` as a reporter reads them from `b`: each under its name, with
   * `label_for(method)` and the aggregate of its results.
   */
  function MethodViews(b: Bench.Benchmark, results: Dict<string, seq<Bench.RunResult>>,
                       aggregate: seq<Bench.RunResult> -> Report.Aggregate): (views: Dict<string, Report.MethodView>)
    ensures |views| == |results|
    ensures forall i :: 0 <= i < |results| ==>
      views[i] == (results[i].0, Report.MethodView(b.LabelFor(results[i].0), aggregate(results[i].1)))
  {
    seq(|results|, i requires 0 <= i < |results| => (results[i].0, Report.MethodView(b.LabelFor(results[i].0), aggregate(results[i].1))))
  }

  /**
   * A run instance as `summary()` and the console reporter read it: the class name for the
   * key, `label`, `times`, and for every method of `results` its `label_for` and the
   * aggregate of its list of results.
   */
  function ViewOf(b: Bench.Benchmark, aggregate: seq<Bench.RunResult> -> Report.Aggregate): (v: Report.SuiteView)
    reads b
    ensures v.className == b.suite.name && v.caption == b.Label() && v.times == b.times
    ensures Keys(v.results) == Keys(b.results)
    ensures forall t ::
      Get(v.results, t) == (if Get(b.results, t).Some? then Some(Report.MethodView(b.LabelFor(t), aggregate(Get(b.results, t).value))) else None)
  {
    var views := MethodViews(b, b.results, aggregate);
    assert Keys(views) == Keys(b.results);
    assert forall t ::
      Get(views, t) == (if Get(b.results, t).Some? then Some(Report.MethodView(b.LabelFor(t), aggregate(Get(b.results, t).value))) else None) by {
      forall t ensures Get(views, t) ==
        (if Get(b.results, t).Some? then Some(Report.MethodView(b.LabelFor(t), aggregate(Get(b.results, t).value))) else None) {
        SameKeysSameIndex(b.results, views, t);
      }
    }
    Report.SuiteView(b.suite.name, b.Label(), b.times, views)
  }

  /** The instances of `runned`, in order, as the reporters read them. */
  function ViewsOf(runned: seq<Bench.Benchmark>, aggregate: seq<Bench.RunResult> -> Report.Aggregate)
    : (views: seq<Report.SuiteView>)
    reads runned
    ensures |views| == |runned|
    ensures forall i :: 0 <= i < |runned| ==> views[i] == ViewOf(runned[i], aggregate)
  {
    seq(|runned|, i requires 0 <= i < |runned| reads runned => ViewOf(runned[i], aggregate))
  }

  /**
   * `summary()` over the runner's instances: the last instance with a key has the entry
   * under `<class name>-<times>`, named by its `label`, with its `times`, and one run per
   * method of its `results`, named by `label_for`.
   */
  lemma RunnedSummary(runned: seq<Bench.Benchmark>, aggregate: seq<Bench.RunResult> -> Report.Aggregate, i: nat)
    requires i < |runned| && UniqueKeys(runned[i].results)
    requires Report.SummaryOf(ViewsOf(runned, aggregate)).Success?
    requires forall j :: i < j < |runned| ==>
      Report.Key(ViewOf(runned[j], aggregate)) != Report.Key(ViewOf(runned[i], aggregate))
    ensures Report.Key(ViewOf(runned[i], aggregate)) == runned[i].suite.name + "-" + IntStr(runned[i].times)
    ensures var entry := Get(Report.SummaryOf(ViewsOf(runned, aggregate)).value, Report.Key(ViewOf(runned[i], aggregate)));
      && entry.Some? && entry.value.name == runned[i].Label() && entry.value.times == runned[i].times
      && Keys(entry.value.runs) == Keys(runned[i].results)
      && forall t :: t in Keys(runned[i].results) ==> Get(entry.value.runs, t).Some? && Get(entry.value.runs, t).value.name == runned[i].LabelFor(t)
  {
    var views := ViewsOf(runned, aggregate);
    var b := runned[i];
    var v := views[i];
    var k := Report.Key(v);
    assert Report.LastWith(views, k) == i by {
      Report.LastWithIsLast(views, k);
    }
    Report.SummaryEntries(views, k);
    assert !Report.DividesByZero(v) by {
      Report.SummaryFails(views);
    }
    if v.times != 0 {
      assert UniqueKeys(v.results) by {
        forall p, q | 0 <= p < q < |v.results| ensures v.results[p].0 != v.results[q].0 {
          assert Keys(v.results)[p] == Keys(b.results)[p] && Keys(v.results)[q] == Keys(b.results)[q];
        }
      }
      forall t | t in Keys(b.results)
        ensures Get(Report.RunsOf(v.results, v.times), t).Some?
        ensures Get(Report.RunsOf(v.results, v.times), t).value.name == b.LabelFor(t)
      {
        Report.RunsOfEntries(v.results, v.times, t);
      }
      Report.RunsOfEntries(v.results, v.times, "");
    }
  }

  // ---------------------------------------------------------------------------
  // The reference a previous run wrote
  // ---------------------------------------------------------------------------

  /** A run entry as `JsonReporter` dumps it and `json.load` reads it back. */
  function RunJson(run: Report.RunSummary): Json {
    JObject([("name", JStr(run.name)), ("total", JNum(run.total)), ("mean", JNum(run.mean))])
  }

  /** A suite entry as dumped and loaded back. */
  function SuiteJson(suite: Report.SuiteSummary): Json {
    JObject([("name", JStr(suite.name)), ("times", JNum(suite.times as real)),
             ("runs", JObject(MapValues(suite.runs, RunJson)))])
  }

  /** A whole summary as dumped and loaded back. */
  function SummaryJson(out: Dict<string, Report.SuiteSummary>): (j: Json)
    ensures j.JObject? && Keys(j.fields) == Keys(out)
    ensures forall k :: Field(j, k) == if Get(out, k).Some? then Some(SuiteJson(Get(out, k).value)) else None
  {
    var j := JObject(MapValues(out, SuiteJson));
    assert forall k :: Field(j, k) == if Get(out, k).Some? then Some(SuiteJson(Get(out, k).value)) else None by {
      forall k ensures Field(j, k) == if Get(out, k).Some? then Some(SuiteJson(Get(out, k).value)) else None {
        GetMapValues(out, SuiteJson, k);
      }
    }
    j
  }

  lemma {:induction false} SuiteJsonFields(suite: Report.SuiteSummary)
    ensures Field(SuiteJson(suite), "runs") == Some(JObject(MapValues(suite.runs, RunJson)))
  {
    var fields := SuiteJson(suite).fields;
    assert fields[0].0 == "name" && fields[1].0 == "times" && fields[2].0 == "runs";
    assert "name" != "runs" && "times" != "runs";
    assert IndexOf(fields, "runs") == 2 by {
      assert IndexOf(fields[1..], "runs") == 1 by {
        assert fields[1..][1..][0].0 == "runs";
      }
    }
  }

  /**
   * Against the reference a previous run wrote, `ref` never fails, and finds the entry of
   * the method exactly when that run had the suite's key and the method.
   */
  lemma {:induction false} RefFromSummary(out: Dict<string, Report.SuiteSummary>, key: string, test: string)
    ensures Ref(Some(SummaryJson(out)), key, test) ==
      match Get(out, key)
      case None => Success(None)
      case Some(suite) => Success(if Get(suite.runs, test).Some? then Some(RunJson(Get(suite.runs, test).value)) else None)
  {
    var doc := SummaryJson(out);
    GetMapValues(out, SuiteJson, key);
    if out != [] {
      assert Truthy(doc) by {
        assert |doc.fields| == |out|;
      }
      if Get(out, key).Some? {
        var suite := Get(out, key).value;
        SuiteJsonFields(suite);
        GetMapValues(suite.runs, RunJson, test);
      }
      WalkableTwo(doc, key, "runs");
      PathOfThree(doc, key, "runs", test);
      RefWalked(doc, key, test);
    }
  }

  // ---------------------------------------------------------------------------
  // diff and duration
  // ---------------------------------------------------------------------------

  /** `CliReporter.diff`: red and signed when slower, green when faster, a plain dash when equal. */
  function Diff(value: real, ref: real, fmt: real -> string): (r: Styled)
    ensures r.colour == Red <==> value > ref
    ensures r.colour == Green <==> value < ref
    ensures r.colour == Plain <==> value == ref
    ensures value > ref ==> r.text == "+" + fmt(value - ref) + "s"
    ensures value < ref ==> r.text == fmt(value - ref) + "s"
    ensures value == ref ==> r.text == "-"
  {
    var diff := value - ref;
    if diff > 0.0 then Styled(Red, "+" + fmt(diff) + "s")
    else if diff < 0.0 then Styled(Green, fmt(diff) + "s")
    else Styled(Plain, "-")
  }

  /** Python's numbers among loaded values: a `bool` counts as 0 or 1. */
  function Number(j: Json): Option<real> {
    match j
    case JNum(x) => Some(x)
    case JBool(b) => Some(if b then 1.0 else 0.0)
    case _ => None
  }

  /** `ref[k]` used in a subtraction: a missing key, a value that cannot be subscripted or a non-number fails. */
  function Operand(ref: Json, k: string): (r: Result<real, CliError>)
    ensures r.Success? <==> Field(ref, k).Some? && Number(Field(ref, k).value).Some?
    ensures r.Success? ==> Some(r.value) == Number(Field(ref, k).value)
    ensures r.Failure? && ref.JObject? && Field(ref, k).None? ==> r.error == KeyError
    ensures r.Failure? && (!ref.JObject? || Field(ref, k).Some?) ==> r.error == TypeError
  {
    if !ref.JObject? then Failure(TypeError)
    else
      match Get(ref.fields, k)
      case None => Failure(KeyError)
      case Some(v) => if Number(v).Some? then Success(Number(v).value) else Failure(TypeError)
  }

  /** A reference entry that `duration` compares against. */
  predicate Compared(ref: Option<Json>) {
    ref.Some? && Truthy(ref.value)
  }

  /**
   * `CliReporter.duration`: the total and the mean, each followed by its difference with the
   * reference entry when there is one.
   */
  function Duration(total: real, mean: real, ref: Option<Json>, fmt: real -> string): (r: Result<Line, CliError>)
    ensures r.Success? && Compared(ref) ==> |r.value| == 5
    ensures r.Success? && !Compared(ref) ==> |r.value| == 1
    ensures r.Failure? <==> Compared(ref) && (Operand(ref.value, "total").Failure? || Operand(ref.value, "mean").Failure?)
    ensures r.Success? ==> StartsWith(r.value[0].text, fmt(total) + "s")
  {
    if Compared(ref) then
      match Operand(ref.value, "total")
      case Failure(e) => Failure(e)
      case Success(t) =>
        match Operand(ref.value, "mean")
        case Failure(e) => Failure(e)
        case Success(m) =>
          Success([Styled(Plain, fmt(total) + "s ("), Diff(total, t, fmt), Styled(Plain, ") / " + fmt(mean) + "s ("),
                   Diff(mean, m, fmt), Styled(Plain, ")")])
    else
      Success([Styled(Plain, fmt(total) + "s / " + fmt(mean) + "s")])
  }

  /** Against an entry with a numeric total and mean, the two differences are those of the total and the mean. */
  lemma {:induction false} DurationDiffs(total: real, mean: real, ref: Json, t: real, m: real, fmt: real -> string)
    requires Truthy(ref) && Operand(ref, "total") == Success(t) && Operand(ref, "mean") == Success(m)
    ensures Duration(total, mean, Some(ref), fmt) ==
      Success([Styled(Plain, fmt(total) + "s ("), Diff(total, t, fmt), Styled(Plain, ") / " + fmt(mean) + "s ("),
               Diff(mean, m, fmt), Styled(Plain, ")")])
  {
  }

  // ---------------------------------------------------------------------------
  // The status of a method
  // ---------------------------------------------------------------------------

  /** The mark of `after_method`: a warning for mixed results, OK for successes only, KO otherwise. */
  function Mark(agg: Report.Aggregate): (r: Styled)
    ensures r == Styled(Yellow, WarningMark) <==> agg.hasSuccess && agg.hasErrors
    ensures r == Styled(Green, OkMark) <==> agg.hasSuccess && !agg.hasErrors
    ensures r == Styled(Red, KoMark) <==> !agg.hasSuccess
  {
    if agg.hasSuccess && agg.hasErrors then Styled(Yellow, WarningMark)
    else if agg.hasSuccess then Styled(Green, OkMark)
    else Styled(Red, KoMark)
  }

  /**
   * The status `after_method` prints for the method `test` of a run suite: its mark, a space and its
   * duration, the mean being the total over `times`, compared with the loaded reference.
   */
  function Status(suite: Report.SuiteView, test: string, doc: Option<Json>, fmt: real -> string)
    : (r: Result<Line, CliError>)
    ensures r.Success? ==>
      Get(suite.results, test).Some? && |r.value| >= 3 && r.value[0] == Mark(Get(suite.results, test).value.aggregate)
    ensures r.Success? ==> r.value[1] == Styled(Plain, " ")
  {
    match Get(suite.results, test)
    case None => Failure(KeyError)
    case Some(view) =>
      if suite.times == 0 then Failure(ZeroDivisionError)
      else
        var total := view.aggregate.total;
        var mean := total / (suite.times as real);
        match Ref(doc, Report.Key(suite), test)
        case Failure(e) => Failure(e)
        case Success(ref) =>
          match Duration(total, mean, ref, fmt)
          case Failure(e) => Failure(e)
          case Success(d) => Success([Mark(view.aggregate), Styled(Plain, " ")] + d)
  }

  /** The status of a method that ran, given what `ref` and `duration` return. */
  lemma {:induction false} StatusOf(suite: Report.SuiteView, test: string, view: Report.MethodView,
                                    doc: Option<Json>, fmt: real -> string, ref: Option<Json>)
    requires Get(suite.results, test) == Some(view) && suite.times != 0
    requires Ref(doc, Report.Key(suite), test) == Success(ref)
    requires Duration(view.aggregate.total, view.aggregate.total / (suite.times as real), ref, fmt).Success?
    ensures Status(suite, test, doc, fmt) ==
      Success([Mark(view.aggregate), Styled(Plain, " ")] +
              Duration(view.aggregate.total, view.aggregate.total / (suite.times as real), ref, fmt).value)
  {
  }

  /** The total and the mean of a dumped run entry read back. */
  lemma {:induction false} RunJsonFields(run: Report.RunSummary)
    ensures Truthy(RunJson(run))
    ensures Operand(RunJson(run), "total") == Success(run.total)
    ensures Operand(RunJson(run), "mean") == Success(run.mean)
  {
    var entry := RunJson(run).fields;
    assert entry[0].0 == "name" != "total" && entry[1].0 == "total";
    assert IndexOf(entry, "total") == 1 by {
      assert entry[1..][0].0 == "total";
    }
    assert entry[1].0 == "total" != "mean" && entry[0].0 == "name" != "mean" && entry[2].0 == "mean";
    assert IndexOf(entry, "mean") == 2 by {
      assert IndexOf(entry[1..], "mean") == 1 by {
        assert entry[1..][1..][0].0 == "mean";
      }
    }
  }

  /** Without a reference, a method that ran shows its mark and its duration alone. */
  lemma {:induction false} StatusWithoutReference(suite: Report.SuiteView, test: string, fmt: real -> string)
    requires test in Keys(suite.results) && suite.times != 0
    ensures Status(suite, test, None, fmt).Success?
    ensures |Status(suite, test, None, fmt).value| == 3
  {
  }

  /** Two pieces put in front of five make the seven in order. */
  lemma PrefixTwo(a: Styled, b: Styled, tail: Line)
    requires |tail| == 5
    ensures [a, b] + tail == [a, b, tail[0], tail[1], tail[2], tail[3], tail[4]]
  {
  }

  /** The status line of a method compared with a reference entry holding `t` and `m`. */
  function ComparedLine(agg: Report.Aggregate, times: int, t: real, m: real, fmt: real -> string): Line
    requires times != 0
  {
    var mean := agg.total / (times as real);
    [Mark(agg), Styled(Plain, " "), Styled(Plain, fmt(agg.total) + "s ("), Diff(agg.total, t, fmt),
     Styled(Plain, ") / " + fmt(mean) + "s ("), Diff(mean, m, fmt), Styled(Plain, ")")]
  }

  /**
   * When `ref` finds an entry with a numeric total and mean, the status shows the
   * differences of the method's total with that total and of its mean with that mean.
   */
  lemma {:induction false} StatusAgainstEntry(suite: Report.SuiteView, test: string, view: Report.MethodView,
                                              doc: Option<Json>, ref: Json, t: real, m: real, fmt: real -> string)
    requires Get(suite.results, test) == Some(view) && suite.times != 0
    requires Ref(doc, Report.Key(suite), test) == Success(Some(ref))
    requires Truthy(ref) && Operand(ref, "total") == Success(t) && Operand(ref, "mean") == Success(m)
    ensures Status(suite, test, doc, fmt) == Success(ComparedLine(view.aggregate, suite.times, t, m, fmt))
  {
    var total := view.aggregate.total;
    var mean := total / (suite.times as real);
    var dl := [Styled(Plain, fmt(total) + "s ("), Diff(total, t, fmt), Styled(Plain, ") / " + fmt(mean) + "s ("),
               Diff(mean, m, fmt), Styled(Plain, ")")];
    assert Duration(total, mean, Some(ref), fmt) == Success(dl) by {
      DurationDiffs(total, mean, ref, t, m, fmt);
    }
    PrefixTwo(Mark(view.aggregate), Styled(Plain, " "), dl);
    StatusOf(suite, test, view, doc, fmt, Some(ref));
  }

  /**
   * Against the reference a previous run wrote for the same suite and method, the status
   * shows the differences of the total with the stored total and of the mean with the
   * stored mean.
   */
  lemma {:induction false} StatusAgainstSummary(suite: Report.SuiteView, test: string, view: Report.MethodView,
                                                out: Dict<string, Report.SuiteSummary>, run: Report.RunSummary,
                                                fmt: real -> string)
    requires Get(suite.results, test) == Some(view) && suite.times != 0
    requires Get(out, Report.Key(suite)).Some? && Get(Get(out, Report.Key(suite)).value.runs, test) == Some(run)
    ensures Status(suite, test, Some(SummaryJson(out)), fmt) ==
      Success(ComparedLine(view.aggregate, suite.times, run.total, run.mean, fmt))
  {
    RefFromSummary(out, Report.Key(suite), test);
    RunJsonFields(run);
    StatusAgainstEntry(suite, test, view, Some(SummaryJson(out)), RunJson(run), run.total, run.mean, fmt);
  }

  // ---------------------------------------------------------------------------
  // start
  // ---------------------------------------------------------------------------

  const Running: string := "Running "

  /** The first line of `start`: the number of benchmarks, with a plural only beyond one. */
  function StartMessage(count: nat): (m: string)
    ensures StartsWith(m, Running)
    ensures m[|m| - 1] == 's' <==> count > 1
  {
    Running + NatStr(count) + (if count > 1 then " benchmarks" else " benchmark")
  }

  /** `start`: the message, then a rule of dashes as long as it. */
  function StartLines(count: nat): (lines: seq<Styled>)
    ensures |lines| == 2 && lines[0].text == StartMessage(count)
    ensures |lines[1].text| == |lines[0].text| && forall i :: 0 <= i < |lines[1].text| ==> lines[1].text[i] == '-'
  {
    var msg := StartMessage(count);
    [Styled(White, msg), Styled(White, Repeat('-', |msg|))]
  }

  /** The message ends in `s` exactly when there is more than one benchmark. */
  lemma {:induction false} StartMessagePlural(count: nat)
    ensures StartMessage(count)[|StartMessage(count)| - 1] == 's' <==> count > 1
  {
  }

  /** The count reads back from the digits that follow `Running `. */
  lemma {:induction false} StartMessageCount(count: nat)
    ensures StartsWith(StartMessage(count), Running)
    ensures AllDigits(StartMessage(count)[|Running|..|Running| + |NatStr(count)|])
    ensures DigitsValue(StartMessage(count)[|Running|..|Running| + |NatStr(count)|]) == count
  {
    var msg := StartMessage(count);
    assert msg[|Running|..|Running| + |NatStr(count)|] == NatStr(count);
    NatStrRoundTrip(count);
  }

  // ---------------------------------------------------------------------------
  // cli: the files, the reporters and the keyword arguments
  // ---------------------------------------------------------------------------

  const DefaultPattern: string := "**/*.bench.py"

  /** The patterns given, or the default one when none is. */
  function Patterns(patterns: seq<string>): (ps: seq<string>)
    ensures ps != []
    ensures patterns != [] ==> ps == patterns
  {
    if patterns == [] then [DefaultPattern] else patterns
  }

  /** The files of each pattern, one pattern after the other. */
  function Resolved(patterns: seq<string>, resolve: string -> seq<string>): seq<string>
    decreases |patterns|
  {
    if patterns == [] then []
    else Resolved(patterns[..|patterns| - 1], resolve) + resolve(patterns[|patterns| - 1])
  }

  /** A file is run exactly when some pattern resolves to it. */
  lemma {:induction false} ResolvedExactly(patterns: seq<string>, resolve: string -> seq<string>, f: string)
    ensures f in Resolved(patterns, resolve) <==> exists i :: 0 <= i < |patterns| && f in resolve(patterns[i])
    decreases |patterns|
  {
    if patterns != [] {
      var m := |patterns| - 1;
      var init := patterns[..m];
      ResolvedExactly(init, resolve, f);
      if exists i :: 0 <= i < |patterns| && f in resolve(patterns[i]) {
        var i :| 0 <= i < |patterns| && f in resolve(patterns[i]);
        if i < m {
          assert init[i] == patterns[i];
        }
      }
      if f in Resolved(init, resolve) {
        var i :| 0 <= i < |init| && f in resolve(init[i]);
        assert patterns[i] == init[i];
      }
    }
  }

  /** The file formats `cli` may report in, in the order it adds their reporters. */
  datatype Format = JsonFormat | CsvFormat | RstFormat | MarkdownFormat

  /** The reporters `cli` may add. */
  datatype ReporterChoice =
    | ConsoleReporter(ref: Option<Json>, debug: bool)
    | FileReporter(format: Format, filename: string)

  /** The order in which `cli` adds the reporters. */
  function Rank(r: ReporterChoice): nat {
    match r
    case ConsoleReporter(_, _) => 0
    case FileReporter(JsonFormat, _) => 1
    case FileReporter(CsvFormat, _) => 2
    case FileReporter(RstFormat, _) => 3
    case FileReporter(MarkdownFormat, _) => 4
  }

  /** An output option given a non-empty path. */
  predicate Given(path: Option<string>) {
    path.Some? && path.value != ""
  }

  /** How many of the output options were given. */
  function GivenCount(json: Option<string>, csv: Option<string>, rst: Option<string>, md: Option<string>): nat {
    (if Given(json) then 1 else 0) + (if Given(csv) then 1 else 0) + (if Given(rst) then 1 else 0) +
    (if Given(md) then 1 else 0)
  }

  /** The option of each format: `--json`, `--csv`, `--rst` and `--md`. */
  function OptionOf(format: Format, json: Option<string>, csv: Option<string>, rst: Option<string>, md: Option<string>)
    : Option<string>
  {
    match format
    case JsonFormat => json
    case CsvFormat => csv
    case RstFormat => rst
    case MarkdownFormat => md
  }

  /** The reporter of one format, when its option is given. */
  function Optional(format: Format, path: Option<string>): seq<ReporterChoice> {
    if Given(path) then [FileReporter(format, path.value)] else []
  }

  /** The reporters `cli` builds. */
  function Chosen(ref: Option<Json>, debug: bool,
                  json: Option<string>, csv: Option<string>, rst: Option<string>, md: Option<string>)
    : seq<ReporterChoice>
  {
    [ConsoleReporter(ref, debug)] + Optional(JsonFormat, json) + Optional(CsvFormat, csv) +
    Optional(RstFormat, rst) + Optional(MarkdownFormat, md)
  }

  /** The reporters come in the order `cli` adds them. */
  predicate Ascending(reporters: seq<ReporterChoice>) {
    forall i, j :: 0 <= i < j < |reporters| ==> Rank(reporters[i]) < Rank(reporters[j])
  }

  /** Reporters of earlier kinds followed by the optional reporter of a later format keep the order. */
  lemma {:induction false} AscendingOptional(reporters: seq<ReporterChoice>, format: Format, path: Option<string>)
    requires Ascending(reporters) && forall x :: x in reporters ==> Rank(x) < Rank(FileReporter(format, ""))
    ensures Ascending(reporters + Optional(format, path))
    ensures forall x :: x in reporters + Optional(format, path) ==> Rank(x) <= Rank(FileReporter(format, ""))
  {
    var s := reporters + Optional(format, path);
    if Given(path) {
      forall i, j | 0 <= i < j < |s| ensures Rank(s[i]) < Rank(s[j]) {
        if j == |reporters| {
          assert s[i] == reporters[i] && reporters[i] in reporters;
        }
      }
    } else {
      assert s == reporters;
    }
  }

  /** A reporter is among those followed by an optional one exactly when it is one of them or that one. */
  lemma InOptional(reporters: seq<ReporterChoice>, format: Format, path: Option<string>, x: ReporterChoice)
    ensures x in reporters + Optional(format, path) <==>
      x in reporters || (Given(path) && x == FileReporter(format, path.value))
  {
  }

  /**
   * The console reporter comes first, then one reporter per output option given, in the
   * order JSON, CSV, reStructuredText, Markdown.
   */
  lemma {:induction false} ChosenOrder(ref: Option<Json>, debug: bool,
                                       json: Option<string>, csv: Option<string>, rst: Option<string>, md: Option<string>)
    ensures |Chosen(ref, debug, json, csv, rst, md)| == 1 + GivenCount(json, csv, rst, md)
    ensures Chosen(ref, debug, json, csv, rst, md)[0] == ConsoleReporter(ref, debug)
    ensures Ascending(Chosen(ref, debug, json, csv, rst, md))
  {
    var s1 := [ConsoleReporter(ref, debug)];
    var s2 := s1 + Optional(JsonFormat, json);
    var s3 := s2 + Optional(CsvFormat, csv);
    var s4 := s3 + Optional(RstFormat, rst);
    AscendingOptional(s1, JsonFormat, json);
    AscendingOptional(s2, CsvFormat, csv);
    AscendingOptional(s3, RstFormat, rst);
    AscendingOptional(s4, MarkdownFormat, md);
  }

  /** A file reporter of a format is there exactly when its option names a path, and writes to that path. */
  lemma {:induction false} ChosenFiles(ref: Option<Json>, debug: bool,
                                       json: Option<string>, csv: Option<string>, rst: Option<string>, md: Option<string>)
    ensures forall format, path :: FileReporter(format, path) in Chosen(ref, debug, json, csv, rst, md) <==>
      OptionOf(format, json, csv, rst, md) == Some(path) && path != ""
  {
    var s1 := [ConsoleReporter(ref, debug)];
    var s2 := s1 + Optional(JsonFormat, json);
    var s3 := s2 + Optional(CsvFormat, csv);
    var s4 := s3 + Optional(RstFormat, rst);
    forall format, path
      ensures FileReporter(format, path) in Chosen(ref, debug, json, csv, rst, md) <==>
        OptionOf(format, json, csv, rst, md) == Some(path) && path != ""
    {
      var x := FileReporter(format, path);
      InOptional(s1, JsonFormat, json, x);
      InOptional(s2, CsvFormat, csv, x);
      InOptional(s3, RstFormat, rst, x);
      InOptional(s4, MarkdownFormat, md, x);
    }
  }

  /**
   * The files the patterns name (the default pattern when none is given), in pattern
   * order, as `cli` gathers them.
   */
  method GatherFiles(patterns: seq<string>, resolve: string -> seq<string>) returns (filenames: seq<string>)
    ensures filenames == Resolved(Patterns(patterns), resolve)
  {
    var ps := Patterns(patterns);
    filenames := [];
    for i := 0 to |ps|
      invariant filenames == Resolved(ps[..i], resolve)
    {
      assert ps[..i + 1][..i] == ps[..i];
      filenames := filenames + resolve(ps[i]);
    }
    assert ps[..|ps|] == ps;
  }

  /** One step of `cli`: the reporter of a format is appended when its option is given. */
  lemma Appended(after: seq<ReporterChoice>, before: seq<ReporterChoice>, format: Format, path: Option<string>)
    requires after == if Given(path) then before + [FileReporter(format, path.value)] else before
    ensures after == before + Optional(format, path)
  {
    if !Given(path) {
      assert before + [] == before;
    }
  }

  /** `cli` adds the reporters one by one to the list it starts with the console reporter. */
  method AssembleReporters(ref: Option<Json>, debug: bool,
                           json: Option<string>, csv: Option<string>, rst: Option<string>, md: Option<string>)
    returns (reporters: seq<ReporterChoice>)
    ensures reporters == Chosen(ref, debug, json, csv, rst, md)
  {
    reporters := [ConsoleReporter(ref, debug)];
    if Given(json) {
      reporters := reporters + [FileReporter(JsonFormat, json.value)];
    }
    Appended(reporters, [ConsoleReporter(ref, debug)], JsonFormat, json);
    ghost var before := reporters;
    if Given(csv) {
      reporters := reporters + [FileReporter(CsvFormat, csv.value)];
    }
    Appended(reporters, before, CsvFormat, csv);
    before := reporters;
    if Given(rst) {
      reporters := reporters + [FileReporter(RstFormat, rst.value)];
    }
    Appended(reporters, before, RstFormat, rst);
    before := reporters;
    if Given(md) {
      reporters := reporters + [FileReporter(MarkdownFormat, md.value)];
    }
    Appended(reporters, before, MarkdownFormat, md);
  }

  /** The keyword arguments of `run`: `times` only when it is given and not zero. */
  function Kwargs(times: Option<int>): (kwargs: Dict<string, int>)
    ensures Get(kwargs, "times").Some? <==> times.Some? && times.value != 0
    ensures Get(kwargs, "times").Some? ==> Get(kwargs, "times") == times
  {
    if times.Some? && times.value != 0 then Put([], "times", times.value) else []
  }

  /** What `run(**kwargs)` receives. */
  function OptionsOf(kwargs: Dict<string, int>): Runner.RunOptions {
    Runner.RunOptions(Get(kwargs, "times"), None, false, {})
  }

  /**
   * Leaving a zero `times` out changes nothing: every instance runs as many times as with
   * the option passed through.
   */
  lemma {:induction false} KwargsTimes(times: Option<int>, classTimes: int)
    ensures Bench.ChooseTimes(OptionsOf(Kwargs(times)).times, classTimes) == Bench.ChooseTimes(times, classTimes)
  {
  }

  /** The reporters as the runner receives them: the `i`-th is the instance `i`. */
  function InstanceArgs(n: nat): (args: seq<Runner.ReporterArg>)
    ensures |args| == n
    ensures forall i :: 0 <= i < n ==> args[i] == Runner.ReporterInstance(i)
  {
    seq(n, i requires 0 <= i < n => Runner.ReporterInstance(i))
  }

  /** The runner keeps every reporter `cli` built, in order. */
  lemma {:induction false} KeptInstances(n: nat)
    ensures |Runner.Kept(InstanceArgs(n))| == n
    ensures forall i :: 0 <= i < n ==> Runner.Kept(InstanceArgs(n))[i] == Runner.Instance(i)
    decreases n
  {
    if n > 0 {
      assert InstanceArgs(n)[..n - 1] == InstanceArgs(n - 1);
      KeptInstances(n - 1);
    }
  }

  /** The files as the runner receives them: paths. */
  function PathArgs(filenames: seq<string>): (args: seq<Runner.ModuleArg>)
    ensures |args| == |filenames|
    ensures forall i :: 0 <= i < |filenames| ==> args[i] == Runner.Path(filenames[i])
  {
    seq(|filenames|, i requires 0 <= i < |filenames| => Runner.Path(filenames[i]))
  }

  /**
   * `cli`: gathers the files of the patterns, builds the reporters and the keyword arguments,
   * then creates the runner on those files and runs it. `load` imports a file, `observe`
   * times the runs; both stand for what the command cannot see.
   */
  method Command(patterns: seq<string>, times: Option<int>,
                 json: Option<string>, csv: Option<string>, rst: Option<string>, md: Option<string>,
                 ref: Option<Json>, debug: bool, resolve: string -> seq<string>,
                 load: (string, string) -> seq<Runner.Member>, observe: nat -> (string, nat) -> Bench.Observation)
    returns (runner: Runner.BenchmarkRunner, reporters: seq<ReporterChoice>)
    ensures fresh(runner)
    ensures reporters == Chosen(ref, debug, json, csv, rst, md)
    ensures runner.benchmarks == Runner.LoadedSuites(PathArgs(Resolved(Patterns(patterns), resolve)), load)
    ensures !runner.failed
    ensures runner.reporters == Runner.Kept(InstanceArgs(|reporters|)) && |runner.reporters| == |reporters|
    ensures runner.debug == debug && |runner.runned| == |runner.benchmarks|
    ensures runner.log == Runner.Broadcast(|reporters|, Runner.Init) +
      Runner.RunLog(|reporters|, 0, runner.benchmarks, OptionsOf(Kwargs(times)))
  {
    var filenames := GatherFiles(patterns, resolve);
    reporters := AssembleReporters(ref, debug, json, csv, rst, md);
    var kwargs: Dict<string, int> := [];
    if times.Some? && times.value != 0 {
      kwargs := Put(kwargs, "times", times.value);
    }
    runner := RunOn(PathArgs(filenames), load, |reporters|, debug, OptionsOf(kwargs), observe);
  }

  /**
   * The end of `cli`: a runner on `files` with the `n` reporters and `debug`, run with
   * `options`, which hold no keyword the runner passes itself.
   */
  method RunOn(files: seq<Runner.ModuleArg>, load: (string, string) -> seq<Runner.Member>, n: nat, debug: bool,
               options: Runner.RunOptions, observe: nat -> (string, nat) -> Bench.Observation)
    returns (runner: Runner.BenchmarkRunner)
    requires options.others == {}
    ensures fresh(runner)
    ensures runner.benchmarks == Runner.LoadedSuites(files, load)
    ensures !runner.failed
    ensures runner.reporters == Runner.Kept(InstanceArgs(n)) && |runner.reporters| == n
    ensures runner.debug == debug && |runner.runned| == |runner.benchmarks|
    ensures runner.log == Runner.Broadcast(n, Runner.Init) + Runner.RunLog(n, 0, runner.benchmarks, options)
  {
    KeptInstances(n);
    assert Runner.FirstRaising(InstanceArgs(n)) == n;
    runner := new Runner.BenchmarkRunner(files, load, InstanceArgs(n), debug);
    assert !Runner.Clashes(options);
    ghost var made, raised := runner.Run(options, observe);
  }
}
