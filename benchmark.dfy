/**
 * `minibench/benchmark.py`: the `Benchmark` base class. A suite collects the methods whose
 * name carries a prefix and runs each of them `times` times, firing its own hooks and the
 * hooks injected through the constructor in a fixed nesting, and records one `RunResult`
 * per call.
 *
 * Python reflection (`dir`, `getattr`, `__doc__`, `__class__.__name__`) is given as data in
 * a `SuiteClass`. The hooks a subclass defines and the callables injected through the
 * constructor have no effect the model can see except that they are called, so every call
 * is recorded, in order, in the instance's `trace`. The timer and the value a benchmarked
 * method returns come from an `observe` oracle.
 */
module Bench {
  import opened Wrappers
  import opened PyStr
  import opened Dicts
  import opened Utils

  /** `DEFAULT_TIMES`: how many times each method runs unless a suite says otherwise. */
  const DefaultTimes: int := 5

  /** The default of the constructor's `prefix` argument. */
  const DefaultPrefix: string := "bench_"

  /** What reflection tells about a suite class and its instances. */
  datatype SuiteClass = SuiteClass(
    name: string,                    // `__class__.__name__`
    doc: Option<string>,             // the class docstring, `None` when it has none
    members: seq<string>,            // `dir(self)`: every attribute name, sorted
    methodDocs: map<string, string>, // the docstrings of the methods that have one
    times: int)                      // the class attribute `times` (`DEFAULT_TIMES` unless overridden)

  /** Which of the constructor's hook arguments were given; a missing one is `_noop`. */
  datatype Injected = Injected(before: bool, beforeEach: bool, after: bool, afterEach: bool)

  /** What one call of a benchmarked method gives: the timer difference and the returned value. */
  datatype Observation = Observation(duration: real, value: string)

  /** `RunResult(duration, success, result)`. */
  datatype RunResult = RunResult(duration: real, success: bool, result: string)

  /** A call made while a suite runs. */
  datatype Event =
    | BeforeClass                                   // `self.before_class()`
    | Before                                        // `self.before()`
    | BeforeEach                                    // `self.before_each()`
    | Call(test: string)                            // the benchmarked method itself
    | AfterEach                                     // `self.after_each()`
    | After                                         // `self.after()`
    | AfterClass                                    // `self.after_class()`
    | InjectedBefore(test: string)                  // `before(self, test)`
    | InjectedBeforeEach(test: string, i: nat)      // `before_each(self, test, i)`
    | InjectedAfterEach(test: string, i: nat)       // `after_each(self, test, i)`
    | InjectedAfter(test: string)                   // `after(self, test)`

  // ---------------------------------------------------------------------------
  // Construction and collection
  // ---------------------------------------------------------------------------

  /**
   * `times or self.times`: the constructor argument when it is truthy (given and not 0),
   * otherwise the class attribute.
   */
  function ChooseTimes(arg: Option<int>, classTimes: int): (n: int)
    ensures arg.Some? && arg.value != 0 ==> n == arg.value
    ensures arg.None? || arg.value == 0 ==> n == classTimes
  {
    if arg.Some? && arg.value != 0 then arg.value else classTimes
  }

  /** How many iterations `range(times)` makes: none for a negative count. */
  function Iterations(times: int): (n: nat)
    ensures times >= 0 ==> n == times
    ensures times < 0 ==> n == 0
  {
    if times < 0 then 0 else times
  }

  /** `_collect`: the names `dir()` lists that start with the prefix, in `dir()` order. */
  function Collect(members: seq<string>, prefix: string): (tests: seq<string>)
    ensures |tests| <= |members|
    decreases |members|
  {
    if members == [] then []
    else
      var last := members[|members| - 1];
      var init := members[..|members| - 1];
      Collect(init, prefix) + (if StartsWith(last, prefix) then [last] else [])
  }

  /** The tests are exactly the members whose names start with the prefix. */
  lemma {:induction false} CollectMembers(members: seq<string>, prefix: string)
    ensures forall t :: t in Collect(members, prefix) <==> t in members && StartsWith(t, prefix)
    decreases |members|
  {
    if members != [] {
      var last := members[|members| - 1];
      var init := members[..|members| - 1];
      assert members == init + [last];
      CollectMembers(init, prefix);
    }
  }

  /** No name twice. */
  predicate Distinct(names: seq<string>) {
    forall i, j :: 0 <= i < j < |names| ==> names[i] != names[j]
  }

  /** `dir()` lists names sorted and once each, and collecting keeps that order. */
  lemma {:induction false} CollectSorted(members: seq<string>, prefix: string)
    requires StrictlySorted(members)
    ensures StrictlySorted(Collect(members, prefix))
    decreases |members|
  {
    if members != [] {
      var last := members[|members| - 1];
      var init := members[..|members| - 1];
      CollectSorted(init, prefix);
      CollectMembers(init, prefix);
      var c := Collect(init, prefix);
      forall i | 0 <= i < |c| ensures LexLess(c[i], last) {
        assert c[i] in init;
        var j :| 0 <= j < |init| && init[j] == c[i];
        assert members[j] == c[i];
      }
    }
  }

  /** Collecting from a list without repeats gives a list without repeats. */
  lemma {:induction false} CollectDistinct(members: seq<string>, prefix: string)
    requires Distinct(members)
    ensures Distinct(Collect(members, prefix))
    decreases |members|
  {
    if members != [] {
      var last := members[|members| - 1];
      var init := members[..|members| - 1];
      assert Distinct(init);
      CollectDistinct(init, prefix);
      CollectMembers(init, prefix);
      assert last !in init by {
        forall j | 0 <= j < |init| ensures init[j] != last {
          assert members[j] == init[j];
        }
      }
    }
  }

  // ---------------------------------------------------------------------------
  // Labels
  // ---------------------------------------------------------------------------

  /**
   * The label a docstring gives, if it gives one: `doc and doc.strip()` is truthy exactly
   * when the docstring is present and not blank, and the label is then the first line of
   * the stripped docstring, which is never empty and never starts with whitespace.
   */
  function DocLabel(doc: Option<string>): (r: Option<string>)
    ensures r.Some? <==> doc.Some? && !AllSpace(doc.value)
    ensures r.Some? ==> r.value != [] && !IsSpace(r.value[0])
    ensures r.Some? ==> StartsWith(Strip(doc.value), r.value)
    ensures r.Some? ==> forall i :: 0 <= i < |r.value| ==> !IsLineBreak(r.value[i])
  {
    if doc.Some? && Strip(doc.value) != [] then
      var s := Strip(doc.value);
      LineBreakIsSpace(s[0]);
      var line := FirstLine(s);
      assert line[0] == s[0];
      Some(line)
    else None
  }

  /**
   * A docstring that is whitespace, a first line, further lines and whitespace labels with
   * that first line: the indentation around a triple-quoted docstring does not reach the label.
   */
  lemma DocLabelFirstLine(lead: string, line: string, rest: string, trail: string)
    requires AllSpace(lead) && AllSpace(trail)
    requires line != [] && !IsSpace(line[0])
    requires forall i :: 0 <= i < |line| ==> !IsLineBreak(line[i])
    requires rest == [] ==> !IsSpace(line[|line| - 1])
    requires rest != [] ==> IsLineBreak(rest[0]) && !IsSpace(rest[|rest| - 1])
    ensures DocLabel(Some(lead + line + rest + trail)) == Some(line)
  {
    var body := line + rest;
    assert body[0] == line[0];
    assert lead + line + rest + trail == lead + body + trail;
    StripOf(lead, body, trail);
    assert body[..|line|] == line;
    FirstLineIs(body, line);
  }

  /** The indentation of the docstring of a test class nested in a test method. */
  const ClassDocIndent: string := "\n            "

  /** The indentation of the docstring of a method of such a class. */
  const MethodDocIndent: string := "\n                "

  /** A triple-quoted docstring of two lines, each line and the closing quotes under `indent`. */
  function TwoLineDoc(indent: string): string
  {
    indent + "A simple test benchmark." + indent + "This should be striped" + indent
  }

  /** An indentation: a line break, then blanks only. */
  predicate IsIndent(indent: string)
  {
    indent != [] && IsLineBreak(indent[0]) && AllSpace(indent)
  }

  /** The pieces of `TwoLineDoc(indent)`. */
  lemma TwoLineDocPieces(indent: string)
    requires IsIndent(indent)
    ensures var line := "A simple test benchmark.";
      line != [] && !IsSpace(line[0]) && forall i :: 0 <= i < |line| ==> !IsLineBreak(line[i])
    ensures var rest := indent + "This should be striped";
      rest != [] && IsLineBreak(rest[0]) && !IsSpace(rest[|rest| - 1])
  {
  }

  /** The two-line docstring labels with its first line, whatever its indentation. */
  lemma TwoLineDocLabel(indent: string)
    requires IsIndent(indent)
    ensures DocLabel(Some(TwoLineDoc(indent))) == Some("A simple test benchmark.")
  {
    TwoLineDocPieces(indent);
    var rest := indent + "This should be striped";
    assert TwoLineDoc(indent) == indent + "A simple test benchmark." + rest + indent;
    DocLabelFirstLine(indent, "A simple test benchmark.", rest, indent);
  }

  /** Both indentations of the tests are indentations. */
  lemma TestIndents()
    ensures IsIndent(ClassDocIndent) && IsIndent(MethodDocIndent)
  {
  }

  /** The pieces of the method name `bench_something`. */
  lemma BenchSomethingPieces()
    ensures DefaultPrefix + "something" == "bench_something"
    ensures 'b' in DefaultPrefix && 'b' !in "something"
    ensures forall i :: 0 <= i < |"something"| ==> IsLower("something"[i])
    ensures [ToUpper('s')] + "omething" == "Something"
  {
  }

  /** The docstring of attribute `name`, `None` when it has none. */
  function MethodDoc(suite: SuiteClass, name: string): Option<string> {
    if name in suite.methodDocs then Some(suite.methodDocs[name]) else None
  }

  // ---------------------------------------------------------------------------
  // The trace of a run
  // ---------------------------------------------------------------------------

  /** A call that happens only when its hook was injected. */
  function IfInjected(given: bool, e: Event): seq<Event> {
    if given then [e] else []
  }

  /**
   * Iteration `i` of method `test`: the injected `before_each`, the own `before_each`, the
   * call, the own `after_each`, the injected `after_each`.
   */
  function IterationTrace(test: string, i: nat, inj: Injected): seq<Event> {
    IfInjected(inj.beforeEach, InjectedBeforeEach(test, i))
    + [BeforeEach, Call(test), AfterEach]
    + IfInjected(inj.afterEach, InjectedAfterEach(test, i))
  }

  /** Iterations `0 .. n - 1` of method `test`, in order. */
  function IterationsTrace(test: string, n: nat, inj: Injected): seq<Event> {
    if n == 0 then [] else IterationsTrace(test, n - 1, inj) + IterationTrace(test, n - 1, inj)
  }

  /**
   * One method: the injected `before`, the own `before`, its iterations, the own `after`,
   * the injected `after`.
   */
  function MethodTrace(test: string, n: nat, inj: Injected): seq<Event> {
    IfInjected(inj.before, InjectedBefore(test)) + [Before]
    + IterationsTrace(test, n, inj)
    + [After] + IfInjected(inj.after, InjectedAfter(test))
  }

  /** The methods `tests`, one after the other. */
  function MethodsTrace(tests: seq<string>, n: nat, inj: Injected): seq<Event>
    decreases |tests|
  {
    if tests == [] then []
    else MethodsTrace(tests[..|tests| - 1], n, inj) + MethodTrace(tests[|tests| - 1], n, inj)
  }

  /** A whole run: nothing at all without tests, otherwise the methods between the class hooks. */
  function RunTrace(tests: seq<string>, n: nat, inj: Injected): seq<Event> {
    if tests == [] then [] else [BeforeClass] + MethodsTrace(tests, n, inj) + [AfterClass]
  }

  // ---------------------------------------------------------------------------
  // The results of a run
  // ---------------------------------------------------------------------------

  /** The `RunResult` `_run_one` builds: `success` is always `True`. */
  function Measured(o: Observation): (r: RunResult)
    ensures r.success && r.duration == o.duration && r.result == o.value
  {
    RunResult(o.duration, true, o.value)
  }

  /** The results of `n` iterations of `test`, in iteration order. */
  function Measurements(test: string, n: nat, observe: (string, nat) -> Observation): (rs: seq<RunResult>)
    ensures |rs| == n
    ensures forall i :: 0 <= i < n ==> rs[i] == Measured(observe(test, i))
  {
    if n == 0 then [] else Measurements(test, n - 1, observe) + [Measured(observe(test, n - 1))]
  }

  /** `results` after running `tests` on top of `d`: each test's list replaced by its new results. */
  function ResultsAfter(d: Dict<string, seq<RunResult>>, tests: seq<string>, n: nat,
                        observe: (string, nat) -> Observation): Dict<string, seq<RunResult>>
    decreases |tests|
  {
    if tests == [] then d
    else
      var last := tests[|tests| - 1];
      Put(ResultsAfter(d, tests[..|tests| - 1], n, observe), last, Measurements(last, n, observe))
  }

  /** Running one more method extends the trace by that method and replaces its results. */
  lemma {:induction false} RunStep(d: Dict<string, seq<RunResult>>, tests: seq<string>, k: nat, n: nat, inj: Injected,
                observe: (string, nat) -> Observation)
    requires k < |tests|
    ensures MethodsTrace(tests[..k + 1], n, inj) == MethodsTrace(tests[..k], n, inj) + MethodTrace(tests[k], n, inj)
    ensures ResultsAfter(d, tests[..k + 1], n, observe) == Put(ResultsAfter(d, tests[..k], n, observe), tests[k], Measurements(tests[k], n, observe))
  {
    assert tests[..k + 1][..k] == tests[..k];
  }

  /** Appending pieces one at a time is appending them all at once. */
  lemma {:induction false} Regroup1<T>(x: seq<T>, a: seq<T>, b: seq<T>)
    ensures x + a + b == x + (a + b)
  {
  }

  lemma {:induction false} Regroup3<T>(x: seq<T>, a: seq<T>, b: seq<T>, c: seq<T>)
    ensures x + a + b + c == x + (a + b + c)
  {
  }

  lemma {:induction false} Regroup5<T>(x: seq<T>, a: seq<T>, b: seq<T>, c: seq<T>, d: seq<T>, e: seq<T>)
    ensures x + a + b + c + d + e == x + (a + b + c + d + e)
  {
  }

  // ---------------------------------------------------------------------------
  // How often each hook fires
  // ---------------------------------------------------------------------------

  /** The hooks, without their arguments. */
  datatype Hook =
    | BeforeClassHook | BeforeHook | BeforeEachHook | CallHook | AfterEachHook | AfterHook
    | AfterClassHook | InjectedBeforeHook | InjectedBeforeEachHook | InjectedAfterEachHook
    | InjectedAfterHook

  function HookOf(e: Event): Hook {
    match e
    case BeforeClass => BeforeClassHook
    case Before => BeforeHook
    case BeforeEach => BeforeEachHook
    case Call(_) => CallHook
    case AfterEach => AfterEachHook
    case After => AfterHook
    case AfterClass => AfterClassHook
    case InjectedBefore(_) => InjectedBeforeHook
    case InjectedBeforeEach(_, _) => InjectedBeforeEachHook
    case InjectedAfterEach(_, _) => InjectedAfterEachHook
    case InjectedAfter(_) => InjectedAfterHook
  }

  /** How many calls of hook `h` a trace holds. */
  function Count(t: seq<Event>, h: Hook): nat
    decreases |t|
  {
    if t == [] then 0
    else Count(t[..|t| - 1], h) + (if HookOf(t[|t| - 1]) == h then 1 else 0)
  }

  /** Counting over two traces one after the other adds up. */
  lemma {:induction false} CountConcat(a: seq<Event>, b: seq<Event>, h: Hook)
    ensures Count(a + b, h) == Count(a, h) + Count(b, h)
    decreases |b|
  {
    if b == [] {
      assert a + b == a;
    } else {
      assert (a + b)[..|a + b| - 1] == a + b[..|b| - 1];
      CountConcat(a, b[..|b| - 1], h);
    }
  }

  function Once(given: bool): nat {
    if given then 1 else 0
  }

  /** How often `h` fires in one iteration: own per-call hooks always, injected ones if given. */
  function PerIteration(h: Hook, inj: Injected): nat {
    match h
    case BeforeEachHook => 1
    case CallHook => 1
    case AfterEachHook => 1
    case InjectedBeforeEachHook => Once(inj.beforeEach)
    case InjectedAfterEachHook => Once(inj.afterEach)
    case _ => 0
  }

  /** How often `h` fires once per method, outside the iterations. */
  function PerMethod(h: Hook, inj: Injected): nat {
    match h
    case BeforeHook => 1
    case AfterHook => 1
    case InjectedBeforeHook => Once(inj.before)
    case InjectedAfterHook => Once(inj.after)
    case _ => 0
  }

  /** How often `h` fires once per run. */
  function PerRun(h: Hook): nat {
    match h
    case BeforeClassHook => 1
    case AfterClassHook => 1
    case _ => 0
  }

  /** One call is counted once, for its own hook. */
  lemma {:induction false} CountOne(e: Event, h: Hook)
    ensures Count([e], h) == if HookOf(e) == h then 1 else 0
  {
    assert [e][..0] == [];
  }

  lemma {:induction false} CountInjected(given: bool, e: Event, h: Hook)
    ensures Count(IfInjected(given, e), h) == if given && HookOf(e) == h then 1 else 0
  {
    if given {
      CountOne(e, h);
    }
  }

  /** Three calls are counted one by one. */
  lemma {:induction false} CountThree(a: Event, b: Event, c: Event, h: Hook)
    ensures Count([a, b, c], h) == Count([a], h) + Count([b], h) + Count([c], h)
  {
    assert [a, b, c][..2] == [a, b];
    assert [a, b][..1] == [a];
    assert [a][..0] == [] && [b][..0] == [] && [c][..0] == [];
  }

  lemma {:induction false} IterationCount(test: string, i: nat, inj: Injected, h: Hook)
    ensures Count(IterationTrace(test, i, inj), h) == PerIteration(h, inj)
  {
    var pre := IfInjected(inj.beforeEach, InjectedBeforeEach(test, i));
    var mid := [BeforeEach, Call(test), AfterEach];
    var post := IfInjected(inj.afterEach, InjectedAfterEach(test, i));
    CountConcat(pre, mid, h);
    CountConcat(pre + mid, post, h);
    CountThree(BeforeEach, Call(test), AfterEach, h);
    CountInjected(inj.beforeEach, InjectedBeforeEach(test, i), h);
    CountInjected(inj.afterEach, InjectedAfterEach(test, i), h);
    CountOne(BeforeEach, h);
    CountOne(Call(test), h);
    CountOne(AfterEach, h);
  }

  lemma {:induction false} IterationsCount(test: string, n: nat, inj: Injected, h: Hook)
    ensures Count(IterationsTrace(test, n, inj), h) == n * PerIteration(h, inj)
  {
    assert Count(IterationsTrace(test, n, inj), h) == Scaled(n, PerIteration(h, inj)) by {
      forall i: nat ensures Count(IterationTrace(test, i, inj), h) == PerIteration(h, inj) {
        IterationCount(test, i, inj, h);
      }
      EachIterationCount(test, n, inj, h, PerIteration(h, inj));
    }
    ScaledIsProduct(n, PerIteration(h, inj));
  }


  /** When every iteration counts `m`, `n` iterations count `m` each. */
  lemma {:induction false} EachIterationCount(test: string, n: nat, inj: Injected, h: Hook, m: nat)
    requires forall i: nat :: Count(IterationTrace(test, i, inj), h) == m
    ensures Count(IterationsTrace(test, n, inj), h) == Scaled(n, m)
  {
    if n > 0 {
      assert Count(IterationsTrace(test, n, inj), h)
          == Count(IterationsTrace(test, n - 1, inj), h) + Count(IterationTrace(test, n - 1, inj), h) by {
        CountConcat(IterationsTrace(test, n - 1, inj), IterationTrace(test, n - 1, inj), h);
      }
      assert Count(IterationsTrace(test, n - 1, inj), h) == Scaled(n - 1, m) by {
        EachIterationCount(test, n - 1, inj, h, m);
      }
    }
  }


  /** `k` times `m`, as `k` additions, so that the inductions above stay linear. */
  function Scaled(k: nat, m: nat): nat {
    if k == 0 then 0 else Scaled(k - 1, m) + m
  }

  lemma {:induction false} ScaledIsProduct(k: nat, m: nat)
    ensures Scaled(k, m) == k * m
  {
    if k > 0 {
      ScaledIsProduct(k - 1, m);
    }
  }



  lemma {:induction false} MethodCount(test: string, n: nat, inj: Injected, h: Hook)
    ensures Count(MethodTrace(test, n, inj), h) == PerMethod(h, inj) + n * PerIteration(h, inj)
  {
    MethodCountSplit(test, n, inj, h);
    MethodCountEdges(test, inj, h);
    IterationsCount(test, n, inj, h);
  }

  /** The count over one method is the sum of the counts over its five parts. */
  lemma {:induction false} MethodCountSplit(test: string, n: nat, inj: Injected, h: Hook)
    ensures Count(MethodTrace(test, n, inj), h)
      == Count(IfInjected(inj.before, InjectedBefore(test)), h) + Count([Before], h)
       + Count(IterationsTrace(test, n, inj), h) + Count([After], h)
       + Count(IfInjected(inj.after, InjectedAfter(test)), h)
  {
    var pre := IfInjected(inj.before, InjectedBefore(test));
    var post := IfInjected(inj.after, InjectedAfter(test));
    var its := IterationsTrace(test, n, inj);
    CountConcat(pre, [Before], h);
    CountConcat(pre + [Before], its, h);
    CountConcat(pre + [Before] + its, [After], h);
    CountConcat(pre + [Before] + its + [After], post, h);
  }

  /** The parts of a method outside its iterations count as `PerMethod`. */
  lemma {:induction false} MethodCountEdges(test: string, inj: Injected, h: Hook)
    ensures Count(IfInjected(inj.before, InjectedBefore(test)), h) + Count([Before], h)
       + Count([After], h) + Count(IfInjected(inj.after, InjectedAfter(test)), h) == PerMethod(h, inj)
  {
    CountInjected(inj.before, InjectedBefore(test), h);
    CountInjected(inj.after, InjectedAfter(test), h);
    CountOne(Before, h);
    CountOne(After, h);
  }

  lemma {:induction false} MethodsCount(tests: seq<string>, n: nat, inj: Injected, h: Hook)
    ensures Count(MethodsTrace(tests, n, inj), h) == |tests| * (PerMethod(h, inj) + n * PerIteration(h, inj))
  {
    var m := PerMethod(h, inj) + n * PerIteration(h, inj);
    assert Count(MethodsTrace(tests, n, inj), h) == Scaled(|tests|, m) by {
      forall test: string ensures Count(MethodTrace(test, n, inj), h) == m {
        MethodCount(test, n, inj, h);
      }
      EachMethodCount(tests, n, inj, h, m);
    }
    ScaledIsProduct(|tests|, m);
  }


  /** When every method counts `m`, several methods count `m` each. */
  lemma {:induction false} EachMethodCount(tests: seq<string>, n: nat, inj: Injected, h: Hook, m: nat)
    requires forall test :: Count(MethodTrace(test, n, inj), h) == m
    ensures Count(MethodsTrace(tests, n, inj), h) == Scaled(|tests|, m)
    decreases |tests|
  {
    if tests != [] {
      var init, last := tests[..|tests| - 1], tests[|tests| - 1];
      assert Count(MethodsTrace(tests, n, inj), h)
          == Count(MethodsTrace(init, n, inj), h) + Count(MethodTrace(last, n, inj), h) by {
        MethodsCountStep(tests, n, inj, h);
      }
      assert Count(MethodsTrace(init, n, inj), h) == Scaled(|init|, m) by {
        EachMethodCount(init, n, inj, h, m);
      }
      assert Scaled(|tests|, m) == Scaled(|init|, m) + m;
    }
  }




  /** The count over several methods adds the count over the last one to that over the others. */
  lemma {:induction false} MethodsCountStep(tests: seq<string>, n: nat, inj: Injected, h: Hook)
    requires tests != []
    ensures Count(MethodsTrace(tests, n, inj), h)
      == Count(MethodsTrace(tests[..|tests| - 1], n, inj), h) + Count(MethodTrace(tests[|tests| - 1], n, inj), h)
  {
    CountConcat(MethodsTrace(tests[..|tests| - 1], n, inj), MethodTrace(tests[|tests| - 1], n, inj), h);
  }


  /**
   * Hook counts of a run of `tests` with `n` iterations: nothing fires without tests;
   * otherwise the class hooks once, the method hooks once per method and the per-call hooks
   * `n` times per method, injected ones only when given.
   */
  lemma {:induction false} RunCount(tests: seq<string>, n: nat, inj: Injected, h: Hook)
    ensures Count(RunTrace(tests, n, inj), h) ==
      if tests == [] then 0 else PerRun(h) + |tests| * (PerMethod(h, inj) + n * PerIteration(h, inj))
  {
    if tests != [] {
      var methods := MethodsTrace(tests, n, inj);
      assert Count(RunTrace(tests, n, inj), h) == Count([BeforeClass], h) + Count(methods, h) + Count([AfterClass], h) by {
        CountConcat([BeforeClass], methods, h);
        CountConcat([BeforeClass] + methods, [AfterClass], h);
      }
      assert Count([BeforeClass], h) + Count([AfterClass], h) == PerRun(h) by {
        CountOne(BeforeClass, h);
        CountOne(AfterClass, h);
      }
      assert Count(methods, h) == |tests| * (PerMethod(h, inj) + n * PerIteration(h, inj)) by {
        MethodsCount(tests, n, inj, h);
      }
    }
  }


  /**
   * The counts of the hook tests: two collected methods at five iterations with every hook
   * given fire each class hook once, each method hook twice and each per-call hook ten
   * times, own and injected alike.
   */
  lemma {:induction false} TwoMethodsFiveTimes(tests: seq<string>, h: Hook)
    requires |tests| == 2
    ensures Count(RunTrace(tests, 5, Injected(true, true, true, true)), h) ==
      if h in {BeforeClassHook, AfterClassHook} then 1
      else if h in {BeforeHook, AfterHook, InjectedBeforeHook, InjectedAfterHook} then 2
      else 10
  {
    RunCount(tests, 5, Injected(true, true, true, true), h);
  }

  /** Without injected hooks, none of them fires. */
  lemma {:induction false} NothingInjected(tests: seq<string>, n: nat, h: Hook)
    requires h in {InjectedBeforeHook, InjectedBeforeEachHook, InjectedAfterEachHook, InjectedAfterHook}
    ensures Count(RunTrace(tests, n, Injected(false, false, false, false)), h) == 0
  {
    RunCount(tests, n, Injected(false, false, false, false), h);
  }

  // ---------------------------------------------------------------------------
  // The shape of the results
  // ---------------------------------------------------------------------------

  /** An element of a non-empty sequence is its last one or one of those before it. */
  lemma InFront<T>(s: seq<T>, x: T)
    requires s != []
    ensures x in s <==> x in s[..|s| - 1] || x == s[|s| - 1]
  {
    if x in s && x != s[|s| - 1] {
      var i :| 0 <= i < |s| && s[i] == x;
      assert s[..|s| - 1][i] == x;
    }
  }

  /** After a run, every run method holds its new results and every other entry is untouched. */
  lemma {:induction false} ResultsAfterGet(d: Dict<string, seq<RunResult>>, tests: seq<string>, n: nat,
                                           observe: (string, nat) -> Observation, t: string)
    ensures Get(ResultsAfter(d, tests, n, observe), t) ==
      if t in tests then Some(Measurements(t, n, observe)) else Get(d, t)
    decreases |tests|
  {
    if tests != [] {
      var init, last := tests[..|tests| - 1], tests[|tests| - 1];
      var before := ResultsAfter(d, init, n, observe);
      var after := Put(before, last, Measurements(last, n, observe));
      assert ResultsAfter(d, tests, n, observe) == after;
      if t == last {
        assert t in tests;
      } else {
        InFront(tests, t);
        assert Get(after, t) == Get(before, t);
        ResultsAfterGet(d, init, n, observe, t);
      }
    }
  }



  /** Running methods without repeats from empty results gives one key per method, in run order. */
  lemma {:induction false} ResultsAfterKeys(tests: seq<string>, n: nat, observe: (string, nat) -> Observation)
    requires Distinct(tests)
    ensures Keys(ResultsAfter([], tests, n, observe)) == tests
    decreases |tests|
  {
    if tests != [] {
      var init := tests[..|tests| - 1];
      assert Distinct(init);
      var last := tests[|tests| - 1];
      ResultsAfterKeys(init, n, observe);
      assert last !in init by {
        forall j | 0 <= j < |init| ensures init[j] != last {
          assert tests[j] == init[j];
        }
      }
      var r := ResultsAfter([], init, n, observe);
      assert Keys(Put(r, last, Measurements(last, n, observe))) == init + [last];
      assert init + [last] == tests;
    }
  }

  /**
   * A first run of a suite whose attribute names are distinct leaves one entry per collected
   * method, in collection order, each holding one successful result per iteration, the
   * `i`-th being iteration `i`'s.
   */
  lemma {:induction false} FirstRunResults(members: seq<string>, prefix: string, n: nat,
                                           observe: (string, nat) -> Observation)
    requires Distinct(members)
    ensures Keys(ResultsAfter([], Collect(members, prefix), n, observe)) == Collect(members, prefix)
    ensures forall t :: t in Collect(members, prefix) ==>
      var entry := Get(ResultsAfter([], Collect(members, prefix), n, observe), t);
      entry.Some? && |entry.value| == n &&
      forall i :: 0 <= i < n ==> entry.value[i].success && entry.value[i] == Measured(observe(t, i))
  {
    var tests := Collect(members, prefix);
    CollectDistinct(members, prefix);
    ResultsAfterKeys(tests, n, observe);
    forall t | t in tests
      ensures Get(ResultsAfter([], tests, n, observe), t) == Some(Measurements(t, n, observe))
    {
      ResultsAfterGet([], tests, n, observe, t);
    }
  }

  // ---------------------------------------------------------------------------
  // The suite instance
  // ---------------------------------------------------------------------------

  class Benchmark {
    /** The class the instance belongs to. */
    const suite: SuiteClass
    /** `self.times`. */
    const times: int
    /** `self._prefix`. */
    const prefix: string
    /** Which of `_before`, `_before_each`, `_after`, `_after_each` are real hooks. */
    const injected: Injected
    /** `self.results`: the results of each method, by name. */
    var results: Dict<string, seq<RunResult>>
    /** Every hook and method call made on this instance so far, in order. */
    var trace: seq<Event>

    /** `Benchmark.__init__`: extra keyword arguments are accepted and ignored. */
    constructor (suite: SuiteClass, times: Option<int>, prefix: string, injected: Injected)
      ensures this.suite == suite && this.times == ChooseTimes(times, suite.times)
      ensures this.prefix == prefix && this.injected == injected
      ensures results == [] && trace == []
    {
      this.suite := suite;
      this.times := ChooseTimes(times, suite.times);
      this.results := [];
      this.prefix := prefix;
      this.injected := injected;
      this.trace := [];
    }

    /** `label`: the docstring's first line, or the humanized class name. */
    function Label(): (text: string)
      ensures suite.doc.Some? && !AllSpace(suite.doc.value) ==>
        text != [] && StartsWith(Strip(suite.doc.value), text) && forall i :: 0 <= i < |text| ==> !IsLineBreak(text[i])
      ensures suite.doc.None? || AllSpace(suite.doc.value) ==> text == Humanized(suite.name)
    {
      var fromDoc := DocLabel(suite.doc);
      if fromDoc.Some? then fromDoc.value else Humanized(suite.name)
    }

    /** `label_for(name)`: the method docstring's first line, or its name without the prefix, humanized. */
    function LabelFor(name: string): (text: string)
      ensures var doc := MethodDoc(suite, name);
        doc.Some? && !AllSpace(doc.value) ==>
          text != [] && StartsWith(Strip(doc.value), text) && forall i :: 0 <= i < |text| ==> !IsLineBreak(text[i])
      ensures var doc := MethodDoc(suite, name);
        doc.None? || AllSpace(doc.value) ==> text == Humanized(RemoveAll(name, prefix))
    {
      var fromDoc := DocLabel(MethodDoc(suite, name));
      if fromDoc.Some? then fromDoc.value else Humanized(RemoveAll(name, prefix))
    }

    /** A suite without a usable docstring is labelled by its humanized class name, without `_`. */
    lemma LabelWithoutDoc()
      requires suite.doc.None? || AllSpace(suite.doc.value)
      ensures Label() == Humanized(suite.name) && '_' !in Label()
    {
      NoUnderscore(suite.name);
    }

    /**
     * A method without a usable docstring, named the prefix followed by a name in which the
     * prefix does not occur, is labelled by that name humanized.
     */
    lemma LabelForPrefixed(rest: string)
      requires prefix != [] && !Contains(rest, prefix)
      requires DocLabel(MethodDoc(suite, prefix + rest)).None?
      ensures LabelFor(prefix + rest) == Humanized(rest)
    {
      RemoveAllLeading(prefix, rest);
      RemoveAllAbsent(rest, prefix);
    }

    /** A suite class `Test` without a docstring is labelled `Test`. */
    lemma DefaultLabel()
      requires suite.name == "Test" && suite.doc.None?
      ensures Label() == "Test"
    {
      LabelWithoutDoc();
      HumanizeTest();
    }

    /** A suite with the two-line docstring is labelled with its first line. */
    lemma DocstringLabel()
      requires suite.doc == Some(TwoLineDoc(ClassDocIndent))
      ensures Label() == "A simple test benchmark."
    {
      TestIndents();
      TwoLineDocLabel(ClassDocIndent);
    }

    /** With the default prefix, an undocumented `bench_something` is labelled `Something`. */
    lemma DefaultLabelFor()
      requires prefix == DefaultPrefix && "bench_something" !in suite.methodDocs
      ensures LabelFor("bench_something") == "Something"
    {
      BenchSomethingPieces();
      MissingCharNotContained("something", DefaultPrefix, 'b');
      LabelForPrefixed("something");
      HumanizeLowerWord("something");
    }

    /** A method with the two-line docstring is labelled with its first line. */
    lemma DocstringLabelFor(name: string)
      requires name in suite.methodDocs && suite.methodDocs[name] == TwoLineDoc(MethodDocIndent)
      ensures LabelFor(name) == "A simple test benchmark."
    {
      TestIndents();
      TwoLineDocLabel(MethodDocIndent);
    }

    /** `_collect()`. */
    function Tests(): (tests: seq<string>)
      ensures forall t :: t in tests <==> t in suite.members && StartsWith(t, prefix)
    {
      CollectMembers(suite.members, prefix);
      Collect(suite.members, prefix)
    }

    /**
     * `_run_one`: the own `before_each`, the timed call, the own `after_each`; the result is
     * the observed duration and value with `success` set.
     */
    method RunOne(test: string, i: nat, observe: (string, nat) -> Observation) returns (r: RunResult)
      modifies this
      ensures trace == old(trace) + [BeforeEach, Call(test), AfterEach]
      ensures results == old(results)
      ensures r == Measured(observe(test, i))
    {
      trace := trace + [BeforeEach];
      var o := observe(test, i);
      trace := trace + [Call(test)];
      r := RunResult(o.duration, true, o.value);
      trace := trace + [AfterEach];
    }

    /**
     * The body of `run`'s loop over the collected methods, for method `test` and `n`
     * iterations: its list in `results` is reset, then filled with one result per iteration
     * between the method hooks; every append is visible in `results` at once, since the
     * local list and the dict entry are the same object.
     */
    method RunTest(test: string, n: nat, observe: (string, nat) -> Observation)
      modifies this
      ensures trace == old(trace) + MethodTrace(test, n, injected)
      ensures results == Put(old(results), test, Measurements(test, n, observe))
    {
      var rs: seq<RunResult> := [];
      results := Put(results, test, rs);
      trace := trace + IfInjected(injected.before, InjectedBefore(test));
      trace := trace + [Before];
      ghost var started := trace;
      for i := 0 to n
        invariant rs == Measurements(test, i, observe)
        invariant results == Put(old(results), test, rs)
        invariant trace == started + IterationsTrace(test, i, injected)
      {
        ghost var previous := trace;
        trace := trace + IfInjected(injected.beforeEach, InjectedBeforeEach(test, i));
        var r := RunOne(test, i, observe);
        rs := rs + [r];
        PutPut(old(results), test, rs[..i], rs);
        results := Put(results, test, rs);
        trace := trace + IfInjected(injected.afterEach, InjectedAfterEach(test, i));
        Regroup3(previous, IfInjected(injected.beforeEach, InjectedBeforeEach(test, i)),
          [BeforeEach, Call(test), AfterEach], IfInjected(injected.afterEach, InjectedAfterEach(test, i)));
        Regroup1(started, IterationsTrace(test, i, injected), IterationTrace(test, i, injected));
      }
      trace := trace + [After];
      trace := trace + IfInjected(injected.after, InjectedAfter(test));
      Regroup5(old(trace), IfInjected(injected.before, InjectedBefore(test)), [Before],
        IterationsTrace(test, n, injected), [After], IfInjected(injected.after, InjectedAfter(test)));
    }

    /**
     * `run`: nothing happens when no method is collected. Otherwise `before_class`, then for
     * each method its list in `results` is reset and filled with one result per iteration
     * between the method hooks, then `after_class`.
     */
    method Run(observe: (string, nat) -> Observation)
      modifies this
      ensures trace == old(trace) + RunTrace(Tests(), Iterations(times), injected)
      ensures results == ResultsAfter(old(results), Tests(), Iterations(times), observe)
      ensures Tests() == [] ==> trace == old(trace) && results == old(results)
    {
      var tests := Tests();
      if tests == [] {
        return;
      }
      trace := trace + [BeforeClass];
      var n := Iterations(times);
      for k := 0 to |tests|
        invariant trace == old(trace) + [BeforeClass] + MethodsTrace(tests[..k], n, injected)
        invariant results == ResultsAfter(old(results), tests[..k], n, observe)
      {
        RunTest(tests[k], n, observe);
        RunStep(old(results), tests, k, n, injected, observe);
        Regroup1(old(trace) + [BeforeClass], MethodsTrace(tests[..k], n, injected), MethodTrace(tests[k], n, injected));
      }
      assert tests[..|tests|] == tests;
      trace := trace + [AfterClass];
      Regroup3(old(trace), [BeforeClass], MethodsTrace(tests, n, injected), [AfterClass]);
    }
  }
}
