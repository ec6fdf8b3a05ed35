/**
 * `minibench/runner.py`: the `BenchmarkRunner`. It loads the benchmark classes of some
 * modules, keeps the supported reporters, runs every class in discovery order and tells every
 * reporter, in list order, what is happening.
 *
 * A Python module is given as the members `dir()` lists, in that order; importing a file is
 * a `load` oracle from a module name and a path to those members. Each reporter call is
 * recorded as a `Delivery` in the runner's `log`: the reporter's position in `reporters` and
 * the `Notice` it received. The callbacks an instance makes during its run
 * (`report_before_method`, `report_after_method`, `report_progress`) are synchronous and
 * write nothing but the log, so they are delivered by walking the instance's trace once its
 * run has returned: the log is the same.
 */
module Runner {
  import opened Wrappers
  import opened PyStr
  import Dicts
  import Bench

  // ---------------------------------------------------------------------------
  // load_module: the module name derived from a path
  // ---------------------------------------------------------------------------

  /** `str.rfind` for one character: the index of the last `c` in `s`, or -1. */
  function RFind(s: string, c: char): (i: int)
    ensures -1 <= i < |s|
    ensures i >= 0 ==> s[i] == c
    decreases |s|
  {
    if |s| == 0 then -1
    else if s[|s| - 1] == c then |s| - 1
    else RFind(s[..|s| - 1], c)
  }

  /** No `c` comes after the index `RFind` returns. */
  lemma {:induction false} RFindIsLast(s: string, c: char)
    ensures forall j :: RFind(s, c) < j < |s| ==> s[j] != c
    decreases |s|
  {
    if s != [] && s[|s| - 1] != c {
      RFindIsLast(s[..|s| - 1], c);
    }
  }

  /** The last `c` of `a + [c] + b`, when `b` has none, is the one after `a`. */
  lemma {:induction false} RFindAfter(a: string, c: char, b: string)
    requires c !in b
    ensures RFind(a + [c] + b, c) == |a|
    decreases |b|
  {
    var s := a + [c] + b;
    if b == [] {
      assert s[|s| - 1] == c;
    } else {
      assert s[|s| - 1] == b[|b| - 1] != c;
      assert s[..|s| - 1] == a + [c] + b[..|b| - 1];
      RFindAfter(a, c, b[..|b| - 1]);
    }
  }

  /** `os.path.basename` (POSIX): what follows the last `/`. */
  function Basename(path: string): (base: string)
    ensures '/' !in base
    ensures |base| <= |path| && path[|path| - |base|..] == base
  {
    var i := RFind(path, '/');
    RFindIsLast(path, '/');
    path[i + 1..]
  }

  predicate AllDots(s: string) {
    forall i :: 0 <= i < |s| ==> s[i] == '.'
  }

  /**
   * `os.path.splitext(base)[0]` for a name without `/`: the part before the last `.`, unless
   * only dots precede it (a leading dot starts a hidden name, not an extension).
   */
  function Root(base: string): (root: string)
    ensures |root| <= |base| && base[..|root|] == root
    ensures root != base ==> base[|root|] == '.' && '.' !in base[|root| + 1..]
    ensures root != base ==> !AllDots(root)
  {
    var d := RFind(base, '.');
    RFindIsLast(base, '.');
    if d >= 0 && !AllDots(base[..d]) then base[..d] else base
  }

  /** The converse: a last dot that follows something other than dots is where the root stops. */
  lemma RootAtLastDot(base: string, i: nat)
    requires i < |base| && base[i] == '.' && '.' !in base[i + 1..] && !AllDots(base[..i])
    ensures Root(base) == base[..i]
  {
    RFindIsLast(base, '.');
  }

  const ModulePrefix: string := "benchmarks."
  const BenchSuffix: string := ".bench"

  /** The name `load_module` gives a file: `benchmarks.` and its root with every `.bench` removed. */
  function ModuleName(path: string): (name: string)
    ensures StartsWith(name, ModulePrefix)
    ensures |name| <= |ModulePrefix| + |path|
  {
    ModulePrefix + RemoveAll(Root(Basename(path)), BenchSuffix)
  }

  /** A name followed by the pattern loses the pattern when the name lacks its first character. */
  lemma {:induction false} RemoveAllTrailing(name: string, pat: string)
    requires pat != [] && pat[0] !in name
    ensures RemoveAll(name + pat, pat) == name
    decreases |name|
  {
    var s := name + pat;
    if name == [] {
      assert s == pat + [];
      RemoveAllLeading(pat, []);
    } else {
      assert s[..|pat|][0] == name[0] != pat[0];
      assert s[1..] == name[1..] + pat;
      RemoveAllTrailing(name[1..], pat);
      assert [name[0]] + name[1..] == name;
    }
  }

  lemma BenchFilePieces()
    ensures ".py" == ['.'] + "py" && ".bench.py" == BenchSuffix + ".py"
    ensures '.' !in "py" && '/' !in BenchSuffix + ".py" && BenchSuffix[0] == '.'
  {
  }

  /** The base name of `<dir>/<name>.bench.py`, for a name without `/`, is `<name>.bench.py`. */
  lemma BenchBasename(dir: string, name: string)
    requires '/' !in name
    ensures Basename(dir + "/" + name + ".bench.py") == name + BenchSuffix + ".py"
  {
    var file := name + BenchSuffix + ".py";
    BenchFilePieces();
    assert '/' !in file by {
      assert forall i :: 0 <= i < |file| ==> file[i] == if i < |name| then name[i] else (BenchSuffix + ".py")[i - |name|];
    }
    assert dir + "/" + name + ".bench.py" == dir + ['/'] + file;
    RFindAfter(dir, '/', file);
  }

  /** The root of `<name>.bench.py`, for a name that does not start with `.`, is `<name>.bench`. */
  lemma BenchRoot(name: string)
    requires name != [] && name[0] != '.'
    ensures Root(name + BenchSuffix + ".py") == name + BenchSuffix
  {
    BenchFilePieces();
    assert name + BenchSuffix + ".py" == (name + BenchSuffix) + ['.'] + "py";
    RFindAfter(name + BenchSuffix, '.', "py");
    assert (name + BenchSuffix)[0] == name[0];
  }

  /**
   * A file `<dir>/<name>.bench.py`, for a plain name (no `.`, no `/`), is loaded as the
   * module `benchmarks.<name>`.
   */
  lemma BenchFileName(dir: string, name: string)
    requires name != [] && '.' !in name && '/' !in name
    ensures ModuleName(dir + "/" + name + ".bench.py") == ModulePrefix + name
  {
    BenchBasename(dir, name);
    BenchRoot(name);
    BenchFilePieces();
    RemoveAllTrailing(name, BenchSuffix);
  }

  /** `test_load_module`: `sort.bench.py` is loaded as `benchmarks.sort` (`ModulePrefix` is `benchmarks.`). */
  lemma SortBenchName(dir: string)
    ensures ModuleName(dir + "/sort.bench.py") == ModulePrefix + "sort"
  {
    var name := "sort";
    assert '.' !in name && '/' !in name;
    assert "/sort.bench.py" == "/" + name + ".bench.py";
    assert dir + "/sort.bench.py" == dir + "/" + name + ".bench.py";
    BenchFileName(dir, name);
  }

  // ---------------------------------------------------------------------------
  // load_from_module
  // ---------------------------------------------------------------------------

  /** What `dir(module)` lists: a `Benchmark` subclass, `Benchmark` itself, or anything else. */
  datatype Member = SuiteMember(suite: Bench.SuiteClass) | BenchmarkBase | OtherMember

  /** A module, or its loaded counterpart: its `__name__` and its members in `dir()` order. */
  datatype Module = Module(name: string, members: seq<Member>)

  /** An argument of the runner: a path, or anything else (a module already loaded). */
  datatype ModuleArg = Path(path: string) | Loaded(given: Module)

  /** `load_module`: anything but a string is returned as it is; a path is imported. */
  function LoadModule(arg: ModuleArg, load: (string, string) -> seq<Member>): (m: Module)
    ensures arg.Loaded? ==> m == arg.given
    ensures arg.Path? ==> m.name == ModuleName(arg.path) && m.members == load(m.name, arg.path)
  {
    match arg
    case Loaded(given) => given
    case Path(path) => Module(ModuleName(path), load(ModuleName(path), path))
  }

  /** The `Benchmark` subclasses among the members, in `dir()` order. */
  function SuitesOf(members: seq<Member>): (suites: seq<Bench.SuiteClass>)
    ensures |suites| <= |members|
    decreases |members|
  {
    if |members| == 0 then []
    else
      var last := members[|members| - 1];
      SuitesOf(members[..|members| - 1]) + (if last.SuiteMember? then [last.suite] else [])
  }

  /** Exactly the `Benchmark` subclasses are kept: `Benchmark` itself and everything else are not. */
  lemma {:induction false} SuitesOfExactly(members: seq<Member>, s: Bench.SuiteClass)
    ensures s in SuitesOf(members) <==> SuiteMember(s) in members
    decreases |members|
  {
    if members != [] {
      var init := members[..|members| - 1];
      Bench.InFront(members, SuiteMember(s));
      SuitesOfExactly(init, s);
    }
  }

  /** Members listed one after the other give their classes one after the other. */
  lemma {:induction false} SuitesOfConcat(a: seq<Member>, b: seq<Member>)
    ensures SuitesOf(a + b) == SuitesOf(a) + SuitesOf(b)
    decreases |b|
  {
    if b == [] {
      assert a + b == a;
    } else {
      assert (a + b)[..|a + b| - 1] == a + b[..|b| - 1];
      SuitesOfConcat(a, b[..|b| - 1]);
    }
  }

  /** One member gives its class when it is a `Benchmark` subclass, and nothing otherwise. */
  lemma SuitesOfOne(m: Member)
    ensures SuitesOf([m]) == if m.SuiteMember? then [m.suite] else []
  {
    assert [m][..0] == [];
  }

  /** `test_should_load_benches_from_modules`: two subclasses beside `Benchmark` give two classes. */
  lemma TwoSuitesLoaded(a: Bench.SuiteClass, b: Bench.SuiteClass, before: Member, after: Member)
    requires !before.SuiteMember? && !after.SuiteMember?
    ensures SuitesOf([before, BenchmarkBase, SuiteMember(a), SuiteMember(b), after]) == [a, b]
  {
    var m1, m2, m3 := [before], [before, BenchmarkBase], [before, BenchmarkBase, SuiteMember(a)];
    var m4 := [before, BenchmarkBase, SuiteMember(a), SuiteMember(b)];
    assert m2 == m1 + [BenchmarkBase] && m3 == m2 + [SuiteMember(a)] && m4 == m3 + [SuiteMember(b)];
    assert [before, BenchmarkBase, SuiteMember(a), SuiteMember(b), after] == m4 + [after];
    SuitesOfOne(before);
    SuitesOfOne(BenchmarkBase);
    SuitesOfOne(SuiteMember(a));
    SuitesOfOne(SuiteMember(b));
    SuitesOfOne(after);
    SuitesOfConcat(m1, [BenchmarkBase]);
    SuitesOfConcat(m2, [SuiteMember(a)]);
    SuitesOfConcat(m3, [SuiteMember(b)]);
    SuitesOfConcat(m4, [after]);
  }

  /** The classes of every argument, one argument after the other. */
  function LoadedSuites(args: seq<ModuleArg>, load: (string, string) -> seq<Member>): seq<Bench.SuiteClass>
    decreases |args|
  {
    if |args| == 0 then []
    else LoadedSuites(args[..|args| - 1], load) + SuitesOf(LoadModule(args[|args| - 1], load).members)
  }

  /** A loaded class comes from the module of some argument. */
  lemma {:induction false} LoadedSuiteFrom(args: seq<ModuleArg>, load: (string, string) -> seq<Member>,
                                            s: Bench.SuiteClass)
    requires s in LoadedSuites(args, load)
    ensures exists i :: 0 <= i < |args| && SuiteMember(s) in LoadModule(args[i], load).members
    decreases |args|
  {
    var m := |args| - 1;
    var init := args[..m];
    var here := LoadModule(args[m], load).members;
    if s in LoadedSuites(init, load) {
      LoadedSuiteFrom(init, load, s);
      var i :| 0 <= i < |init| && SuiteMember(s) in LoadModule(init[i], load).members;
      assert args[i] == init[i];
    } else {
      SuitesOfExactly(here, s);
    }
  }

  /** A class some argument's module lists is loaded. */
  lemma {:induction false} LoadedSuiteTo(args: seq<ModuleArg>, load: (string, string) -> seq<Member>,
                                          s: Bench.SuiteClass, i: nat)
    requires i < |args| && SuiteMember(s) in LoadModule(args[i], load).members
    ensures s in LoadedSuites(args, load)
    decreases |args|
  {
    var m := |args| - 1;
    var init := args[..m];
    if i < m {
      assert init[i] == args[i];
      LoadedSuiteTo(init, load, s, i);
    } else {
      SuitesOfExactly(LoadModule(args[m], load).members, s);
    }
  }

  /** A class is loaded exactly when one of the arguments' modules lists it. */
  lemma LoadedSuitesExactly(args: seq<ModuleArg>, load: (string, string) -> seq<Member>, s: Bench.SuiteClass)
    ensures s in LoadedSuites(args, load) <==>
      exists i :: 0 <= i < |args| && SuiteMember(s) in LoadModule(args[i], load).members
  {
    if s in LoadedSuites(args, load) {
      LoadedSuiteFrom(args, load, s);
    }
    if exists i :: 0 <= i < |args| && SuiteMember(s) in LoadModule(args[i], load).members {
      var i :| 0 <= i < |args| && SuiteMember(s) in LoadModule(args[i], load).members;
      LoadedSuiteTo(args, load, s, i);
    }
  }

  // ---------------------------------------------------------------------------
  // Reporters
  // ---------------------------------------------------------------------------

  /** A reporter the runner keeps: an object given to it, or an instance it made of a class. */
  datatype Reporter = Instance(id: nat) | Created(cls: string)

  /**
   * A `reporters` entry: a `BaseReporter` instance, a class (a `BaseReporter` subclass or
   * not), or any other value. `bare` says whether the class can be called without
   * arguments: `BaseReporter` and `ConsoleReporter` can, the `FileReporter` classes,
   * whose constructor needs `filename`, cannot.
   */
  datatype ReporterArg =
    | ReporterInstance(id: nat)
    | ReporterClass(cls: string, isReporter: bool, bare: bool)
    | Unsupported

  /** Calling this entry's reporter class without arguments raises `TypeError`. */
  predicate Raises(arg: ReporterArg) {
    arg.ReporterClass? && arg.isReporter && !arg.bare
  }

  /** The position of the first entry that raises, or `|args|` when none does. */
  function FirstRaising(args: seq<ReporterArg>): (i: nat)
    ensures i <= |args|
    ensures forall j :: 0 <= j < i ==> !Raises(args[j])
    ensures i < |args| ==> Raises(args[i])
    decreases |args|
  {
    if |args| == 0 || Raises(args[0]) then 0 else 1 + FirstRaising(args[1..])
  }

  /**
   * What one entry contributes: a reporter instance, or a new instance of a reporter class
   * (none for a class that raises, which ends the loop before it is kept).
   */
  function KeptOne(arg: ReporterArg): (kept: seq<Reporter>)
    ensures |kept| <= 1
    ensures Raises(arg) ==> kept == []
  {
    match arg
    case ReporterInstance(id) => [Instance(id)]
    case ReporterClass(cls, isReporter, bare) => if isReporter && bare then [Created(cls)] else []
    case Unsupported => []
  }

  /** The reporters the constructor keeps, in argument order. */
  function Kept(args: seq<ReporterArg>): (kept: seq<Reporter>)
    ensures |kept| <= |args|
    decreases |args|
  {
    if |args| == 0 then [] else Kept(args[..|args| - 1]) + KeptOne(args[|args| - 1])
  }

  /** Kept reporters keep the order of their arguments. */
  lemma {:induction false} KeptConcat(a: seq<ReporterArg>, b: seq<ReporterArg>)
    ensures Kept(a + b) == Kept(a) + Kept(b)
    decreases |b|
  {
    if b == [] {
      assert a + b == a;
    } else {
      assert (a + b)[..|a + b| - 1] == a + b[..|b| - 1];
      KeptConcat(a, b[..|b| - 1]);
    }
  }

  /**
   * A reporter is kept exactly when it was given as an instance or its class is a reporter
   * class that can be called without arguments; nothing else is kept.
   */
  lemma {:induction false} KeptExactly(args: seq<ReporterArg>, r: Reporter)
    ensures r in Kept(args) <==>
      (r.Instance? && ReporterInstance(r.id) in args) || (r.Created? && ReporterClass(r.cls, true, true) in args)
    decreases |args|
  {
    if args != [] {
      var init := args[..|args| - 1];
      KeptExactly(init, r);
      if r.Instance? {
        Bench.InFront(args, ReporterInstance(r.id));
      } else {
        Bench.InFront(args, ReporterClass(r.cls, true, true));
      }
    }
  }

  /**
   * `test_hook_reporter` and `test_unsupported_reporter_is_ignored`; a `FileReporter` class
   * given after a reporter instance stops the loop there.
   */
  lemma KeptExamples(id: nat, cls: string)
    ensures Kept([ReporterInstance(id)]) == [Instance(id)]
    ensures Kept([ReporterClass(cls, false, true)]) == []
    ensures Kept([ReporterClass(cls, true, true), Unsupported]) == [Created(cls)]
    ensures FirstRaising([ReporterInstance(id), ReporterClass(cls, true, false), Unsupported]) == 1
  {
    assert [ReporterInstance(id)][..0] == [];
    assert [ReporterClass(cls, false, true)][..0] == [];
    assert [ReporterClass(cls, true, true), Unsupported][..1] == [ReporterClass(cls, true, true)];
    assert [ReporterClass(cls, true, true)][..0] == [];
    assert [ReporterInstance(id), ReporterClass(cls, true, false), Unsupported][1..]
      == [ReporterClass(cls, true, false), Unsupported];
  }

  // ---------------------------------------------------------------------------
  // Notices and their broadcast
  // ---------------------------------------------------------------------------

  /**
   * A reporter call. `bench` is the position of the instance in `runned`, which it reaches
   * once its run is over; `times` is the iteration `report_progress` passes on.
   */
  datatype Notice =
    | Init
    | Start
    | BeforeClass(bench: nat)
    | AfterClass(bench: nat)
    | BeforeMethod(bench: nat, test: string)
    | AfterMethod(bench: nat, test: string)
    | Progress(bench: nat, test: string, times: nat)
    | End

  /** `notice` received by the reporter at position `reporter`. */
  datatype Delivery = Delivery(reporter: nat, notice: Notice)

  /** One `report_*` call with `n` reporters: each of them gets the notice once, in list order. */
  function Broadcast(n: nat, notice: Notice): (ds: seq<Delivery>)
    ensures |ds| == n
  {
    if n == 0 then [] else Broadcast(n - 1, notice) + [Delivery(n - 1, notice)]
  }

  /** A broadcast calls the reporters one by one, from the first to the last. */
  lemma {:induction false} BroadcastInOrder(n: nat, notice: Notice)
    ensures forall r :: 0 <= r < n ==> Broadcast(n, notice)[r] == Delivery(r, notice)
  {
    if n > 0 {
      BroadcastInOrder(n - 1, notice);
      assert forall r :: 0 <= r < n - 1 ==> Broadcast(n, notice)[r] == Broadcast(n - 1, notice)[r];
    }
  }

  /** The broadcasts of `notices`, one after the other. */
  function Deliveries(n: nat, notices: seq<Notice>): seq<Delivery>
    decreases |notices|
  {
    if |notices| == 0 then []
    else Deliveries(n, notices[..|notices| - 1]) + Broadcast(n, notices[|notices| - 1])
  }

  /** What the reporter at position `r` received, in order. */
  function Received(log: seq<Delivery>, r: nat): seq<Notice>
    decreases |log|
  {
    if |log| == 0 then []
    else
      var last := log[|log| - 1];
      Received(log[..|log| - 1], r) + (if last.reporter == r then [last.notice] else [])
  }

  lemma {:induction false} DeliveriesConcat(n: nat, a: seq<Notice>, b: seq<Notice>)
    ensures Deliveries(n, a + b) == Deliveries(n, a) + Deliveries(n, b)
    decreases |b|
  {
    if b == [] {
      assert a + b == a;
    } else {
      assert (a + b)[..|a + b| - 1] == a + b[..|b| - 1];
      DeliveriesConcat(n, a, b[..|b| - 1]);
    }
  }

  lemma DeliveriesOne(n: nat, notice: Notice)
    ensures Deliveries(n, [notice]) == Broadcast(n, notice)
  {
    assert [notice][..0] == [];
  }

  lemma {:induction false} ReceivedConcat(a: seq<Delivery>, b: seq<Delivery>, r: nat)
    ensures Received(a + b, r) == Received(a, r) + Received(b, r)
    decreases |b|
  {
    if b == [] {
      assert a + b == a;
    } else {
      assert (a + b)[..|a + b| - 1] == a + b[..|b| - 1];
      ReceivedConcat(a, b[..|b| - 1], r);
    }
  }

  /** One broadcast reaches each of the `n` reporters exactly once, and no one else. */
  lemma {:induction false} ReceivedBroadcast(n: nat, notice: Notice, r: nat)
    ensures Received(Broadcast(n, notice), r) == if r < n then [notice] else []
    decreases n
  {
    if n > 0 {
      var ds := Broadcast(n, notice);
      var init := Broadcast(n - 1, notice);
      assert ds[..n - 1] == init && ds[n - 1] == Delivery(n - 1, notice);
      calc {
        Received(ds, r);
        Received(init, r) + (if r == n - 1 then [notice] else []);
        { ReceivedBroadcast(n - 1, notice, r); }
        (if r < n - 1 then [notice] else []) + (if r == n - 1 then [notice] else []);
      }
    }
  }

  /**
   * Every one of the `n` reporters receives every notice, in the order they were broadcast;
   * nothing reaches a position past the list.
   */
  lemma {:induction false} ReceivedDeliveries(n: nat, notices: seq<Notice>, r: nat)
    ensures Received(Deliveries(n, notices), r) == if r < n then notices else []
    decreases |notices|
  {
    if notices != [] {
      var init := notices[..|notices| - 1];
      var last := notices[|notices| - 1];
      var a, b := Deliveries(n, init), Broadcast(n, last);
      calc {
        Received(Deliveries(n, notices), r);
        Received(a + b, r);
        { ReceivedConcat(a, b, r); }
        Received(a, r) + Received(b, r);
        { ReceivedDeliveries(n, init, r); ReceivedBroadcast(n, last, r); }
        (if r < n then init else []) + (if r < n then [last] else []);
        { assert init + [last] == notices; }
        if r < n then notices else [];
      }
    }
  }

  // ---------------------------------------------------------------------------
  // What a run broadcasts
  // ---------------------------------------------------------------------------

  /**
   * The keyword arguments of `run`, passed on to every instance: `times` and `prefix` when
   * given, whether a (truthy) `before_each` hook is given, and the names of all the others,
   * which the instances ignore unless the runner passes them itself.
   */
  datatype RunOptions = RunOptions(times: Option<int>, prefix: Option<string>, beforeEach: bool, others: set<string>)

  /** The keywords the runner passes to every instance on its own account. */
  const RunnerKeywords: set<string> := {"before", "after", "after_each", "debug"}

  /** `run` was given a keyword the runner passes itself: building an instance raises `TypeError`. */
  predicate Clashes(options: RunOptions) {
    options.others * RunnerKeywords != {}
  }

  /**
   * The hooks an instance gets: `before` is `report_before_method`, `after` is
   * `report_after_method`, `after_each` is `report_progress`; `before_each` only when `run`
   * was given one.
   */
  function HooksOf(options: RunOptions): (inj: Bench.Injected)
    ensures inj.before && inj.after && inj.afterEach
    ensures inj.beforeEach <==> options.beforeEach
  {
    Bench.Injected(true, options.beforeEach, true, true)
  }

  function PrefixOf(options: RunOptions): string {
    if options.prefix.Some? then options.prefix.value else Bench.DefaultPrefix
  }

  /** The callback a hook event of an instance at position `k` turns into. */
  function CallbackNotices(k: nat, e: Bench.Event): seq<Notice> {
    if e.InjectedBefore? then [BeforeMethod(k, e.test)]
    else if e.InjectedAfter? then [AfterMethod(k, e.test)]
    else if e.InjectedAfterEach? then [Progress(k, e.test, e.i)]
    else []
  }

  /** The callbacks an instance at position `k` makes along its trace. */
  function Callbacks(k: nat, trace: seq<Bench.Event>): seq<Notice>
    decreases |trace|
  {
    if |trace| == 0 then []
    else Callbacks(k, trace[..|trace| - 1]) + CallbackNotices(k, trace[|trace| - 1])
  }

  /** The trace of a run of an instance of `suite` built with the runner's hooks and `options`. */
  function SuiteTrace(suite: Bench.SuiteClass, options: RunOptions): seq<Bench.Event> {
    Bench.RunTrace(Bench.Collect(suite.members, PrefixOf(options)),
                   Bench.Iterations(Bench.ChooseTimes(options.times, suite.times)), HooksOf(options))
  }

  /** What one class contributes to a run, its instance ending up at position `k` with `trace`. */
  function ClassNotices(k: nat, trace: seq<Bench.Event>): seq<Notice> {
    [BeforeClass(k)] + Callbacks(k, trace) + [AfterClass(k)]
  }

  /** The trace of the run of each class's instance, in discovery order. */
  function SuiteTraces(suites: seq<Bench.SuiteClass>, options: RunOptions): (traces: seq<seq<Bench.Event>>)
    ensures |traces| == |suites|
    decreases |suites|
  {
    if |suites| == 0 then []
    else SuiteTraces(suites[..|suites| - 1], options) + [SuiteTrace(suites[|suites| - 1], options)]
  }

  lemma SuiteTracesStep(suites: seq<Bench.SuiteClass>, options: RunOptions, k: nat)
    requires k < |suites|
    ensures SuiteTraces(suites[..k + 1], options) == SuiteTraces(suites[..k], options) + [SuiteTrace(suites[k], options)]
  {
    assert suites[..k + 1][..k] == suites[..k];
  }

  /** The notices of the instances with `traces`, one after the other, at positions from `first` on. */
  function RunNotices(first: nat, traces: seq<seq<Bench.Event>>): seq<Notice>
    decreases |traces|
  {
    if |traces| == 0 then []
    else
      var k := |traces| - 1;
      RunNotices(first, traces[..k]) + ClassNotices(first + k, traces[k])
  }

  /** Everything a run broadcasts to `n` reporters: `start`, the classes in order, `end`. */
  function RunLog(n: nat, first: nat, suites: seq<Bench.SuiteClass>, options: RunOptions): seq<Delivery> {
    Deliveries(n, [Start] + RunNotices(first, SuiteTraces(suites, options)) + [End])
  }

  /** An instance `run` built for `suite`: the class, its iteration count and prefix, and the runner's hooks. */
  predicate Built(b: Bench.Benchmark, suite: Bench.SuiteClass, options: RunOptions) {
    && b.suite == suite
    && b.times == Bench.ChooseTimes(options.times, suite.times)
    && b.prefix == PrefixOf(options)
    && b.injected == HooksOf(options)
  }

  /**
   * Each reporter receives `start` first and `end` last and, in between, the notices of each
   * class in discovery order.
   */
  lemma RunLogReceived(n: nat, first: nat, suites: seq<Bench.SuiteClass>, options: RunOptions, r: nat)
    requires r < n
    ensures Received(RunLog(n, first, suites, options), r) ==
      [Start] + RunNotices(first, SuiteTraces(suites, options)) + [End]
  {
    ReceivedDeliveries(n, [Start] + RunNotices(first, SuiteTraces(suites, options)) + [End], r);
  }

  // ---------------------------------------------------------------------------
  // Counting notices
  // ---------------------------------------------------------------------------

  /** The reporter method a notice calls. */
  datatype Kind =
    | InitKind | StartKind | BeforeClassKind | AfterClassKind | BeforeMethodKind | AfterMethodKind
    | ProgressKind | EndKind

  function KindOf(notice: Notice): Kind {
    match notice
    case Init => InitKind
    case Start => StartKind
    case BeforeClass(_) => BeforeClassKind
    case AfterClass(_) => AfterClassKind
    case BeforeMethod(_, _) => BeforeMethodKind
    case AfterMethod(_, _) => AfterMethodKind
    case Progress(_, _, _) => ProgressKind
    case End => EndKind
  }

  /** How many calls of kind `kind` the notices hold. */
  function CountOf(notices: seq<Notice>, kind: Kind): nat
    decreases |notices|
  {
    if |notices| == 0 then 0
    else CountOf(notices[..|notices| - 1], kind) + (if KindOf(notices[|notices| - 1]) == kind then 1 else 0)
  }

  lemma {:induction false} CountOfConcat(a: seq<Notice>, b: seq<Notice>, kind: Kind)
    ensures CountOf(a + b, kind) == CountOf(a, kind) + CountOf(b, kind)
    decreases |b|
  {
    if b == [] {
      assert a + b == a;
    } else {
      assert (a + b)[..|a + b| - 1] == a + b[..|b| - 1];
      CountOfConcat(a, b[..|b| - 1], kind);
    }
  }

  lemma CountOfOne(notice: Notice, kind: Kind)
    ensures CountOf([notice], kind) == if KindOf(notice) == kind then 1 else 0
  {
    assert [notice][..0] == [];
  }

  /** The injected hook behind each kind of callback. */
  function CallbackHook(kind: Kind): Option<Bench.Hook> {
    match kind
    case BeforeMethodKind => Some(Bench.InjectedBeforeHook)
    case AfterMethodKind => Some(Bench.InjectedAfterHook)
    case ProgressKind => Some(Bench.InjectedAfterEachHook)
    case _ => None
  }

  lemma CallbackNoticesCount(k: nat, e: Bench.Event, kind: Kind)
    ensures CountOf(CallbackNotices(k, e), kind) ==
      if CallbackHook(kind) == Some(Bench.HookOf(e)) then 1 else 0
  {
    match e
    case InjectedBefore(test) => CountOfOne(BeforeMethod(k, test), kind);
    case InjectedAfter(test) => CountOfOne(AfterMethod(k, test), kind);
    case InjectedAfterEach(test, i) => CountOfOne(Progress(k, test, i), kind);
    case _ =>
  }

  /**
   * An instance calls `before_method`, `after_method` and `progress` once per firing of the
   * injected hook behind it, and no other reporter method.
   */
  lemma {:induction false} CallbacksCount(k: nat, trace: seq<Bench.Event>, kind: Kind)
    ensures CountOf(Callbacks(k, trace), kind) ==
      if CallbackHook(kind).Some? then Bench.Count(trace, CallbackHook(kind).value) else 0
    decreases |trace|
  {
    if trace != [] {
      var init := trace[..|trace| - 1];
      var last := trace[|trace| - 1];
      CallbacksCount(k, init, kind);
      CountOfConcat(Callbacks(k, init), CallbackNotices(k, last), kind);
      CallbackNoticesCount(k, last, kind);
    }
  }

  /** A class calls `before_class` and `after_class` once each, around its callbacks. */
  lemma ClassNoticesCount(k: nat, trace: seq<Bench.Event>, kind: Kind)
    ensures CountOf(ClassNotices(k, trace), kind) ==
      (if kind == BeforeClassKind || kind == AfterClassKind then 1 else 0) + CountOf(Callbacks(k, trace), kind)
  {
    var callbacks := Callbacks(k, trace);
    assert CountOf([BeforeClass(k)] + callbacks, kind) == CountOf([BeforeClass(k)], kind) + CountOf(callbacks, kind) by {
      CountOfConcat([BeforeClass(k)], callbacks, kind);
    }
    assert CountOf(ClassNotices(k, trace), kind) ==
      CountOf([BeforeClass(k)] + callbacks, kind) + CountOf([AfterClass(k)], kind) by {
      CountOfConcat([BeforeClass(k)] + callbacks, [AfterClass(k)], kind);
    }
    CountOfOne(BeforeClass(k), kind);
    CountOfOne(AfterClass(k), kind);
  }

  /**
   * A class whose one collected method runs five times makes one `before_class`, one
   * `before_method`, five `progress`, one `after_method` and one `after_class` call.
   */
  lemma OneMethodFiveTimes(k: nat, suite: Bench.SuiteClass, options: RunOptions, kind: Kind)
    requires |Bench.Collect(suite.members, PrefixOf(options))| == 1
    requires Bench.ChooseTimes(options.times, suite.times) == 5
    ensures CountOf(ClassNotices(k, SuiteTrace(suite, options)), kind) ==
      if kind in {BeforeClassKind, AfterClassKind, BeforeMethodKind, AfterMethodKind} then 1
      else if kind == ProgressKind then 5
      else 0
  {
    var tests := Bench.Collect(suite.members, PrefixOf(options));
    var trace := SuiteTrace(suite, options);
    ClassNoticesCount(k, trace, kind);
    assert CountOf(Callbacks(k, trace), kind) ==
      if CallbackHook(kind).Some? then Bench.Count(trace, CallbackHook(kind).value) else 0 by {
      CallbacksCount(k, trace, kind);
    }
    if CallbackHook(kind).Some? {
      var h := CallbackHook(kind).value;
      assert Bench.Count(trace, h) ==
        Bench.PerRun(h) + 1 * (Bench.PerMethod(h, HooksOf(options)) + 5 * Bench.PerIteration(h, HooksOf(options))) by {
        Bench.RunCount(tests, 5, HooksOf(options), h);
      }
    }
  }

  /** `start` and `end` around some notices add one call each of their own kind. */
  lemma StartEndCount(notices: seq<Notice>, kind: Kind)
    ensures CountOf([Start] + notices + [End], kind) ==
      (if kind == StartKind || kind == EndKind then 1 else 0) + CountOf(notices, kind)
  {
    assert CountOf([Start] + notices, kind) == CountOf([Start], kind) + CountOf(notices, kind) by {
      CountOfConcat([Start], notices, kind);
    }
    assert CountOf([Start] + notices + [End], kind) == CountOf([Start] + notices, kind) + CountOf([End], kind) by {
      CountOfConcat([Start] + notices, [End], kind);
    }
    CountOfOne(Start, kind);
    CountOfOne(End, kind);
  }

  /**
   * `test_hook_reporter`: with one reporter and one class whose one method runs five times,
   * the reporter is called once for `start`, `before_class`, `before_method`, `after_method`,
   * `after_class` and `end`, and five times for `progress`.
   */
  lemma HookReporterCounts(suite: Bench.SuiteClass, options: RunOptions, kind: Kind)
    requires |Bench.Collect(suite.members, PrefixOf(options))| == 1
    requires Bench.ChooseTimes(options.times, suite.times) == 5
    ensures CountOf(Received(RunLog(1, 0, [suite], options), 0), kind) ==
      if kind == InitKind then 0 else if kind == ProgressKind then 5 else 1
  {
    var t := SuiteTrace(suite, options);
    var notices := ClassNotices(0, t);
    assert Received(RunLog(1, 0, [suite], options), 0) == [Start] + notices + [End] by {
      assert SuiteTraces([suite], options) == [t] by {
        assert [suite][..0] == [];
      }
      assert RunNotices(0, [t]) == notices by {
        assert [t][..0] == [];
      }
      RunLogReceived(1, 0, [suite], options, 0);
    }
    StartEndCount(notices, kind);
    OneMethodFiveTimes(0, suite, options, kind);
  }

  // ---------------------------------------------------------------------------
  // The runner
  // ---------------------------------------------------------------------------

  lemma Associative<T>(a: seq<T>, b: seq<T>, c: seq<T>)
    ensures a + b + c == a + (b + c)
  {
  }


  /** One more event of a trace: its callback, if it makes one, is broadcast after the earlier ones. */
  lemma CallbacksStep(n: nat, k: nat, trace: seq<Bench.Event>, i: nat)
    requires i < |trace|
    ensures Deliveries(n, Callbacks(k, trace[..i + 1])) ==
      Deliveries(n, Callbacks(k, trace[..i])) + Deliveries(n, CallbackNotices(k, trace[i]))
  {
    assert trace[..i + 1][..i] == trace[..i];
    DeliveriesConcat(n, Callbacks(k, trace[..i]), CallbackNotices(k, trace[i]));
  }

  /** Notices framed by two single notices reach the reporters as two broadcasts around them. */
  lemma Framed(n: nat, opening: Notice, notices: seq<Notice>, closing: Notice)
    ensures Deliveries(n, [opening] + notices + [closing]) ==
      Broadcast(n, opening) + Deliveries(n, notices) + Broadcast(n, closing)
  {
    assert Deliveries(n, [opening] + notices + [closing]) ==
      Deliveries(n, [opening] + notices) + Broadcast(n, closing) by {
      DeliveriesConcat(n, [opening] + notices, [closing]);
      DeliveriesOne(n, closing);
    }
    assert Deliveries(n, [opening] + notices) == Broadcast(n, opening) + Deliveries(n, notices) by {
      DeliveriesConcat(n, [opening], notices);
      DeliveriesOne(n, opening);
    }
  }

  /** The parts of a concatenation, by position. */
  lemma ConcatParts<T>(a: seq<T>, b: seq<T>)
    ensures (a + b)[..|a|] == a
    ensures forall i :: 0 <= i < |b| ==> (a + b)[|a| + i] == b[i]
  {
  }

  /** The chunks one after the other. */
  function Flat<T>(chunks: seq<seq<T>>): seq<T>
    decreases |chunks|
  {
    if |chunks| == 0 then [] else Flat(chunks[..|chunks| - 1]) + chunks[|chunks| - 1]
  }

  lemma FlatStep<T>(chunks: seq<seq<T>>, c: seq<T>)
    ensures Flat(chunks + [c]) == Flat(chunks) + c
  {
    assert (chunks + [c])[..|chunks|] == chunks;
  }

  /**
   * The `results` the instance of `suite` built with `options` holds after its run, timed by
   * `observe`.
   */
  function SuiteResults(suite: Bench.SuiteClass, options: RunOptions, observe: (string, nat) -> Bench.Observation)
    : Dicts.Dict<string, seq<Bench.RunResult>>
  {
    Bench.ResultsAfter([], Bench.Collect(suite.members, PrefixOf(options)),
                       Bench.Iterations(Bench.ChooseTimes(options.times, suite.times)), observe)
  }

  /**
   * `results` are what the instance of `suite` built with `options` and timed by `observe`
   * holds after its run; said, like `Traced`, of every class equal to `suite`.
   */
  ghost predicate Measured(suite: Bench.SuiteClass, options: RunOptions, observe: (string, nat) -> Bench.Observation,
                           results: Dicts.Dict<string, seq<Bench.RunResult>>) {
    forall s :: s == suite ==> results == SuiteResults(s, options, observe)
  }

  /**
   * `trace` is the trace of the run of an instance of `suite` built with the runner's hooks
   * and `options`. Said of every class equal to `suite`, so that the trace is spelled out
   * only where a proof names it.
   */
  ghost predicate Traced(suite: Bench.SuiteClass, options: RunOptions, trace: seq<Bench.Event>) {
    forall s :: s == suite ==> trace == SuiteTrace(s, options)
  }

  /**
   * `chunk` is what `n` reporters receive around the run, along `trace`, of the instance at
   * position `k`; said, like `Traced`, of every trace equal to `trace`.
   */
  ghost predicate ClassLogged(n: nat, k: nat, trace: seq<Bench.Event>, chunk: seq<Delivery>) {
    forall t :: t == trace ==> chunk == Deliveries(n, ClassNotices(k, t))
  }

  /** What the classes of a run logged, one chunk each, is the classes' part of the run's log. */
  lemma ClassesLogged(n: nat, first: nat, suites: seq<Bench.SuiteClass>, options: RunOptions,
                      traces: seq<seq<Bench.Event>>, chunks: seq<seq<Delivery>>)
    requires |traces| == |suites| == |chunks|
    requires forall j :: 0 <= j < |suites| ==>
      Traced(suites[j], options, traces[j]) && ClassLogged(n, first + j, traces[j], chunks[j])
    ensures Flat(chunks) == Deliveries(n, RunNotices(first, SuiteTraces(suites, options)))
  {
    TracesOf(suites, options, traces);
    ChunksLogged(n, first, traces, chunks);
  }

  /** The traces of the instances, one per class, are the run's traces. */
  lemma {:induction false} TracesOf(suites: seq<Bench.SuiteClass>, options: RunOptions, traces: seq<seq<Bench.Event>>)
    requires |traces| == |suites|
    requires forall j :: 0 <= j < |suites| ==> Traced(suites[j], options, traces[j])
    ensures traces == SuiteTraces(suites, options)
    decreases |suites|
  {
    if |suites| != 0 {
      var m := |suites| - 1;
      assert forall j :: 0 <= j < m ==> suites[..m][j] == suites[j] && traces[..m][j] == traces[j];
      TracesOf(suites[..m], options, traces[..m]);
      assert Traced(suites[m], options, traces[m]);
      TracesLast(suites, options, traces, m);
    }
  }

  /** The chunks the instances logged, one after the other, are what their traces notify. */
  lemma {:induction false} ChunksLogged(n: nat, first: nat, traces: seq<seq<Bench.Event>>, chunks: seq<seq<Delivery>>)
    requires |traces| == |chunks|
    requires forall j :: 0 <= j < |traces| ==> ClassLogged(n, first + j, traces[j], chunks[j])
    ensures Flat(chunks) == Deliveries(n, RunNotices(first, traces))
    decreases |traces|
  {
    if |traces| != 0 {
      var m := |traces| - 1;
      assert forall j :: 0 <= j < m ==> traces[..m][j] == traces[j] && chunks[..m][j] == chunks[j];
      ChunksLogged(n, first, traces[..m], chunks[..m]);
      assert ClassLogged(n, first + m, traces[m], chunks[m]);
      assert chunks[m] == Deliveries(n, ClassNotices(first + m, traces[m]));
      FlatLogged(n, first, traces, chunks, m);
    }
  }

  /** The traces of a run's classes, when those before the last are the run's, are the run's. */
  lemma TracesLast(suites: seq<Bench.SuiteClass>, options: RunOptions, traces: seq<seq<Bench.Event>>, m: nat)
    requires 0 < |suites| == |traces| && m == |suites| - 1
    requires traces[..m] == SuiteTraces(suites[..m], options) && Traced(suites[m], options, traces[m])
    ensures traces == SuiteTraces(suites, options)
  {
    Snoc(traces, m);
    assert traces[m] == SuiteTrace(suites[m], options);
  }

  /** A non-empty sequence is its front and its last element. */
  lemma Snoc<T>(s: seq<T>, m: nat)
    requires 0 < |s| && m == |s| - 1
    ensures s == s[..m] + [s[m]]
  {
  }

  /** The notices of a run end with those of its last instance. */
  lemma RunNoticesLast(first: nat, traces: seq<seq<Bench.Event>>, m: nat)
    requires 0 < |traces| && m == |traces| - 1
    ensures RunNotices(first, traces) == RunNotices(first, traces[..m]) + ClassNotices(first + m, traces[m])
  {
  }

  /** One more instance: its chunk, after those of the earlier ones, follows the notices of its trace. */
  lemma FlatLogged(n: nat, first: nat, traces: seq<seq<Bench.Event>>, chunks: seq<seq<Delivery>>, m: nat)
    requires 0 < |traces| == |chunks| && m == |traces| - 1
    requires Flat(chunks[..m]) == Deliveries(n, RunNotices(first, traces[..m]))
    requires chunks[m] == Deliveries(n, ClassNotices(first + m, traces[m]))
    ensures Flat(chunks) == Deliveries(n, RunNotices(first, traces))
  {
    calc {
      Flat(chunks);
      Flat(chunks[..m]) + chunks[m];
      Deliveries(n, RunNotices(first, traces[..m])) + Deliveries(n, ClassNotices(first + m, traces[m]));
      { DeliveriesConcat(n, RunNotices(first, traces[..m]), ClassNotices(first + m, traces[m])); }
      Deliveries(n, RunNotices(first, traces[..m]) + ClassNotices(first + m, traces[m]));
      { RunNoticesLast(first, traces, m); }
      Deliveries(n, RunNotices(first, traces));
    }
  }

  /** The log of a run: `start`, the classes' notices, `end`. */
  lemma RunLogAssembled(start: seq<Delivery>, after: seq<Delivery>, n: nat, first: nat,
                        suites: seq<Bench.SuiteClass>, options: RunOptions)
    requires after == start + Broadcast(n, Start) + Deliveries(n, RunNotices(first, SuiteTraces(suites, options)))
      + Broadcast(n, End)
    ensures after == start + RunLog(n, first, suites, options)
  {
    var notices := RunNotices(first, SuiteTraces(suites, options));
    Framed(n, Start, notices, End);
    Associative4(start, Broadcast(n, Start), Deliveries(n, notices), Broadcast(n, End));
  }

  lemma Associative4<T>(a: seq<T>, b: seq<T>, c: seq<T>, d: seq<T>)
    ensures a + b + c + d == a + (b + c + d)
  {
  }

  /** Unfolds `LoadedSuites` once at a prefix of the arguments. */
  lemma LoadedSuitesStep(args: seq<ModuleArg>, load: (string, string) -> seq<Member>, i: nat)
    requires i < |args|
    ensures LoadedSuites(args[..i + 1], load) == LoadedSuites(args[..i], load) + SuitesOf(LoadModule(args[i], load).members)
  {
    assert args[..i + 1][..i] == args[..i];
  }

  /** Unfolds `Kept` once at a prefix of the arguments. */
  lemma KeptStep(args: seq<ReporterArg>, i: nat)
    requires i < |args|
    ensures Kept(args[..i + 1]) == Kept(args[..i]) + KeptOne(args[i])
  {
    assert args[..i + 1][..i] == args[..i];
  }

  /**
   * `bench.run()` for an instance built for `suite`: its trace is the class's run trace, and
   * its `results` hold the collected methods' measurements.
   */
  method RunInstance(bench: Bench.Benchmark, suite: Bench.SuiteClass, options: RunOptions,
                     observe: (string, nat) -> Bench.Observation)
    returns (trace: seq<Bench.Event>)
    requires Built(bench, suite, options) && bench.trace == [] && bench.results == []
    modifies bench
    ensures trace == bench.trace && Traced(suite, options, trace)
    ensures Measured(suite, options, observe, bench.results)
  {
    bench.Run(observe);
    trace := bench.trace;
    assert trace == SuiteTrace(suite, options);
    assert bench.results == SuiteResults(suite, options, observe);
  }

  class BenchmarkRunner {
    /** The benchmark classes found, in discovery order. */
    var benchmarks: seq<Bench.SuiteClass>
    /** The instances run so far, in run order. */
    var runned: seq<Bench.Benchmark>
    /** The reporters kept, in argument order. */
    var reporters: seq<Reporter>
    /** Passed to every instance, whose constructor ignores it. */
    const debug: bool
    /** Every reporter call made so far, in order. */
    var log: seq<Delivery>
    /**
     * `__init__` raised `TypeError` calling a reporter class that needs arguments; the
     * caller gets no runner then, only what the reporters before it received.
     */
    var failed: bool

    /**
     * `__init__`: loads the classes of every argument in order, then keeps the supported
     * reporters in order, calling `init` on each as it is kept, until a reporter class
     * that needs arguments raises.
     */
    constructor (filenames: seq<ModuleArg>, load: (string, string) -> seq<Member>,
                 reporterArgs: seq<ReporterArg>, debug: bool)
      ensures benchmarks == LoadedSuites(filenames, load)
      ensures runned == [] && this.debug == debug
      ensures failed <==> FirstRaising(reporterArgs) < |reporterArgs|
      ensures reporters == Kept(reporterArgs[..FirstRaising(reporterArgs)])
      ensures !failed ==> reporters == Kept(reporterArgs)
      ensures log == Broadcast(|reporters|, Init)
    {
      this.debug := debug;
      benchmarks := [];
      runned := [];
      reporters := [];
      log := [];
      failed := false;
      new;
      benchmarks := LoadAll(filenames, load);
      failed := KeepAll(reporterArgs);
      assert reporterArgs[..|reporterArgs|] == reporterArgs;
    }

    /** The filename loop of `__init__`: the classes of every argument's module, in order. */
    method LoadAll(filenames: seq<ModuleArg>, load: (string, string) -> seq<Member>) returns (found: seq<Bench.SuiteClass>)
      ensures found == LoadedSuites(filenames, load)
    {
      found := [];
      for i := 0 to |filenames|
        invariant found == LoadedSuites(filenames[..i], load)
      {
        LoadedSuitesStep(filenames, load, i);
        var loaded := LoadModule(filenames[i], load);
        var more := LoadFromModule(loaded.members);
        found := found + more;
      }
      assert filenames[..|filenames|] == filenames;
    }

    /**
     * The reporter loop of `__init__`: keeps the supported reporters in argument order and
     * stops at the first entry that raises.
     */
    method KeepAll(reporterArgs: seq<ReporterArg>) returns (raised: bool)
      requires reporters == [] && log == []
      modifies this`reporters, this`log
      ensures raised <==> FirstRaising(reporterArgs) < |reporterArgs|
      ensures reporters == Kept(reporterArgs[..FirstRaising(reporterArgs)])
      ensures log == Broadcast(|reporters|, Init)
    {
      var i := 0;
      raised := false;
      while i < |reporterArgs| && !raised
        invariant i <= FirstRaising(reporterArgs)
        invariant raised ==> i == FirstRaising(reporterArgs) < |reporterArgs|
        invariant reporters == Kept(reporterArgs[..i])
        invariant log == Broadcast(|reporters|, Init)
        decreases |reporterArgs| - i, if raised then 0 else 1
      {
        raised := Keep(reporterArgs[i]);
        if !raised {
          KeptStep(reporterArgs, i);
          i := i + 1;
        }
      }
    }

    /**
     * One `reporters` entry: a reporter class is called first, which raises when it needs
     * arguments; a reporter is then initialised and kept, anything else dropped.
     */
    method Keep(arg: ReporterArg) returns (raised: bool)
      modifies this`reporters, this`log
      ensures raised <==> Raises(arg)
      ensures reporters == old(reporters) + KeptOne(arg)
      ensures log == old(log) + if KeptOne(arg) == [] then [] else [Delivery(|old(reporters)|, Init)]
    {
      var reporter: Option<Reporter> := None;
      raised := false;
      match arg {
        case ReporterInstance(id) =>
          reporter := Some(Instance(id));
        case ReporterClass(cls, isReporter, bare) =>
          if isReporter {
            if !bare {
              return true;
            }
            reporter := Some(Created(cls));
          }
        case Unsupported =>
      }
      if reporter.Some? {
        log := log + [Delivery(|reporters|, Init)];
        reporters := reporters + [reporter.value];
      }
    }

    /** `load_from_module`: the `Benchmark` subclasses the module lists, in `dir()` order. */
    method LoadFromModule(members: seq<Member>) returns (found: seq<Bench.SuiteClass>)
      ensures found == SuitesOf(members)
    {
      found := [];
      for i := 0 to |members|
        invariant found == SuitesOf(members[..i])
      {
        assert members[..i + 1][..i] == members[..i];
        if members[i].SuiteMember? {
          found := found + [members[i].suite];
        }
      }
      assert members[..|members|] == members;
    }

    /** The loop of every `report_*` method: each reporter, in list order, gets `notice`. */
    method Notify(notice: Notice)
      modifies this`log
      ensures log == old(log) + Broadcast(|reporters|, notice)
    {
      for r := 0 to |reporters|
        invariant log == old(log) + Broadcast(r, notice)
      {
        log := log + [Delivery(r, notice)];
      }
    }

    /** `report_start`. */
    method ReportStart()
      modifies this`log
      ensures log == old(log) + Broadcast(|reporters|, Start)
    {
      Notify(Start);
    }

    /** `report_before_class`, for the instance that will be at position `k`. */
    method ReportBeforeClass(k: nat)
      modifies this`log
      ensures log == old(log) + Broadcast(|reporters|, BeforeClass(k))
    {
      Notify(BeforeClass(k));
    }

    /** `report_after_class`. */
    method ReportAfterClass(k: nat)
      modifies this`log
      ensures log == old(log) + Broadcast(|reporters|, AfterClass(k))
    {
      Notify(AfterClass(k));
    }

    /** `report_before_method`, injected as the instance's `before`. */
    method ReportBeforeMethod(k: nat, test: string)
      modifies this`log
      ensures log == old(log) + Broadcast(|reporters|, BeforeMethod(k, test))
    {
      Notify(BeforeMethod(k, test));
    }

    /** `report_after_method`, injected as the instance's `after`. */
    method ReportAfterMethod(k: nat, test: string)
      modifies this`log
      ensures log == old(log) + Broadcast(|reporters|, AfterMethod(k, test))
    {
      Notify(AfterMethod(k, test));
    }

    /** `report_progress`, injected as the instance's `after_each`: `times` is the iteration. */
    method ReportProgress(k: nat, test: string, times: nat)
      modifies this`log
      ensures log == old(log) + Broadcast(|reporters|, Progress(k, test, times))
    {
      Notify(Progress(k, test, times));
    }

    /** `report_end`. */
    method ReportEnd()
      modifies this`log
      ensures log == old(log) + Broadcast(|reporters|, End)
    {
      Notify(End);
    }

    /** The injected callbacks the instance at position `k` made, in the order of its trace. */
    method ReportCallbacks(k: nat, trace: seq<Bench.Event>)
      modifies this`log
      ensures log == old(log) + Deliveries(|reporters|, Callbacks(k, trace))
    {
      for i := 0 to |trace|
        invariant log == old(log) + Deliveries(|reporters|, Callbacks(k, trace[..i]))
      {
        CallbacksStep(|reporters|, k, trace, i);
        ghost var before := log;
        var e := trace[i];
        if e.InjectedBefore? {
          DeliveriesOne(|reporters|, BeforeMethod(k, e.test));
          ReportBeforeMethod(k, e.test);
        } else if e.InjectedAfter? {
          DeliveriesOne(|reporters|, AfterMethod(k, e.test));
          ReportAfterMethod(k, e.test);
        } else if e.InjectedAfterEach? {
          DeliveriesOne(|reporters|, Progress(k, e.test, e.i));
          ReportProgress(k, e.test, e.i);
        }
        Associative(old(log), Deliveries(|reporters|, Callbacks(k, trace[..i])),
          Deliveries(|reporters|, CallbackNotices(k, e)));
      }
      assert trace[..|trace|] == trace;
    }

    /**
     * One pass of the loop of `run`: builds the instance for `suite` with the runner's hooks,
     * then `before_class`, its run with its callbacks, and `after_class`, as the instance at
     * position `k` of `runned`; `chunk` is what the `n` reporters received meanwhile.
     */
    method RunOne(k: nat, suite: Bench.SuiteClass, options: RunOptions,
                  observe: nat -> (string, nat) -> Bench.Observation, ghost n: nat)
      returns (bench: Bench.Benchmark, trace: seq<Bench.Event>, ghost chunk: seq<Delivery>)
      requires n == |reporters|
      modifies this`log
      ensures fresh(bench) && Built(bench, suite, options) && Traced(suite, options, trace)
      ensures log == old(log) + chunk && ClassLogged(n, k, trace, chunk)
    {
      bench := new Bench.Benchmark(suite, options.times, PrefixOf(options), HooksOf(options));
      ReportBeforeClass(k);
      trace := RunInstance(bench, suite, options, observe(k));
      ReportCallbacks(k, trace);
      ReportAfterClass(k);
      Framed(n, BeforeClass(k), Callbacks(k, trace), AfterClass(k));
      Associative4(old(log), Broadcast(n, BeforeClass(k)), Deliveries(n, Callbacks(k, trace)),
        Broadcast(n, AfterClass(k)));
      chunk := Deliveries(n, ClassNotices(k, trace));
    }

    /**
     * `run`: `start`; then for each class in order a new instance built with the runner's
     * hooks and `options`, `before_class`, its run (with its callbacks), `after_class`, and
     * the instance appended to `runned`; then `end`. `observe(k)` times the instance that
     * lands at position `k` of `runned`. Given a keyword the runner passes itself, `run`
     * raises `TypeError` building the first instance, right after `start`.
     */
    method Run(options: RunOptions, observe: nat -> (string, nat) -> Bench.Observation)
      returns (ghost made: seq<Bench.Benchmark>, raised: bool)
      modifies this`runned, this`log
      ensures raised <==> Clashes(options) && |benchmarks| > 0
      ensures raised ==> runned == old(runned) && log == old(log) + Broadcast(|reporters|, Start)
      ensures !raised ==> runned == old(runned) + made && |made| == |benchmarks|
      ensures !raised ==> forall k :: 0 <= k < |benchmarks| ==> fresh(made[k]) && Built(made[k], benchmarks[k], options)
      ensures !raised ==> log == old(log) + RunLog(|reporters|, |old(runned)|, benchmarks, options)
    {
      var first := |runned|;
      ghost var n := |reporters|;
      ReportStart();
      if Clashes(options) && |benchmarks| > 0 {
        // building the first instance raises, before `before_class`
        return [], true;
      }
      raised := false;
      DeliveriesOne(n, Start);
      ghost var traces, chunks;
      made, traces, chunks := RunClasses(first, options, observe, n);
      ReportEnd();
      ClassesLogged(n, first, benchmarks, options, traces, chunks);
      RunLogAssembled(old(log), log, n, first, benchmarks, options);
    }

    /**
     * The loop of `run`: each class in order gets a new instance, run by `RunOne` and
     * appended to `runned`; `traces` are the instances' traces and `chunks` what each logged.
     */
    method RunClasses(first: nat, options: RunOptions, observe: nat -> (string, nat) -> Bench.Observation,
                      ghost n: nat)
      returns (ghost made: seq<Bench.Benchmark>, ghost traces: seq<seq<Bench.Event>>,
               ghost chunks: seq<seq<Delivery>>)
      requires first == |runned| && n == |reporters|
      modifies this`runned, this`log
      ensures runned == old(runned) + made && |made| == |benchmarks| == |traces| == |chunks|
      ensures forall j :: 0 <= j < |benchmarks| ==> fresh(made[j]) && Built(made[j], benchmarks[j], options)
      ensures forall j :: 0 <= j < |benchmarks| ==>
        Traced(benchmarks[j], options, traces[j]) && ClassLogged(n, first + j, traces[j], chunks[j])
      ensures log == old(log) + Flat(chunks)
    {
      made, traces, chunks := [], [], [];
      for k := 0 to |benchmarks|
        invariant n == |reporters|
        invariant runned == old(runned) + made && |made| == k == |traces| == |chunks|
        invariant forall j :: 0 <= j < k ==> fresh(made[j]) && Built(made[j], benchmarks[j], options)
        invariant forall j :: 0 <= j < k ==>
          Traced(benchmarks[j], options, traces[j]) && ClassLogged(n, first + j, traces[j], chunks[j])
        invariant log == old(log) + Flat(chunks)
      {
        var bench, trace, chunk := RunOne(first + k, benchmarks[k], options, observe, n);
        FlatStep(chunks, chunk);
        Associative(old(log), Flat(chunks), chunk);
        runned := runned + [bench];
        Associative(old(runned), made, [bench]);
        made, traces, chunks := made + [bench], traces + [trace], chunks + [chunk];
      }
    }
  }
}
