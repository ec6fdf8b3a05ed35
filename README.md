# minibench, modelled in Dafny

minibench is a small Python micro-benchmarking tool. A *benchmark suite* is a subclass of
`Benchmark`. Its methods whose name starts with a prefix (`bench_` by default) are run
`times` times each. Suite hooks (`before_class`, `before`, `before_each`, `after_each`,
`after`, `after_class`) fire around the calls, and so do the hooks injected through the
constructor. The `BenchmarkRunner` loads the suite classes of some benchmark files. It keeps
the supported reporters, runs every suite in discovery order and forwards each event to
every reporter. The reporters summarise the run: a JSON summary, CSV rows, and Markdown and
reStructuredText tables with fixed-width columns. The `minibench` command adds a console
reporter that compares each method with a previous run.

This project models the execution core and proves what it promises:

- `humanize`, which makes labels out of code names (`utils.dfy`);
- the `Benchmark` lifecycle, as a class whose `Run` records the hook trace and fills
  `results` (`benchmark.dfy`);
- the runner, as a class whose methods append to `benchmarks`, `reporters` and `runned`, and
  to a log of every reporter call (`runner.dfy`);
- the summary, its key, the column sizing and the table and CSV builders (`report.dfy`);
- the console reporter's decisions and the command's assembly of reporters and arguments
  (`cli.dfy`).

Supporting modules:

- `wrappers.dfy`: `Option` and `Result`.
- `pystr.dfy`: the Python `str` operations the tool uses.
- `dicts.dfy`: `dict` as a list of pairs in insertion order, where assigning an existing
  key keeps its place (the order CPython 3.7 and later guarantee).

Modelling choices:

- Python reflection (`dir`, `__doc__`, `__class__.__name__`, `isinstance`) is given as data.
- The timer and the values the benchmarked methods return come from an `observe` oracle.
- Importing a file is a `load` oracle.
- Resolving a glob pattern is a `resolve` oracle.
- Formatting a float with a fixed number of decimals is an uninterpreted `fmt`, used alike
  for sizing and rendering.
- Hook calls are recorded as events rather than executed. Reporter calls are recorded as
  deliveries: which reporter received which notice.

The two sides of a run disagree about the results of a method, and the model follows each
side's own code:

- `benchmark.py` stores a *list* of `RunResult` per method and sets `success` to `True`
  unconditionally. It catches no exception and ignores `debug`. The benchmark side of the
  model does the same.
- The reporters, the console reporter and their tests read an *aggregate* per method
  (`total`, `has_success`, `has_errors`, `error`). The reporter side of the model reads that
  aggregate, as a function of each method's list of results that the model takes as given
  (`Cli.ViewOf`).

On the code as written the two sides do not meet: a list has no `total`, so for every run
instance with at least one method, `summary()` (`minibench/report.py:54`) and the console
reporter's `after_method` (`minibench/cli.py:66`, called from the `after` hook during `run`)
raise `AttributeError`. The reporter side of the model states what the reporters do on the
aggregate they were written against, not this failure.

## Model

| member | source | states |
|---|---|---|
| Utils.Humanize | minibench/utils.py:9-16 | the loop over parts and segments builds exactly `Humanized(text)`: every part's words lower-cased, the first word title-cased, all joined by single spaces |
| Utils.AppendLowered | minibench/utils.py:13-14 | the inner loop appends the lower-cased segments to `words`, in order |
| Utils.CamelFrom | minibench/utils.py:6 | each match of `RE_CAMEL` is a capital followed by non-capitals, and the matches concatenate back to the string |
| Utils.CamelSegments | minibench/utils.py:6-13 | the segments of a part are capital words that spell the part minus its leading non-capital run; there are none exactly when the part has no capital |
| Utils.PartWords | minibench/utils.py:13 | every part gives at least one word: itself when it has no capital, its capital segments otherwise |
| Utils.WordsOf | minibench/utils.py:12-14 | every part contributes at least one word and no collected word contains a capital |
| Utils.Words | minibench/utils.py:12-14 | there are at least as many words as `_`-separated parts, so `words[0]` exists |
| Utils.NoUnderscore | minibench/utils.py:12-16 | a humanized name never contains `_` |
| Utils.LabelWords | minibench/utils.py:14-16 | for a name without spaces, the label splits on spaces back into the title-cased first word and the other words, each without capitals |
| Utils.HumanizeLowerPart | minibench/utils.py:12-15 | a name of one part without capitals is kept whole and title-cased |
| Utils.HumanizeCamelWord | minibench/utils.py:12-16 | one capital word becomes that word lowered and title-cased |
| Utils.HumanizeTwoCamelWords | minibench/utils.py:12-16 | two capital words become the first title-cased and the second lowered, separated by a space |
| Utils.HumanizeLeadingRun | minibench/utils.py:6-13 | a leading non-capital run before a capital word is dropped |
| Utils.HumanizeTwoParts | minibench/utils.py:12-16 | two lower-case parts separated by `_` become the first title-cased, a space, then the second |
| Utils.HumanizeCapitalized | minibench/utils.py:12-16 | a capitalised word is its own label |
| Utils.HumanizeTwoCapitalized | minibench/utils.py:12-16 | two capitalised words give the first, a space, then the second with its capital lowered |
| Utils.HumanizeSnakeWords | minibench/utils.py:12-16 | two lower-case words joined by `_` give the first with its initial upper-cased, a space, then the second |
| Utils.HumanizeRunThenCapitalized | minibench/utils.py:6-15 | a lower-case run followed by a capitalised word gives that word alone |
| Utils.HumanizeTest | tests/test_utils.py:11 | `humanize('Test') == 'Test'` |
| Utils.HumanizeAnotherTest | tests/test_utils.py:12 | `humanize('AnotherTest') == 'Another test'` |
| Utils.HumanizeLowerTest | tests/test_utils.py:15 | `humanize('test') == 'Test'` |
| Utils.HumanizeSnakeCase | tests/test_utils.py:16 | `humanize('another_test') == 'Another test'` |
| Utils.HumanizeDropsLeadingRun | minibench/utils.py:6-13 | `humanize('listExpansion') == 'Expansion'` |
| PyStr.Title | minibench/utils.py:15 | `str.title`: a letter after a non-letter (or first) is upper-cased, a letter after a letter lower-cased, other characters kept |
| PyStr.Lower | minibench/utils.py:14 | `str.lower`: same length, each character lowered, no capital left |
| PyStr.SplitJoin | minibench/utils.py:12 | joining the parts of `split(sep)` with `sep` gives the string back |
| PyStr.JoinSplit | minibench/utils.py:16 | splitting words joined by a separator they do not contain gives the words back |
| PyStr.Strip | minibench/benchmark.py:47-48 | `str.strip`: empty exactly when the string is all whitespace; otherwise the slice between the leading and trailing whitespace |
| PyStr.FirstLine | minibench/benchmark.py:48 | `splitlines()[0]`: a prefix without line breaks that ends at the first line break |
| PyStr.StripOf | minibench/benchmark.py:47-48 | stripping whitespace around a body that starts and ends with non-space gives the body |
| PyStr.RemoveAllAbsent | minibench/benchmark.py:56 | `replace(prefix, '')` leaves a string without the prefix unchanged |
| PyStr.NatStrRoundTrip | minibench/report.py:167 | the digits of `str(n)` read back as `n` |
| PyStr.IntStrInjective | minibench/report.py:70 | different integers print differently |
| PyStr.Ljust | minibench/report.py:198 | `str.ljust`: the string, then spaces up to the width, never shorter than the string |
| Dicts.Put | minibench/benchmark.py:113 | `d[k] = v`: a new key is appended, a present key keeps its place; `k` maps to `v` and every other key keeps its value |
| Dicts.PutPut | minibench/report.py:61 | assigning a key twice equals assigning the second value once |
| Dicts.GetMapValues | minibench/report.py:118 | looking a key up in a dict whose values were mapped gives the mapped value, or nothing |
| Bench.ChooseTimes | minibench/benchmark.py:27-34 | `times` is the argument when it is given and not 0, otherwise the class attribute |
| Bench.Iterations | minibench/benchmark.py:116 | `range(times)` runs `times` iterations, none for a negative count |
| Bench.CollectMembers | minibench/benchmark.py:85-86 | a name is collected exactly when it is a member that starts with the prefix |
| Bench.Collect | minibench/benchmark.py:85-86 | no more names are collected than there are members |
| Bench.CollectSorted | minibench/benchmark.py:85-86 | collecting keeps `dir()`'s sorted order |
| Bench.CollectDistinct | minibench/benchmark.py:85-86 | no name is collected twice |
| Bench.DocLabel | minibench/benchmark.py:47-48 | a label comes from the docstring exactly when it is not blank; it is a non-empty prefix of the stripped docstring, starts with non-space and holds no line break |
| Bench.DocLabelFirstLine | minibench/benchmark.py:47-48 | a docstring of whitespace, a first line and more lines is labelled by that first line |
| Bench.TwoLineDocLabel | tests/test_benchmark.py:48-57 | a two-line docstring is labelled 'A simple test benchmark.' under any indentation (a line break, then blanks), so under the 12 blanks of the class docstring and the 16 of the method docstring alike |
| Bench.Benchmark.constructor | minibench/benchmark.py:29-42 | `times` is chosen from the argument and the class attribute; prefix and injected hooks are stored; results and trace start empty |
| Bench.Benchmark.LabelWithoutDoc | minibench/benchmark.py:44-49 | without a usable docstring a suite is labelled by its humanized class name, which holds no `_` |
| Bench.Benchmark.Label | minibench/benchmark.py:44-49 | with a usable docstring the label is a non-empty start of the stripped docstring without line breaks; otherwise the humanized class name |
| Bench.Benchmark.LabelFor | minibench/benchmark.py:51-56 | with a usable method docstring the label is a non-empty start of it without line breaks; otherwise the humanized name with the prefix removed |
| Bench.Benchmark.Tests | minibench/benchmark.py:85-86 | the methods run are exactly the members that start with the prefix |
| Bench.Benchmark.LabelForPrefixed | minibench/benchmark.py:51-56 | without a docstring, a method named prefix + rest is labelled by the humanized rest |
| Bench.Benchmark.DefaultLabel | tests/test_benchmark.py:41-46 | class `Test` without docstring is labelled 'Test' |
| Bench.Benchmark.DocstringLabel | tests/test_benchmark.py:48-57 | the two-line class docstring, indented by 12 blanks, gives the label 'A simple test benchmark.' |
| Bench.Benchmark.DefaultLabelFor | tests/test_benchmark.py:59-65 | `bench_something` without docstring is labelled 'Something' |
| Bench.Benchmark.DocstringLabelFor | tests/test_benchmark.py:67-77 | a method with the two-line docstring, indented by 16 blanks, is labelled by its first line |
| Bench.Measured | minibench/benchmark.py:88-95 | a `RunResult` always has `success` set and carries the observed duration and value |
| Bench.Measurements | minibench/benchmark.py:116-118 | one result per iteration, in iteration order |
| Bench.Benchmark.RunOne | minibench/benchmark.py:88-95 | `_run_one` adds own `before_each`, the call, own `after_each` to the trace and returns the measured result |
| Bench.Benchmark.RunTest | minibench/benchmark.py:112-121 | one method adds exactly its `MethodTrace` and stores its list of `times` results under its name |
| Bench.Benchmark.Run | minibench/benchmark.py:97-123 | the trace grows by `RunTrace`: `before_class`, each collected method's trace in order, `after_class`; results are stored per method; nothing happens when nothing is collected |
| Bench.RunStep | minibench/benchmark.py:111-121 | one more method extends the trace by its own trace and the results by its own entry |
| Bench.CountConcat | minibench/benchmark.py:97-123 | hook counts add up over concatenated traces |
| Bench.IterationCount | minibench/benchmark.py:88-95 | one iteration fires each per-call hook once, injected ones only when given |
| Bench.IterationsCount | minibench/benchmark.py:116-119 | `n` iterations fire each per-call hook `n` times as often as one |
| Bench.MethodCount | minibench/benchmark.py:112-121 | one method fires `before`/`after` once each and the per-call hooks `n` times |
| Bench.MethodsCount | minibench/benchmark.py:111-121 | `k` methods fire each hook `k` times as often as one method |
| Bench.RunCount | minibench/benchmark.py:103-123 | with `k` methods at `times = n`: class hooks once, method hooks `k` times, per-call hooks `k * n` times; nothing at all when `k = 0` |
| Bench.TwoMethodsFiveTimes | tests/test_benchmark.py:165-174 | two methods at five iterations: class hooks 1, method hooks 2, per-call hooks 10, own and injected alike |
| Bench.NothingInjected | minibench/benchmark.py:39-42 | without injected callables no injected hook fires |
| Bench.ResultsAfterGet | minibench/benchmark.py:111-119 | after the loop a collected method maps to its measurements and any other key is untouched |
| Bench.ResultsAfterKeys | minibench/benchmark.py:111-113 | starting empty, `results` has exactly the collected names as keys, in order |
| Bench.FirstRunResults | minibench/benchmark.py:103-119 | after a first run, `results` has one key per collected name, each with exactly `times` successful results in iteration order |
| Runner.RFindIsLast | minibench/runner.py:69 | `rfind` finds the last occurrence |
| Runner.Basename | minibench/runner.py:69 | the base name is a suffix of the path without `/` |
| Runner.Root | minibench/runner.py:69 | `splitext(...)[0]`: a prefix of the name; when shorter, it stops at the last dot and is not all dots |
| Runner.RootAtLastDot | minibench/runner.py:69 | the converse: whenever the last dot follows something other than dots, the root stops exactly there |
| Runner.RemoveAllTrailing | minibench/runner.py:70 | removing a suffix that does not start inside the name leaves the name |
| Runner.BenchBasename | minibench/runner.py:69 | the base name of `dir/name.bench.py` is `name.bench.py` |
| Runner.BenchRoot | minibench/runner.py:69 | stripping the extension of `name.bench.py` gives `name.bench` |
| Runner.BenchFileName | minibench/runner.py:65-72 | the module of `dir/name.bench.py` is `benchmarks.name` |
| Runner.SortBenchName | tests/test_runner.py:57-63 | the module of `sort.bench.py` is `benchmarks.sort` |
| Runner.LoadModule | minibench/runner.py:65-72 | a non-string argument is returned as is; a path is loaded under its derived module name |
| Runner.SuitesOfExactly | minibench/runner.py:74-82 | a class is kept exactly when it is a `Benchmark` subclass listed by the module, never `Benchmark` itself |
| Runner.SuitesOfConcat | minibench/runner.py:77-81 | the loop keeps the classes in member order |
| Runner.TwoSuitesLoaded | tests/test_runner.py:66-75 | a module with `Benchmark`, two suites and other members yields those two suites |
| Runner.LoadedSuitesExactly | minibench/runner.py:32-35 | a class is among `benchmarks` exactly when one of the files' modules lists it |
| Runner.ModuleName | minibench/runner.py:69-71 | a file path becomes a name under `benchmarks.`, no longer than the prefix and the path |
| Runner.KeptConcat | minibench/runner.py:37-44 | kept reporters follow the argument order |
| Runner.FirstRaising | minibench/runner.py:37-39 | the position found is the first entry whose reporter class cannot be called without arguments, or the end when there is none |
| Runner.KeptExactly | minibench/runner.py:37-44 | a reporter is kept exactly when it was given as an instance, or is a new instance of a given `BaseReporter` subclass that can be called without arguments |
| Runner.KeptExamples | tests/test_runner.py:118-123 | an instance is kept, a non-reporter class is dropped without failing, a reporter class is instantiated, and a `FileReporter` class stops the loop where it stands |
| Runner.BroadcastInOrder | minibench/runner.py:84-110 | a broadcast delivers the notice to every reporter exactly once, in list order |
| Runner.ReceivedDeliveries | minibench/runner.py:84-110 | each reporter receives the whole sequence of notices, in order, and others receive nothing |
| Runner.RunLogReceived | minibench/runner.py:46-63 | every reporter receives `start`, then the notices of each suite in order, then `end` |
| Runner.CallbacksCount | minibench/runner.py:54-58 | the method notices an instance sends match the counts of its injected hooks; a `before_each` given to `run` sends none |
| Runner.HooksOf | minibench/runner.py:54-58 | the runner always injects `before`, `after` and `after_each`, and `before_each` exactly when `run` is given one |
| Runner.OneMethodFiveTimes | tests/test_runner.py:108-116 | a suite of one method at five iterations sends one `before_class`, `after_class`, `before_method`, `after_method` and five `progress` |
| Runner.HookReporterCounts | tests/test_runner.py:98-116 | a reporter of a run of that suite receives `start`, `end` and the class and method notices once and `progress` five times |
| Runner.RunInstance | minibench/runner.py:60 | an instance built by the runner leaves the trace the suite's collected tests, `times` and the hooks of `run` determine, and `results` holding one list of measurements per collected test |
| Runner.BenchmarkRunner.constructor | minibench/runner.py:18-44 | `benchmarks` are the suites of every file in order; `runned` is empty; `failed` exactly when a reporter class needs arguments; `reporters` are the ones kept before that, each told `init` once |
| Runner.BenchmarkRunner.LoadAll | minibench/runner.py:32-35 | the filename loop yields the suites of every argument's module, in order |
| Runner.BenchmarkRunner.KeepAll | minibench/runner.py:37-44 | the reporter loop keeps the supported reporters in order and calls `init` on each, stopping with `TypeError` at the first class that needs arguments |
| Runner.BenchmarkRunner.Keep | minibench/runner.py:38-44 | one argument raises exactly when it is a reporter class that needs arguments; otherwise it adds at most one reporter and its `init` call |
| Runner.BenchmarkRunner.LoadFromModule | minibench/runner.py:74-82 | the loop yields exactly the suites of the module's members |
| Runner.BenchmarkRunner.ReportStart | minibench/runner.py:84-86 | `start` is delivered to every reporter in order |
| Runner.BenchmarkRunner.ReportBeforeClass | minibench/runner.py:88-90 | `before_class` is delivered to every reporter in order |
| Runner.BenchmarkRunner.ReportAfterClass | minibench/runner.py:92-94 | `after_class` is delivered to every reporter in order |
| Runner.BenchmarkRunner.ReportBeforeMethod | minibench/runner.py:96-98 | `before_method` is delivered to every reporter in order |
| Runner.BenchmarkRunner.ReportAfterMethod | minibench/runner.py:100-102 | `after_method` is delivered to every reporter in order |
| Runner.BenchmarkRunner.ReportProgress | minibench/runner.py:104-106 | `progress` is delivered to every reporter in order |
| Runner.BenchmarkRunner.ReportEnd | minibench/runner.py:108-110 | `end` is delivered to every reporter in order |
| Runner.BenchmarkRunner.ReportCallbacks | minibench/runner.py:54-58 | the callbacks of an instance's run reach every reporter in trace order |
| Runner.BenchmarkRunner.RunOne | minibench/runner.py:54-62 | one suite is instantiated with the runner's hooks, any `before_each` and the other `run` options, framed by `before_class`/`after_class` |
| Runner.BenchmarkRunner.RunClasses | minibench/runner.py:53-62 | every suite runs in order, one fresh instance each appended to `runned`, and the log gains each suite's notices in turn |
| Runner.BenchmarkRunner.Run | minibench/runner.py:46-63 | `benchmarks` and `reporters` are unchanged; a keyword the runner passes itself raises `TypeError` after `start` when there is a suite; otherwise `runned` grows by one fresh instance per suite, in order, and the log by `start`, every suite's notices, `end` |
| Report.KeyInjective | minibench/report.py:68-70 | for class names without `-`, two suites have the same key exactly when they have the same class name and `times` |
| Report.KeyParts | minibench/report.py:68-70 | a key is the class name, a dash and the decimal `times` |
| Report.RunSummaryOf | minibench/report.py:54-60 | a run entry holds the method label, its total, and the mean: the total divided by `times`, so that `mean * times == total` in exact arithmetic |
| Report.SummarizeRuns | minibench/report.py:52-60 | the inner loop builds the runs of every result, or divides by zero when `times` is 0 |
| Report.Summarize | minibench/report.py:47-66 | the summary loop computes `SummaryOf(runned)` |
| Report.SummaryStep | minibench/report.py:50-65 | each suite puts its entry under its key, or the first division by zero stops the summary |
| Report.SummaryOf | minibench/report.py:47-65 | the summary can only fail with `ZeroDivisionError` |
| Report.SummaryFails | minibench/report.py:54 | the summary fails exactly when some suite with results has `times` 0, and then with `ZeroDivisionError` |
| Report.SummaryEntries | minibench/report.py:49-65 | every key occurs once, under it is the entry of the last suite with that key; absent keys have no entry |
| Cli.ViewOf | minibench/report.py:50-63 | a run instance as the reporters read it: its class name and `times` for the key, `label` as caption, and exactly the methods of its `results`, in order, each captioned by `label_for` and carrying the aggregate of its own list of results |
| Cli.RunnedSummary | minibench/report.py:47-65 | over the runner's instances, the last instance with a given key has the entry under `<class name>-<times>`, named by its `label`, with its `times`, and one run per method of its `results`, named by `label_for` |
| Report.RunsOfEntries | minibench/report.py:52-60 | the runs have the keys of the results, in order, and each holds that method's run entry |
| Report.OneSuiteSummary | tests/test_reporter.py:31-52 | the empty benchmark gives one entry named 'Empty benchmark', times 5, one run 'Nothing' |
| Report.SummaryOfTwo | tests/test_reporter.py:107-125 | two suites with different keys give two entries, in order |
| Report.Widest | minibench/report.py:164-172 | a column size is at least the header and every value, and equals one of them |
| Report.RowSizesAre | minibench/report.py:159-173 | the five sizes are: the label, method names, `str(times)`, totals and means, each against its header |
| Report.SizesOf | minibench/report.py:160-172 | the sizing loop computes those five sizes |
| Report.WithSizesOf | minibench/report.py:152-175 | fewer or more than five headers raise `ValueError`; a success has five sizes per entry |
| Report.AddSizes | minibench/report.py:159-175 | every entry gets its sizes, or `ValueError` when some suite has no runs |
| Report.WithSizes | minibench/report.py:152-175 | the method computes `WithSizesOf` |
| Report.RowSizesFit | minibench/report.py:159-173 | each size is at least its header and every rendered value of its column |
| Report.WithSizesEntries | minibench/report.py:157-175 | `with_sizes` keeps the summary's keys and entries and adds sizes that fit them |
| Report.LongLabelSizes | tests/test_reporter.py:82-105 | a suite with methods 'A method with long label' and 'Short', in the order `dir()` collects them, at times 5 gets method size 24 and times size 5 |
| Report.TwoSuitesTwoEntries | tests/test_reporter.py:107-125 | two suites with different keys give two sized entries |
| Report.MarkdownRow | minibench/report.py:210-211 | a Markdown row is its four cells plus 13 characters of framing |
| Report.PaddedWidths | minibench/report.py:198-206 | `ljust` to a size at least the content makes each cell exactly that size |
| Report.MarkdownWidths | minibench/report.py:191-208 | the header, the `:` separator and every body row of a Markdown table have the same width |
| Report.SeparatorWidth | minibench/report.py:247-249 | the separator of four sizes is `+`, segments of size + 2, `+`: width sum + 13 |
| Report.RstRow | minibench/report.py:224 | a row of cells within their sizes is sum of sizes + 13 wide |
| Report.RstHeadWidths | minibench/report.py:229-237 | the title underline has the title's length; the separators and the header row share one width |
| Report.RstWidths | minibench/report.py:226-245 | every separator and row of a reStructuredText table has the same width, and the underline matches the title |
| Report.MarkdownTableLines | minibench/report.py:192-208 | the loop emits exactly the lines of one Markdown table |
| Report.RstTableLines | minibench/report.py:227-245 | the loop emits exactly the lines of one reStructuredText table |
| Report.MarkdownOutput | minibench/report.py:191-208 | the output is one table per suite in summary order, or the `with_sizes` error |
| Report.MarkdownReport | minibench/report.py:191-208 | a failing summary gives `ZeroDivisionError`; otherwise the output fails, with `ValueError`, exactly when some entry has no method |
| Report.RstOutput | minibench/report.py:226-245 | the output is one table per suite in summary order, or the `with_sizes` error |
| Report.RstReport | minibench/report.py:226-245 | a failing summary gives `ZeroDivisionError`; otherwise the output fails, with `ValueError`, exactly when some entry has no method |
| Report.ReportTablesAligned | minibench/report.py:191-249 | in both formats every table of a sized summary has rows of one width |
| Report.WriteRunRows | minibench/report.py:138-145 | the inner loop appends one row per run |
| Report.CsvOutput | minibench/report.py:134-145 | the writer emits exactly the header then every suite's run rows |
| Report.CsvBodyRows | minibench/report.py:137-145 | one row per (suite, run), each shaped text, text, integer, number, number, and every pair has its row |
| Report.CsvReportRows | minibench/report.py:136-145 | the CSV starts with the header; it then has one row per run, or stops with the summary's error |
| Report.CsvReport | minibench/report.py:134-145 | the header always comes first; the error is there exactly when the summary fails, and then it is `ZeroDivisionError` and only the header was written |
| Cli.GetOr | minibench/cli.py:92 | `.get(k, default)` on a non-object raises `AttributeError` |
| Cli.RefFound | minibench/cli.py:89-92 | `ref` finds an entry exactly when a reference is loaded and truthy and the key, `runs` and method are found at each level |
| Cli.RefFails | minibench/cli.py:89-92 | `ref` raises exactly when a level it must call `.get` on is not an object |
| Cli.RefFromSummary | minibench/cli.py:89-92 | against the JSON of a summary, `ref` finds the stored run of the method, or nothing when the suite or method is missing |
| Cli.Ref | minibench/cli.py:89-92 | `ref` can only fail with `AttributeError` |
| Cli.SummaryJson | minibench/report.py:115-118 | the dumped summary is an object with the summary's keys in order, each holding its entry's JSON |
| Cli.Diff | minibench/cli.py:106-113 | red `+d s` exactly when the value grew, green `d s` exactly when it shrank, `-` exactly when equal |
| Cli.Operand | minibench/cli.py:96-97 | `ref['total']` gives a number, `KeyError` when missing, `TypeError` when not a number |
| Cli.Duration | minibench/cli.py:94-104 | five pieces exactly when a reference is given, one otherwise; it fails exactly when a reference lacks a numeric total or mean; it starts with the formatted total |
| Cli.DurationDiffs | minibench/cli.py:94-101 | with a numeric reference, the duration shows total, total diff, mean, mean diff |
| Cli.Mark | minibench/cli.py:69-74 | warning exactly when there are successes and errors, OK exactly when only successes, KO exactly when no success |
| Cli.Status | minibench/cli.py:61-74 | a status starts with the method's mark and a space |
| Cli.StatusOf | minibench/cli.py:64-74 | the status is the mark, a space, then the duration of total and `total / times` |
| Cli.StatusWithoutReference | minibench/cli.py:64-74 | without a reference the status is the mark, a space and the plain duration |
| Cli.StatusAgainstEntry | minibench/cli.py:64-104 | with a reference entry, the status compares the method's total and mean with it |
| Cli.StatusAgainstSummary | minibench/cli.py:64-104 | against a previous run's summary, the status compares with the stored total and mean of the same suite key and method |
| Cli.StartLines | minibench/cli.py:39-46 | the start message, then an underline of `-` as long as the message |
| Cli.StartMessage | minibench/cli.py:39-44 | the message starts with `Running ` and ends in `s` exactly when the count exceeds 1 |
| Cli.StartMessagePlural | minibench/cli.py:41-44 | the message ends in `benchmarks` exactly when the count exceeds 1 |
| Cli.StartMessageCount | minibench/cli.py:42-44 | the message is `Running ` followed by digits that read back as the count |
| Cli.Patterns | minibench/cli.py:145 | the patterns given, or the default `**/*.bench.py` when none are |
| Cli.ResolvedExactly | minibench/cli.py:145-146 | a file is gathered exactly when some pattern resolves to it |
| Cli.GatherFiles | minibench/cli.py:142-146 | the loop gathers the files of every pattern, in pattern order |
| Cli.ChosenOrder | minibench/cli.py:143-154 | the console reporter first, then one reporter per option given, in the order JSON, CSV, reST, Markdown |
| Cli.ChosenFiles | minibench/cli.py:147-154 | a file reporter of a format is there exactly when its option names a non-empty path, and it writes there |
| Cli.AssembleReporters | minibench/cli.py:143-154 | the appends build exactly the chosen reporters |
| Cli.Kwargs | minibench/cli.py:144-156 | `times` is forwarded exactly when it is truthy, and then unchanged |
| Cli.KwargsTimes | minibench/cli.py:155-158 | the instances choose the same `times` as if given the option directly |
| Cli.KeptInstances | minibench/cli.py:157 | every reporter instance passed to the runner is kept, in order |
| Cli.Command | minibench/cli.py:138-158 | the runner loads the gathered files, keeps all chosen reporters in order, runs every suite once and logs `init`, then `start`, the suites' notices and `end` |
| Cli.RunOn | minibench/cli.py:157-158 | with no keyword the runner passes itself, the runner keeps every instance, does not fail, and runs every suite after `init` |

## Left out

- The timer, real durations and float formatting: durations come from an oracle, and
  `'{:.5f}'` and `FixedWidth.float` are the parameter `fmt`.
- Report.RunSummaryOf: Python's float `+`, `-` and `/` are exact `real` operations in the
  model, with no IEEE rounding. So `mean * times == total` holds only there: with a total of
  1.0 and 49 runs, the double mean times 49 is not 1.0. The same reading covers
  `Cli.Duration`'s differences. Their sign agrees with the comparison for finite doubles.
- Python reflection (`dir`, `getattr`, `inspect`, `__doc__`): suites, modules and reporter
  arguments are data.
- `minibench/_compat.py` (module import, `recursive_glob`) and `resolve_pattern`: these touch
  the filesystem and are the oracles `load` and `resolve`.
- Reading the `--ref` file and `json.load`: the reference is given as a parsed `Json` value.
- `FileReporter.end`, file creation, `json.dump` and `csv.writer` quoting: the model yields
  the lines and rows produced. The JSON summary is a `Json` value and is assumed to load back
  unchanged.
- click styling, the progress bar (`self.bar`), the terminal width, and the dotted label
  line of `after_method`: colours are tags on text pieces.
- The console output of `before_class`, `before_method`, `progress` and `end`: only the
  status and the start message are modelled.
- The debug error print and the `exc.message` Python 2 branch of `after_method`.
- Exception capture and the debug stop at the first failure: `benchmark.py` implements
  neither. An exception raised by a benchmarked method or a hook is not modelled.
- Cli.ViewOf: the aggregate of a method's list of `RunResult` is a parameter. The code
  computes none: the reporters read `results.total` off the list itself.
- Report.SummaryOf: "only `ZeroDivisionError`" holds for the aggregate the reporters read.
  On the lists `benchmark.py` actually stores, `summary()` raises `AttributeError` at
  `minibench/report.py:54` for any instance with a method, and so does the console
  reporter's `after_method` at `minibench/cli.py:66`, during `run`. The model does not
  capture that failure.
- `log.warning` for an unsupported reporter: dropped reporters leave no trace in the model.
- Case mapping: `lower` and `title` are modelled for ASCII letters only, and other
  characters are kept unchanged.
- Keyword arguments of `run` other than `times`, `prefix`, `before_each`, `before`, `after`,
  `after_each` and `debug`: `Benchmark.__init__` accepts and ignores them. `before_each` is
  modelled only as given or not; the hook it installs is recorded in the trace, not run.
- Runner.BenchmarkRunner.Run: the trace and `results` an instance holds after its run are
  stated by `RunInstance`, which `RunOne` calls on the fresh instance. `RunOne`, `RunClasses`
  and `Run` do not carry them as postconditions on the fields of the instances in `runned`.
  They state what each instance was built with (`Built`) and the notices the run logged,
  which the traces determine.
  So the instances' `results` are not tied to `Cli.RunnedSummary` through `Run`.
- Runner.RunInstance: the injected callbacks are replayed from the trace after `run`
  returns. They are synchronous and only append to the log, so the log is the same.
- Report.AddSizes: the in-place write of `row['sizes']` into the summary is modelled as a
  new dict of sized entries.
- Bench.Benchmark.constructor: `debug` and other keyword arguments are accepted and ignored,
  as in the source.
- `dict` order: `setup.py` also lists Python 2.7 and 3.3 to 3.5, where `dict` order is
  arbitrary. The model fixes the insertion order of CPython 3.7 and later. On the older
  versions the order of summary entries, of `runs`, of the tables and of the CSV rows is
  unspecified, and the order claims of Dicts.Put, Bench.ResultsAfterKeys,
  Report.RunsOfEntries, Report.SummaryOfTwo, Report.MarkdownOutput, Report.RstOutput and
  Report.CsvOutput hold only under that order.
- Runner.BenchmarkRunner.constructor: the `TypeError` of a reporter class that needs
  arguments is the `failed` flag; the Python caller gets no runner at all.
