# Railgun scorers in Dafny

This project models the grading engine of the Railgun homework system, the
four scorers of `runlib/python/pyhost/scorer.py`. It proves what each scorer
computes.

Each scorer has a name and four result fields: `time`, `score`, `brief` and
`detail`. `run()` executes the scorer's `_run()` and times it. A
`ScorerFailure` raised inside `_run()` is caught, and its brief, detail and
score become the scorer's own. Any other exception escapes. The four scorers:

* **UnitTestScorer** calls its suite to build it whenever the suite is
  callable, which is meant to catch a factory but also catches a built
  unittest suite (see "## Findings"). It runs the suite and scores the share
  of tests that passed.
* **CodeStyleScorer** keeps the Python files of its input list that are not
  skipped. It scores the share of them in which the PEP8 checker finds
  nothing.
* **CoverageScorer** runs the tests under branch coverage. For every file it
  counts the statements and classifies each branch line as fully taken,
  partially taken or not taken. It writes two annotated listings per file
  and combines the totals into a composite score:
  `0.5 * statement cover + 0.5 * branch cover + 0.25 * partial rate`.
* **InputClassScorer** checks black-box test data against a list of input
  classes. Each class is a check function registered with `rule`. The score
  is the share of classes that some record of the data passes. A data file
  that does not match its schema becomes a `ScorerFailure`.

Modelling choices:

* **Scorer objects.** The Python base class is a Dafny `class Scorer` holding
  the result fields. Each scorer class holds its `Scorer` as `base` and
  assigns those fields in place, as `_run()` does.
  * `RunBody` is `_run()`. It returns how `_run()` ended: normally, with a
    `ScorerFailure`, or with another exception.
  * `Scorer.Finish` is the `try`/`except` of `run()`.
  * Each scorer's `Run` is `RunBody` followed by `Finish`.
  * The time `run()` measures is a parameter (`elapsed`).
* **Outputs of the external tools.** The model takes these as inputs:
  * a built unittest suite, as its test count, the lengths of the result's
    `errors` and `failures` lists, and its formatted details;
  * the number of files the PEP8 checker found in trouble, and its report;
  * coverage.py's analysis of each file: its statements, missing
    statements, `branch_stats()` map and source lines;
  * the records the CSV loader yields, and the exception it stops with, if
    any.
* **Briefs and details** are `Message` values. A message names its template
  and carries the template's parameters.
* **Check functions** are objects (`CheckFunction`), because `rule` sets an
  attribute on the function object itself.

The composite coverage score stays within [0, 100] whenever every file's
missing statements are among its statements and no branch line took more
exits than it has (`CoverageAnalysis.CoverageScoreBounds`,
`CoverageAnalysis.TallyScoreBounds`). The weight 0.25 on partial branches
cannot push it past 100. A partial line is neither fully taken nor untaken,
so the taken and partial shares of the branch lines together are at most 1.
The formula is therefore bounded as written, although it is sometimes
described as able to exceed 100.

## Model

| member | source | states |
|---|---|---|
| ScorerBase.Scorer.Finish | runlib/python/pyhost/scorer.py:41-51 | How `_run()` ended decides the fields. A normal end records the time and keeps the fields `_run()` wrote. A `ScorerFailure` is absorbed: its brief, detail and score are copied and the time stays unset. Any other exception escapes with every field unchanged. |
| ScorerBase.Scorer.constructor | runlib/python/pyhost/scorer.py:26-36 | A new scorer has its name, and its time, score, brief and detail are all unset. |
| ScorerBase.PercentOf | runlib/python/pyhost/scorer.py:23-24 | A percentage `100 * part / whole` of a positive whole lies in [0, 100]. It is 100 exactly for the whole and 0 exactly for nothing. |
| UnitTestScoring.UnitTestScorer.RunBody | runlib/python/pyhost/scorer.py:62-85 | The suite is replaced by the built suite. The score is the pass rate. The brief carries the rate, the number of successes and the total. The detail is the result's details. The time is untouched. |
| UnitTestScoring.UnitTestScorer.Run | runlib/python/pyhost/scorer.py:41-51 | With the corrected suite resolution, the unit test scorer completes. It records the time and leaves the score, brief and detail of its `_run()`. Afterwards the suite is a built suite, so resolving it as written fails with TypeError: a second `run()` of the source raises. |
| UnitTestScoring.UnitTestScorer.constructor | runlib/python/pyhost/scorer.py:57-60 | A new scorer is named "Functionality Scorer", keeps the given suite and has no results yet. |
| UnitTestScoring.Resolve | runlib/python/pyhost/scorer.py:65-66 | The corrected resolution keeps a built suite. Wherever the as-written resolution succeeds, the corrected one gives the same suite. |
| UnitTestScoring.ResolveAsWritten | runlib/python/pyhost/scorer.py:65-66 | As written, resolution fails exactly for a built suite, and the failure is a TypeError. |
| UnitTestScoring.UnitTestScorer.FromFactory | runlib/python/pyhost/scorer.py:87-97 | FromTestCase and FromNames build a fresh scorer whose suite is deferred to a factory, with no score yet. |
| UnitTestScoring.PassRateBounds | runlib/python/pyhost/scorer.py:71-78 | When every error and failure belongs to a counted test, the pass rate is within [0, 100]. It is 100 exactly when nothing went wrong and 0 exactly when every test of a non-empty suite went wrong. |
| UnitTestScoring.PassRateIsShareOfPasses | runlib/python/pyhost/scorer.py:74-76 | With tests present, the score times the number of tests is 100 times the number of successes. Ten tests with two errors and one failure score 70. |
| UnitTestScoring.SecondRunRaisesAsWritten | runlib/python/pyhost/scorer.py:65-66 | As written, a deferred suite is built by calling its factory. A suite that is already built is also callable, and calling it raises TypeError. |
| UnitTestScoring.ResolveStable | runlib/python/pyhost/scorer.py:65-66 | With a built suite kept as it is, resolving again after a run gives the same suite and the same pass rate. |
| CodeStyleScoring.IsPyFile | runlib/python/pyhost/scorer.py:109 | A path is a Python file exactly when its last three characters are `.`, then `p` or `P`, then `y` or `Y`. |
| CodeStyleScoring.SelectFiles | runlib/python/pyhost/scorer.py:108-111 | The file list holds exactly the input paths that are not skipped and are Python files, and it is no longer than the input. |
| CodeStyleScoring.SelectFilesAppend | runlib/python/pyhost/scorer.py:110-111 | The selection keeps the input order: selecting from a concatenation concatenates the selections. |
| CodeStyleScoring.SelectFilesKeepsChecked | runlib/python/pyhost/scorer.py:110-111 | A list whose paths all pass the filter is kept whole. |
| CodeStyleScoring.SelectFilesIdempotent | runlib/python/pyhost/scorer.py:110-111 | Filtering an already filtered list changes nothing. |
| CodeStyleScoring.NoSkipKeepsPythonFiles | runlib/python/pyhost/scorer.py:108 | Without a skip predicate, exactly the Python files are kept. |
| CodeStyleScoring.CodeStyleScorer.constructor | runlib/python/pyhost/scorer.py:103-111 | The scorer's file list is the filtered input list. |
| CodeStyleScoring.StyleScoreBounds | runlib/python/pyhost/scorer.py:119-125 | The style score is within [0, 100]. It is 100 exactly when no file is in trouble and 0 exactly when all files are. Five files with one in trouble score 80. |
| CodeStyleScoring.StyleBriefRate | runlib/python/pyhost/scorer.py:127-135 | When some files are in trouble, the brief reports the share of troubled files, their count and the total. Otherwise it is the all-passed message. |
| CodeStyleScoring.CodeStyleScorer.RunBody | runlib/python/pyhost/scorer.py:113-138 | The score is the share of clean files, or 100 for no files. The brief follows the number of files in trouble. The detail is the checker's report. |
| CodeStyleScoring.CodeStyleScorer.Run | runlib/python/pyhost/scorer.py:41-51 | The style scorer never raises. It records the time and keeps the score, brief and detail of its `_run()`. |
| CoverageAnalysis.BranchPartition | runlib/python/pyhost/scorer.py:194-199 | The fully taken, not taken and partially taken branch lines of a file are disjoint and together are all its branch lines. The partial count, computed as a difference, is the number of partial lines and so is never negative. On well-formed data, a partial line took some but not all of its exits. |
| CoverageAnalysis.TallyConsistent | runlib/python/pyhost/scorer.py:181-204 | When every file's missing statements are among its statements, the totals over the files keep the missed statements within the executable ones. The taken, partial and not-taken totals then add up to the branch total. |
| CoverageAnalysis.SafeDivideQuotient | runlib/python/pyhost/scorer.py:256-259 | `safe_divide` is the quotient when the divisor is positive, and 0 otherwise. |
| CoverageAnalysis.EmptyCoverage | runlib/python/pyhost/scorer.py:261-263 | Code without statements counts as fully statement-covered. Code without branches counts as having no branch taken, fully or partially. |
| CoverageAnalysis.ShareInRange | runlib/python/pyhost/scorer.py:256-259 | A safe quotient of a part by its whole is within [0, 1]. It is 0 exactly when the part is 0, and 1 exactly when the part is a positive whole. |
| CoverageAnalysis.QuotientsInRange | runlib/python/pyhost/scorer.py:261-263 | On consistent totals, the missed, taken and partial quotients are within [0, 1], and the taken and partial quotients together are at most 1. |
| CoverageAnalysis.CoverageScoreBounds | runlib/python/pyhost/scorer.py:23-24 | On consistent totals, each rate is a percentage and the composite score is within [0, 100]. The score is 100 exactly when no statement was missed and every one of at least one branch line was fully taken. |
| CoverageAnalysis.CoverageScoreExample | runlib/python/pyhost/scorer.py:261-270 | Ten statements with three missed, and four branch lines (two taken, one partial, one not taken), give the rates 70, 50 and 25 and the score 66.25. |
| CoverageAnalysis.TallyScoreBounds | runlib/python/pyhost/scorer.py:261-270 | On well-formed analyses of any list of files, the composite score of the totals is within [0, 100]. |
| CoverageAnalysis.BranchListingCounts | runlib/python/pyhost/scorer.py:218-230 | For a file whose branch lines lie within its source, the branch listing has one `+`, `-` or `*` line per fully taken, not taken or partially taken branch line. These counts match the file's taken, not-taken and partial counts. |
| CoverageAnalysis.StatementListingCounts | runlib/python/pyhost/scorer.py:210-217 | For a file whose statements lie within its source, the statement listing has one `-` line per missed statement, the count its heading reports. It has one `+` line per executed statement. |
| CoverageAnalysis.CountMarkedLines | runlib/python/pyhost/scorer.py:207-230 | The first n listing lines carry a mark exactly as often as that mark is given to line numbers 1..n. |
| CoverageAnalysis.Annotate | runlib/python/pyhost/scorer.py:207-233 | The line-by-line loop builds both listings. There is one line per source line, numbered from 1, each the line's prefix followed by the right-stripped source line. |
| Strings.RStrip | runlib/python/pyhost/scorer.py:213 | `rstrip()` returns a prefix of the line that does not end in whitespace, and every character it drops is whitespace. |
| Strings.Lower | runlib/python/pyhost/scorer.py:109 | `lower()` keeps the length and lower-cases every character. |
| CoverageScoring.CoverageDetail | runlib/python/pyhost/scorer.py:183-254 | The detail holds two blocks per file of the list. |
| CoverageScoring.CoverageDetailAt | runlib/python/pyhost/scorer.py:235-254 | The statement listing of the k-th file is at position 2k of the detail and its branch listing at 2k + 1. |
| CoverageScoring.CoverageScorer.FileCounts | runlib/python/pyhost/scorer.py:186-199 | One file's executable, missed, branch, taken, partial and not-taken counts are the file's totals. |
| CoverageScoring.CoverageScorer.FileReport | runlib/python/pyhost/scorer.py:206-254 | One file's two detail blocks: the statement listing under a heading with the missed count, and the branch listing under a heading with the partial and not-taken counts. |
| CoverageScoring.CoverageScorer.AnalyseFiles | runlib/python/pyhost/scorer.py:181-254 | The loop over the file list. It accumulates the totals of all files and sets the detail to every file's two blocks in list order. It leaves the time, score and brief untouched. |
| CoverageScoring.CoverageScorer.CoverageRates | runlib/python/pyhost/scorer.py:256-270 | The statement cover, branch cover and partial rate of the totals, and their weighted composite score. |
| CoverageScoring.CoverageScorer.RunBody | runlib/python/pyhost/scorer.py:165-278 | The suite is built. The three rates, the score and the brief come from the totals over the file list. The detail holds the per-file listings. The time is untouched. |
| CoverageScoring.CoverageScorer.Run | runlib/python/pyhost/scorer.py:23-24 | With the corrected suite resolution, the coverage scorer completes. It records the time and keeps the three rates, the score, the brief and the detail of its `_run()`. On well-formed analyses the score is within [0, 100]. Afterwards, resolving the suite as written fails with TypeError. |
| CoverageScoring.CoverageScorer.constructor | runlib/python/pyhost/scorer.py:154-163 | A new scorer is named "Coverage Scorer" and keeps the given suite and file list. It has no results and no rates yet. |
| InputClassScoring.CoveredClassesAppend | runlib/python/pyhost/scorer.py:336-342 | Whether a class is covered depends only on which records are present: the classes covered by two parts of the data together are the union of those each part covers. |
| InputClassScoring.CoveredClassesBounded | runlib/python/pyhost/scorer.py:336-344 | No more classes are covered than there are. All of them are covered exactly when every class has a record that passes its check. |
| InputClassScoring.CollectCovered | runlib/python/pyhost/scorer.py:336-342 | The nested loop collects exactly the indices of the classes that some record passes. |
| InputClassScoring.InputClassScoreBounds | runlib/python/pyhost/scorer.py:344 | With at least one class, the score is within [0, 100] and is 100 exactly when every class is covered. Three of four classes covered score 75. |
| InputClassScoring.ClassReport | runlib/python/pyhost/scorer.py:352-362 | The report has one entry per check class in list order. An entry is tagged covered exactly when its index is covered and carries the class's description. |
| InputClassScoring.InputClassScorer.ReportClasses | runlib/python/pyhost/scorer.py:352-362 | The loop appends the class report to the detail and leaves the time, score and brief untouched. |
| InputClassScoring.InputClassScorer.Rule | runlib/python/pyhost/scorer.py:315-331 | `rule` records the description on the function itself, so `getDescription` returns it. The function is appended after the classes already registered and is returned. |
| InputClassScoring.InputClassScorer.constructor | runlib/python/pyhost/scorer.py:303-313 | A new scorer has the given check classes and no results yet. |
| InputClassScoring.InputClassScorer.RunBody | runlib/python/pyhost/scorer.py:333-372 | A KeyError or ValueError from the loader becomes a `ScorerFailure` carrying the schema-mismatch brief, the exception's first argument and score 0. Any other loader exception escapes, as does the division by zero of an empty class list; both leave the detail empty. Otherwise the score is the covered percentage, the brief carries the counts and the detail is the class report. |
| InputClassScoring.InputClassScorer.Run | runlib/python/pyhost/scorer.py:41-51 | A schema mismatch ends with score 0, the mismatch brief, the exception's argument as detail and no time. Other exceptions escape with an empty detail, the score and brief left as they were, and no time. A completed run records the time, the covered percentage, the brief with the covered and total counts, and the class report. |
| InputClassScoring.GetDescription | runlib/python/pyhost/scorer.py:315-322 | The description set on the function comes first. Without one, the function's name is used. Without either, its string form is used. |

## Left out

- Running unittest suites, the PEP8 checker, coverage.py's tracing and
  analysis, and the CSV schema loader is outside the model. Their results
  are inputs, as described above.
- Translation and rendering of messages (`lazy_gettext`, `%.2f`) are left
  out. Briefs and details are template names with their parameters.
- The unused keyword arguments of two templates are not modelled. They are
  the time passed to the unit-test brief, and the missed and taken counts
  passed to the branch-listing heading.
- The wall clock is left out. The time `run()` records is a parameter.
- File I/O is not modelled. This covers `cov.xml_report` to `/tmp/hello.xml`
  and reading each covered file, whose lines are part of the analysis
  input.
- `UnitTestScorer.FromTestCase` and `FromNames` are modelled as one
  factory-taking constructor, `FromFactory`. The test loader is not part of
  this model.
- `CodeStyleScorer.FromHandinDir` and `CoverageScorer.FromHandinDir` are left
  out. They scan the directory tree and match test modules with a regular
  expression, and neither is part of this model.
- Exceptions raised by the tools themselves are not modelled: a test run,
  the PEP8 checker, coverage.py, opening a source file, or a check function
  called on a record. Only the loader's exception is.
- `CoverageScoring.CoverageScorer.constructor`: the source sets `brief` to
  an empty list here, and the model leaves it unset. A completed run
  overwrites the brief either way. If `_run()` raises, the source keeps the
  empty list while the model keeps no brief.
- `UnitTestScoring.UnitTestScorer.RunBody` uses the corrected suite
  resolution. As written, a built suite or a second run raises TypeError
  out of `_run()` (see "## Findings").
- `UnitTestScoring.UnitTestScorer.Run` uses the corrected suite resolution.
  It therefore completes where the source's `run()` lets that TypeError
  escape with the score unset. Its contract states that a second run as
  written would fail.
- `CoverageScoring.CoverageScorer.RunBody` uses the corrected suite
  resolution. As written, the same TypeError is raised at the start of
  `_run()`.
- `CoverageScoring.CoverageScorer.Run` uses the corrected suite resolution
  and completes where the source's `run()` lets that TypeError escape.
- Scores and rates are exact rationals (`real`). The source computes IEEE
  double-precision floats, whose rounding the model does not reproduce.
  For example, the float composite score could land a rounding error away
  from a bound that holds exactly.
- `ScorerBase.Scorer.Finish`: the default score of a `ScorerFailure` is
  taken as 0. The exception's module, `errors.py`, is not part of this
  model. The schema-mismatch failure relies on this default.
- `UnitTestScoring.PassRateBounds` assumes the errors and failures are at
  most the number of tests. unittest does not promise this: an error in a
  class or module fixture is reported without a counted test.
- `Strings.Lower`: only ASCII letters are lower-cased, which is what
  `str.lower()` does on the byte strings of Python 2 without a locale.
- The weighted aggregation of several scorers (`SafeRunner`) is not part
  of this model. The homework configuration script only lists scorers and
  their weights.
- The web forms, the gravatar helper and the key generation script are
  outside the grading engine.

## Findings

| source | as written | input that shows it | evidently intended | confidence | as-written member | corrected member |
|---|---|---|---|---|---|---|
| runlib/python/pyhost/scorer.py:65-66 and 170-171 | `callable(self.suite)` decides whether to build the suite, but a unittest `TestSuite` is callable too. Calling it with no argument forwards to `run(result)` and raises TypeError. | A scorer constructed with a built suite, or any scorer whose `run()` is called a second time after its factory was replaced by the suite. | Build the suite only when a factory was given, and keep a built suite as it is. | medium; not executed | UnitTestScoring.SecondRunRaisesAsWritten | UnitTestScoring.ResolveStable |
