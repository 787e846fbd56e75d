/** CodeStyleScorer (runlib/python/pyhost/scorer.py:100-148): the score is the
    share of Python files in which the PEP8 checker finds nothing. The checker
    itself is outside the model; it contributes the number of files in trouble
    and its report. */
module CodeStyleScoring {
  import opened ScorerBase
  import opened Strings

  /** `p[-3:].lower() == '.py'`. */
  function IsPyFile(p: string): (b: bool)
    ensures b <==> |p| >= 3 && p[|p| - 3] == '.' && p[|p| - 2] in "pP" && p[|p| - 1] in "yY"
  {
    Lower(if |p| >= 3 then p[|p| - 3..] else p) == ".py"
  }

  /** `skipfile or (lambda path: False)`: without a predicate nothing is skipped. */
  function SkipPredicate(skipfile: Option<string -> bool>): string -> bool {
    if skipfile.Some? then skipfile.value else (p: string) => false
  }

  predicate Checked(skip: string -> bool, p: string) {
    !skip(p) && IsPyFile(p)
  }

  /** The list comprehension that builds self.filelist. */
  function SelectFiles(paths: seq<string>, skip: string -> bool): (r: seq<string>)
    ensures |r| <= |paths|
    ensures forall p :: p in r <==> p in paths && Checked(skip, p)
  {
    if paths == [] then []
    else (if Checked(skip, paths[0]) then [paths[0]] else []) + SelectFiles(paths[1..], skip)
  }

  /** Selection keeps the order of the input: selecting from a concatenation
      concatenates the selections. */
  lemma {:induction false} SelectFilesAppend(a: seq<string>, b: seq<string>, skip: string -> bool)
    ensures SelectFiles(a + b, skip) == SelectFiles(a, skip) + SelectFiles(b, skip)
  {
    if a == [] {
      assert a + b == b;
    } else {
      assert (a + b)[0] == a[0];
      assert (a + b)[1..] == a[1..] + b;
      SelectFilesAppend(a[1..], b, skip);
    }
  }

  /** Selecting again from a selection changes nothing, and a list of checked
      files is kept whole. */
  lemma {:induction false} SelectFilesKeepsChecked(paths: seq<string>, skip: string -> bool)
    requires forall k :: 0 <= k < |paths| ==> Checked(skip, paths[k])
    ensures SelectFiles(paths, skip) == paths
  {
    if paths != [] {
      SelectFilesKeepsChecked(paths[1..], skip);
    }
  }

  lemma SelectFilesIdempotent(paths: seq<string>, skip: string -> bool)
    ensures SelectFiles(SelectFiles(paths, skip), skip) == SelectFiles(paths, skip)
  {
    var r := SelectFiles(paths, skip);
    forall k | 0 <= k < |r| ensures Checked(skip, r[k]) {
      assert r[k] in r;
    }
    SelectFilesKeepsChecked(r, skip);
  }

  /** Without a skip predicate exactly the Python files are kept. */
  lemma NoSkipKeepsPythonFiles(paths: seq<string>)
    ensures forall p :: p in SelectFiles(paths, SkipPredicate(None)) <==> p in paths && IsPyFile(p)
  {
  }

  /** The score of scorer.py:120-125; no files to check scores 100. */
  function StyleScore(total: nat, trouble: nat): real {
    if total > 0 then 100.0 * (total - trouble) as real / total as real else 100.0
  }

  /** The brief of scorer.py:128-135: the rate of failing files when some fail. */
  function StyleBrief(total: nat, trouble: nat): Message {
    if trouble > 0 then StyleFailed(100.0 - StyleScore(total, trouble), trouble, total)
    else StyleAllPassed
  }

  /** With no more troubled files than files, the score is a percentage that is
      100 exactly when no file is in trouble and 0 exactly when all are. Five
      files with one in trouble score 80. */
  lemma StyleScoreBounds(total: nat, trouble: nat)
    requires trouble <= total
    ensures 0.0 <= StyleScore(total, trouble) <= 100.0
    ensures StyleScore(total, trouble) == 100.0 <==> trouble == 0
    ensures StyleScore(total, trouble) == 0.0 <==> total > 0 && trouble == total
    ensures total == 5 && trouble == 1 ==> StyleScore(total, trouble) == 80.0
  {
    if total > 0 {
      PercentOf((total - trouble) as real, total as real);
    }
  }

  /** The brief reports the share of troubled files when there are some and the
      all-passed message otherwise. */
  lemma StyleBriefRate(total: nat, trouble: nat)
    requires trouble <= total
    ensures trouble == 0 ==> StyleBrief(total, trouble) == StyleAllPassed
    ensures trouble > 0 ==>
      StyleBrief(total, trouble).StyleFailed? &&
      StyleBrief(total, trouble).trouble == trouble &&
      StyleBrief(total, trouble).total == total &&
      StyleBrief(total, trouble).rate * total as real == 100.0 * trouble as real
  {
    if trouble > 0 {
      var s := StyleScore(total, trouble);
      assert s * total as real == 100.0 * (total - trouble) as real;
    }
  }

  class CodeStyleScorer {
    const base: Scorer
    const filelist: seq<string>

    constructor (paths: seq<string>, skipfile: Option<string -> bool>)
      ensures fresh(base) && base.name == "CodeStyle Scorer"
      ensures base.time == None && base.score == None && base.brief == None && base.detail == None
      ensures filelist == SelectFiles(paths, SkipPredicate(skipfile))
    {
      base := new Scorer("CodeStyle Scorer");
      filelist := SelectFiles(paths, SkipPredicate(skipfile));
    }

    /** _run(): `trouble` is the number of files the PEP8 checker found
        violations in and `report` its report. */
    method RunBody(trouble: nat, report: seq<Message>) returns (c: Completion)
      modifies base
      ensures c == Normal
      ensures base.score == Some(StyleScore(|filelist|, trouble))
      ensures base.brief == Some(StyleBrief(|filelist|, trouble))
      ensures base.detail == Some(report)
      ensures base.time == old(base.time)
    {
      var totalFile := |filelist|;
      if totalFile > 0 {
        base.score := Some(100.0 * (totalFile - trouble) as real / totalFile as real);
      } else {
        base.score := Some(100.0);
      }
      if trouble > 0 {
        base.brief := Some(StyleFailed(100.0 - base.score.value, trouble, totalFile));
      } else {
        base.brief := Some(StyleAllPassed);
      }
      base.detail := Some(report);
      c := Normal;
    }

    method Run(trouble: nat, report: seq<Message>, elapsed: real) returns (escaped: Option<Exception>)
      modifies base
      ensures escaped == None
      ensures base.score == Some(StyleScore(|filelist|, trouble))
      ensures base.brief == Some(StyleBrief(|filelist|, trouble))
      ensures base.detail == Some(report)
      ensures base.time == Some(elapsed)
    {
      var c := RunBody(trouble, report);
      escaped := base.Finish(c, elapsed);
    }
  }
}
