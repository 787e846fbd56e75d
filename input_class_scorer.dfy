/** InputClassScorer (runlib/python/pyhost/scorer.py:300-372): scores black-box
    test data by the share of input classes it covers. Each input class is a
    check function over a record; a class is covered when some record of the data
    passes its check. Parsing the data against its schema is outside the model:
    it is given as the records the loader yields and the error it stops with. */
module InputClassScoring {
  import opened ScorerBase

  /** A check function. It is an object because rule() sets an attribute on the
      function itself, which every reference to that function then sees. */
  class CheckFunction<R> {
    const test: R -> bool
    const funcName: Option<string>    // the function's __name__, if it has one
    const text: string                // what str() gives for it
    var description: Option<string>   // the attribute rule() sets

    constructor (test: R -> bool, funcName: Option<string>, text: string)
      ensures this.test == test && this.funcName == funcName && this.text == text
      ensures description == None
    {
      this.test := test;
      this.funcName := funcName;
      this.text := text;
      description := None;
    }
  }

  /** getDescription: the description set by rule(), else the function's name,
      else its string form. */
  function GetDescription<R>(c: CheckFunction<R>): (r: string)
    reads c
    ensures c.description.Some? ==> r == c.description.value
    ensures c.description.None? && c.funcName.Some? ==> r == c.funcName.value
    ensures c.description.None? && c.funcName.None? ==> r == c.text
  {
    if c.description.Some? then c.description.value
    else if c.funcName.Some? then c.funcName.value
    else c.text
  }

  /** What the loader yields: the records it parsed, in order, and the exception
      it raised when it stopped early, if it did. */
  datatype CsvLoad<R> = CsvLoad(records: seq<R>, error: Option<Exception>)

  /** ex.args[0] of an exception. */
  function FirstArg(e: Exception): string {
    match e
    case KeyError(k) => k
    case ValueError(r) => r
    case TypeError(r) => r
    case ZeroDivisionError => "float division by zero"
    case OtherError(r) => r
  }

  /** Some record of the data passes the check. */
  predicate Covers<R>(records: seq<R>, check: CheckFunction<R>) {
    exists k :: 0 <= k < |records| && check.test(records[k])
  }

  /** The indices of the check functions that at least one record passes. */
  function CoveredClasses<R>(records: seq<R>, checks: seq<CheckFunction<R>>): set<nat> {
    set i: nat | i < |checks| && Covers(records, checks[i])
  }

  /** Whether a class is covered depends only on which records there are:
      splitting the data splits the covered classes. */
  lemma CoveredClassesAppend<R>(a: seq<R>, b: seq<R>, checks: seq<CheckFunction<R>>)
    ensures CoveredClasses(a + b, checks) == CoveredClasses(a, checks) + CoveredClasses(b, checks)
  {
    forall i: nat | i in CoveredClasses(a + b, checks)
      ensures i in CoveredClasses(a, checks) + CoveredClasses(b, checks)
    {
      var k :| 0 <= k < |a + b| && checks[i].test((a + b)[k]);
      if k < |a| {
        assert (a + b)[k] == a[k];
      } else {
        assert (a + b)[k] == b[k - |a|];
      }
    }
    forall i: nat | i in CoveredClasses(a, checks)
      ensures i in CoveredClasses(a + b, checks)
    {
      var k :| 0 <= k < |a| && checks[i].test(a[k]);
      assert (a + b)[k] == a[k];
    }
    forall i: nat | i in CoveredClasses(b, checks)
      ensures i in CoveredClasses(a + b, checks)
    {
      var k :| 0 <= k < |b| && checks[i].test(b[k]);
      assert (a + b)[|a| + k] == b[k];
    }
  }

  /** The indices 0 .. n - 1. */
  function Indices(n: nat): (r: set<nat>)
    ensures forall i :: i in r <==> 0 <= i < n
    ensures |r| == n
  {
    if n == 0 then {} else Indices(n - 1) + {n - 1}
  }

  lemma SubsetCardNat(x: set<nat>, y: set<nat>)
    requires x <= y
    ensures |x| <= |y|
    ensures |x| == |y| ==> x == y
  {
    assert y == x + (y - x);
    assert |y| == |x| + |y - x|;
    if |x| == |y| {
      assert |y - x| == 0;
    }
  }

  /** No more classes are covered than there are, and all of them are covered
      exactly when every class has a record that passes its check. */
  lemma CoveredClassesBounded<R>(records: seq<R>, checks: seq<CheckFunction<R>>)
    ensures |CoveredClasses(records, checks)| <= |checks|
    ensures |CoveredClasses(records, checks)| == |checks| <==>
      forall i :: 0 <= i < |checks| ==> Covers(records, checks[i])
  {
    var covered := CoveredClasses(records, checks);
    SubsetCardNat(covered, Indices(|checks|));
    if forall i :: 0 <= i < |checks| ==> Covers(records, checks[i]) {
      assert covered == Indices(|checks|);
    }
    if |covered| == |checks| {
      assert covered == Indices(|checks|);
      forall i | 0 <= i < |checks|
        ensures Covers(records, checks[i])
      {
        assert i in Indices(|checks|);
      }
    }
  }

  /** The nested loop of scorer.py:336-342: every record is offered to every
      check function, and the index of each one it passes is added. */
  method CollectCovered<R>(records: seq<R>, checks: seq<CheckFunction<R>>) returns (covered: set<nat>)
    ensures covered == CoveredClasses(records, checks)
  {
    covered := {};
    for k := 0 to |records|
      invariant covered == CoveredClasses(records[..k], checks)
    {
      var obj := records[k];
      for i := 0 to |checks|
        invariant covered == CoveredClasses(records[..k], checks)
                             + (set j: nat | j < i && checks[j].test(obj))
      {
        if checks[i].test(obj) {
          covered := covered + {i};
        }
      }
      assert records[..k + 1] == records[..k] + [obj];
      CoveredClassesAppend(records[..k], [obj], checks);
    }
    assert records[..|records|] == records;
  }

  /** The score of scorer.py:344; the division needs at least one class. */
  function InputClassScore(cover: nat, total: nat): real
    requires total > 0
  {
    100.0 * cover as real / total as real
  }

  /** With at least one class, the score is the covered percentage: within
      [0, 100], and 100 exactly when every class is covered. Data covering three
      of four classes scores 75. */
  lemma InputClassScoreBounds<R>(records: seq<R>, checks: seq<CheckFunction<R>>)
    requires |checks| > 0
    ensures var s := InputClassScore(|CoveredClasses(records, checks)|, |checks|);
      0.0 <= s <= 100.0 &&
      (s == 100.0 <==> forall i :: 0 <= i < |checks| ==> Covers(records, checks[i])) &&
      (|checks| == 4 && |CoveredClasses(records, checks)| == 3 ==> s == 75.0)
  {
    var c, n := |CoveredClasses(records, checks)|, |checks|;
    CoveredClassesBounded(records, checks);
    PercentOf(c as real, n as real);
  }

  /** The detail of scorer.py:352-362: one entry per check function, in list
      order, tagged as covered exactly when its index is. */
  function ClassReport<R>(checks: seq<CheckFunction<R>>, covered: set<nat>): (r: seq<Message>)
    reads checks
    ensures |r| == |checks|
    ensures forall i :: 0 <= i < |checks| ==>
      r[i] == if i in covered then Covered(GetDescription(checks[i]))
              else NotCovered(GetDescription(checks[i]))
  {
    if checks == [] then []
    else
      var last := |checks| - 1;
      ClassReport(checks[..last], covered)
      + [if last in covered then Covered(GetDescription(checks[last]))
         else NotCovered(GetDescription(checks[last]))]
  }

  class InputClassScorer<R> {
    const base: Scorer
    var checkClasses: seq<CheckFunction<R>>

    /** `check_classes or []`: a missing list is an empty one. */
    constructor (checkClasses: seq<CheckFunction<R>>)
      ensures fresh(base) && base.name == "InputClass Scorer"
      ensures base.time == None && base.score == None && base.brief == None && base.detail == None
      ensures this.checkClasses == checkClasses
    {
      base := new Scorer("InputClass Scorer");
      this.checkClasses := checkClasses;
    }

    /** rule(description) applied to `check`: records the description on the
        function and appends it to the check classes, after those already there. */
    method Rule(description: string, check: CheckFunction<R>) returns (registered: CheckFunction<R>)
      modifies this, check
      ensures registered == check
      ensures check.description == Some(description) && GetDescription(check) == description
      ensures checkClasses == old(checkClasses) + [check]
    {
      check.description := Some(description);
      checkClasses := checkClasses + [check];
      registered := check;
    }

    /** The loop of scorer.py:352-362: appends one detail entry per check class,
        in list order. */
    method ReportClasses(covered: set<nat>)
      requires base.detail.Some?
      modifies base
      ensures base.detail == Some(old(base.detail.value) + ClassReport(checkClasses, covered))
      ensures base.time == old(base.time) && base.score == old(base.score) && base.brief == old(base.brief)
    {
      var entries := [];
      for i := 0 to |checkClasses|
        invariant entries == ClassReport(checkClasses[..i], covered)
      {
        var check := checkClasses[i];
        assert checkClasses[..i + 1][..i] == checkClasses[..i];
        assert checkClasses[..i + 1][i] == check;
        if i in covered {
          entries := entries + [Covered(GetDescription(check))];
        } else {
          entries := entries + [NotCovered(GetDescription(check))];
        }
      }
      assert checkClasses[..|checkClasses|] == checkClasses;
      base.detail := Some(base.detail.value + entries);
    }

    /** _run() on what the loader yields. A KeyError or ValueError from the
        loader becomes a ScorerFailure with score 0; any other exception, and the
        division by zero of an empty list of check classes, escapes. */
    method RunBody(load: CsvLoad<R>) returns (c: Completion)
      modifies base
      ensures base.time == old(base.time)
      ensures !c.Normal? ==> base.detail == Some([]) && base.score == old(base.score) && base.brief == old(base.brief)
      ensures load.error.Some? && (load.error.value.KeyError? || load.error.value.ValueError?) ==>
        c == Failure(ScorerFailure(SchemaMismatch, [Text(FirstArg(load.error.value))], 0.0))
      ensures load.error.Some? && !load.error.value.KeyError? && !load.error.value.ValueError? ==>
        c == Raised(load.error.value)
      ensures load.error.None? && |checkClasses| == 0 ==> c == Raised(ZeroDivisionError)
      ensures load.error.None? && |checkClasses| > 0 ==>
        var covered := CoveredClasses(load.records, checkClasses);
        var rate := InputClassScore(|covered|, |checkClasses|);
        c == Normal &&
        base.score == Some(rate) &&
        base.brief == Some(InputClassesCovered(rate, |covered|, |checkClasses|)) &&
        base.detail == Some(ClassReport(checkClasses, covered))
    {
      base.detail := Some([]);
      var covered := CollectCovered(load.records, checkClasses);
      if load.error.Some? {
        var e := load.error.value;
        if e.KeyError? || e.ValueError? {
          c := Failure(ScorerFailure(SchemaMismatch, [Text(FirstArg(e))], 0.0));
        } else {
          c := Raised(e);
        }
        return;
      }
      if |checkClasses| == 0 {
        c := Raised(ZeroDivisionError);
        return;
      }
      var rate := 100.0 * |covered| as real / |checkClasses| as real;
      base.score := Some(rate);
      base.brief := Some(InputClassesCovered(rate, |covered|, |checkClasses|));
      c := Normal;
      ReportClasses(covered);
      assert [] + ClassReport(checkClasses, covered) == ClassReport(checkClasses, covered);
    }

    /** run(): a schema mismatch is reported with score 0 and no time; any
        other exception escapes with the fields as _run() left them. */
    method Run(load: CsvLoad<R>, elapsed: real) returns (escaped: Option<Exception>)
      modifies base
      ensures load.error.Some? && (load.error.value.KeyError? || load.error.value.ValueError?) ==>
        escaped == None && base.time == old(base.time) &&
        base.score == Some(0.0) && base.brief == Some(SchemaMismatch) &&
        base.detail == Some([Text(FirstArg(load.error.value))])
      ensures load.error.Some? && !load.error.value.KeyError? && !load.error.value.ValueError? ==>
        escaped == load.error && base.time == old(base.time) && base.detail == Some([]) &&
        base.score == old(base.score) && base.brief == old(base.brief)
      ensures load.error.None? && |checkClasses| == 0 ==>
        escaped == Some(ZeroDivisionError) && base.time == old(base.time) && base.detail == Some([]) &&
        base.score == old(base.score) && base.brief == old(base.brief)
      ensures load.error.None? && |checkClasses| > 0 ==>
        var covered := CoveredClasses(load.records, checkClasses);
        var rate := InputClassScore(|covered|, |checkClasses|);
        escaped == None && base.time == Some(elapsed) &&
        base.score == Some(rate) &&
        base.brief == Some(InputClassesCovered(rate, |covered|, |checkClasses|)) &&
        base.detail == Some(ClassReport(checkClasses, covered))
    {
      var c := RunBody(load);
      escaped := base.Finish(c, elapsed);
    }
  }
}
