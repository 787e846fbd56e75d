/** UnitTestScorer (runlib/python/pyhost/scorer.py:54-97): the score is the share
    of unit tests that pass. Running the student's tests is outside the model: a
    built suite is represented by what running it reports. */
module UnitTestScoring {
  import opened ScorerBase

  /** A built unittest suite, by what running it reports: countTestCases(), the
      number of entries in the result's errors and failures lists, and the
      result's formatted detail blocks. */
  datatype TestSuite = TestSuite(total: nat, errors: nat, failures: nat, details: seq<Message>)

  /** The constructor's argument: a built suite, or a factory that builds one
      when the scorer runs. */
  datatype Suite = Eager(suite: TestSuite) | Deferred(factory: () -> TestSuite)

  /** What `callable(self.suite)` followed by `self.suite = self.suite()` is meant
      to do: call a factory, keep a built suite. */
  function Resolve(s: Suite): (r: TestSuite)
    ensures ResolveAsWritten(s).Resolved? ==> r == ResolveAsWritten(s).suite
    ensures s.Eager? ==> r == s.suite
  {
    match s
    case Eager(t) => t
    case Deferred(f) => f()
  }

  datatype Resolution = Resolved(suite: TestSuite) | Fails(error: Exception)

  /** The same step as written (scorer.py:65-66 and 170-171). A unittest TestSuite
      is itself callable: calling it with no arguments forwards to run(result),
      which raises TypeError for the missing result argument. */
  function ResolveAsWritten(s: Suite): (r: Resolution)
    ensures r.Fails? <==> s.Eager?
    ensures r.Fails? ==> r.error.TypeError?
  {
    match s
    case Eager(t) => Fails(TypeError("run() takes at least 2 arguments (1 given)"))
    case Deferred(f) => Resolved(f())
  }

  /** As written, a scorer whose suite was built eagerly, or whose factory was
      already resolved by an earlier run(), raises TypeError on the next run(). */
  lemma SecondRunRaisesAsWritten(f: () -> TestSuite)
    ensures ResolveAsWritten(Deferred(f)) == Resolved(f())
    ensures ResolveAsWritten(Eager(f())).Fails?
    ensures ResolveAsWritten(Eager(f())).error.TypeError?
  {
  }

  /** With the intended resolution, resolving again after a run gives the same
      suite, so a second run() reports the same score and brief. */
  lemma ResolveStable(s: Suite)
    ensures Resolve(Eager(Resolve(s))) == Resolve(s)
    ensures PassRate(Resolve(Eager(Resolve(s)))) == PassRate(Resolve(s))
  {
  }

  /** Tests that neither failed nor raised an error. */
  function Successes(t: TestSuite): int {
    t.total - (t.errors + t.failures)
  }

  /** The score of scorer.py:74-78; a suite without tests scores 100. */
  function PassRate(t: TestSuite): real {
    if t.total > 0 then 100.0 * Successes(t) as real / t.total as real else 100.0
  }

  /** When every error and failure belongs to a counted test, the score is a
      percentage; it is 100 exactly when nothing went wrong and 0 exactly when
      every test of a non-empty suite went wrong. */
  lemma PassRateBounds(t: TestSuite)
    requires t.errors + t.failures <= t.total
    ensures 0.0 <= PassRate(t) <= 100.0
    ensures PassRate(t) == 100.0 <==> t.errors + t.failures == 0
    ensures PassRate(t) == 0.0 <==> t.total > 0 && t.errors + t.failures == t.total
  {
    if t.total > 0 {
      PercentOf(Successes(t) as real, t.total as real);
    }
  }

  /** The score is the pass rate: multiplied by the number of tests it gives
      100 times the number of passing tests. Ten tests with two errors and one
      failure score 70. */
  lemma PassRateIsShareOfPasses(t: TestSuite)
    requires t.total > 0
    ensures PassRate(t) * t.total as real == 100.0 * Successes(t) as real
    ensures t == TestSuite(10, 2, 1, t.details) ==> PassRate(t) == 70.0
  {
  }

  class UnitTestScorer {
    const base: Scorer
    var suite: Suite

    constructor (suite: Suite)
      ensures fresh(base) && base.name == "Functionality Scorer"
      ensures base.time == None && base.score == None && base.brief == None && base.detail == None
      ensures this.suite == suite
    {
      base := new Scorer("Functionality Scorer");
      this.suite := suite;
    }

    /** FromTestCase and FromNames: both defer building the suite to run time. */
    static method FromFactory(build: () -> TestSuite) returns (s: UnitTestScorer)
      ensures fresh(s) && fresh(s.base) && s.suite == Deferred(build)
      ensures s.base.time == None && s.base.score == None
    {
      s := new UnitTestScorer(Deferred(build));
    }

    /** _run(): build the suite if it is deferred, run it, and write the pass
        rate, the brief and the result's details. */
    method RunBody() returns (c: Completion)
      modifies this, base
      ensures c == Normal
      ensures suite == Eager(Resolve(old(suite)))
      ensures var t := Resolve(old(suite));
        base.score == Some(PassRate(t)) &&
        base.brief == Some(TestsPassed(PassRate(t), Successes(t), t.total)) &&
        base.detail == Some(t.details)
      ensures base.time == old(base.time)
    {
      var t := Resolve(suite);
      suite := Eager(t);
      var total := t.total;
      var success := total - (t.errors + t.failures);
      if total > 0 {
        base.score := Some(100.0 * success as real / total as real);
      } else {
        base.score := Some(100.0);
      }
      base.brief := Some(TestsPassed(base.score.value, success, total));
      base.detail := Some(t.details);
      c := Normal;
    }

    /** run(): the scorer always completes and records the time. */
    method Run(elapsed: real) returns (escaped: Option<Exception>)
      modifies this, base
      ensures escaped == None
      ensures suite == Eager(Resolve(old(suite)))
      ensures var t := Resolve(old(suite));
        base.score == Some(PassRate(t)) &&
        base.brief == Some(TestsPassed(PassRate(t), Successes(t), t.total)) &&
        base.detail == Some(t.details)
      ensures base.time == Some(elapsed)
      ensures ResolveAsWritten(suite).Fails? && ResolveAsWritten(suite).error.TypeError?
    {
      var c := RunBody();
      escaped := base.Finish(c, elapsed);
    }
  }
}
