/** CoverageScorer (runlib/python/pyhost/scorer.py:151-297): runs the student's
    tests under branch coverage and scores how thoroughly they exercise the
    files in its list. Running the tests and coverage.py's analysis are outside
    the model: the analysis of each file is given as a function of its name. */
module CoverageScoring {
  import opened ScorerBase
  import opened Strings
  import opened CoverageAnalysis
  import opened UnitTestScoring

  /** The two detail blocks of one file: the statement listing under a heading
      with the number of missed statements, and the branch listing under a
      heading with the partial and not-taken counts. */
  function FileDetail(filename: string, fc: FileCoverage): seq<Message> {
    [StatementsListing(filename, |fc.missing|, Join(StatementListing(fc), "\n")),
     BranchesListing(filename, FilePartial(fc.branches), FileNotTaken(fc.branches),
                     Join(BranchListing(fc), "\n"))]
  }

  /** self.detail after the loop has visited `files`: two blocks per file, in
      the order of the file list. */
  function CoverageDetail(files: seq<string>, analysis: string -> FileCoverage): (r: seq<Message>)
    ensures |r| == 2 * |files|
  {
    if files == [] then []
    else CoverageDetail(files[..|files| - 1], analysis)
         + FileDetail(files[|files| - 1], analysis(files[|files| - 1]))
  }

  /** The blocks of the k-th file of the list are at positions 2k and 2k + 1. */
  lemma {:induction false} CoverageDetailAt(files: seq<string>, analysis: string -> FileCoverage, k: nat)
    requires k < |files|
    ensures CoverageDetail(files, analysis)[2 * k] == FileDetail(files[k], analysis(files[k]))[0]
    ensures CoverageDetail(files, analysis)[2 * k + 1] == FileDetail(files[k], analysis(files[k]))[1]
  {
    var init := files[..|files| - 1];
    if k < |files| - 1 {
      CoverageDetailAt(init, analysis, k);
    }
  }

  class CoverageScorer {
    const base: Scorer
    var suite: Suite
    const filelist: seq<string>
    var stmtCover: Option<real>
    var branchCover: Option<real>
    var branchPartial: Option<real>

    constructor (suite: Suite, filelist: seq<string>)
      ensures fresh(base) && base.name == "Coverage Scorer"
      ensures base.time == None && base.score == None && base.brief == None && base.detail == None
      ensures this.suite == suite && this.filelist == filelist
      ensures stmtCover == None && branchCover == None && branchPartial == None
    {
      base := new Scorer("Coverage Scorer");
      this.suite := suite;
      this.filelist := filelist;
      stmtCover, branchCover, branchPartial := None, None, None;
    }

    /** The statement and branch counts of one file (scorer.py:186-199). */
    static method FileCounts(fc: FileCoverage)
      returns (exec: nat, miss: nat, branch: nat, taken: nat, partial: int, notaken: nat)
      ensures Totals(exec, miss, branch, taken, partial, notaken) == FileTotals(fc)
    {
      exec, miss := |fc.statements|, |fc.missing|;
      branch := |fc.branches|;
      taken := FileTaken(fc.branches);
      notaken := FileNotTaken(fc.branches);
      partial := branch - taken - notaken;
    }

    /** The two detail blocks of one file (scorer.py:206-254). */
    static method FileReport(filename: string, fc: FileCoverage, partial: int, notaken: nat)
      returns (entries: seq<Message>)
      requires partial == FilePartial(fc.branches) && notaken == FileNotTaken(fc.branches)
      ensures entries == FileDetail(filename, fc)
    {
      var stmtText, branchText := Annotate(fc);
      entries := [StatementsListing(filename, |fc.missing|, Join(stmtText, "\n")),
                  BranchesListing(filename, partial, notaken, Join(branchText, "\n"))];
    }

    /** The loop of _run() over the file list: accumulates the statement and
        branch totals and appends each file's two listings to the detail. */
    method AnalyseFiles(analysis: string -> FileCoverage) returns (t: Totals)
      modifies base
      ensures t == Tally(filelist, analysis)
      ensures base.detail == Some(CoverageDetail(filelist, analysis))
      ensures base.time == old(base.time) && base.score == old(base.score) && base.brief == old(base.brief)
    {
      var totalExec: nat, totalMiss: nat := 0, 0;
      var totalBranch: nat, totalTaken: nat, totalPartial: int, totalNotTaken: nat := 0, 0, 0, 0;
      base.detail := Some([]);
      for i := 0 to |filelist|
        invariant base.time == old(base.time) && base.score == old(base.score) && base.brief == old(base.brief)
        invariant Totals(totalExec, totalMiss, totalBranch, totalTaken, totalPartial, totalNotTaken)
                  == Tally(filelist[..i], analysis)
        invariant base.detail == Some(CoverageDetail(filelist[..i], analysis))
      {
        var filename := filelist[i];
        var fc := analysis(filename);
        var exec, miss, fileBranch, fileTaken, filePartial, fileNotTaken := FileCounts(fc);
        totalExec, totalMiss := totalExec + exec, totalMiss + miss;
        totalBranch := totalBranch + fileBranch;
        totalTaken := totalTaken + fileTaken;
        totalPartial := totalPartial + filePartial;
        totalNotTaken := totalNotTaken + fileNotTaken;
        var entries := FileReport(filename, fc, filePartial, fileNotTaken);
        base.detail := Some(base.detail.value + entries);
        assert filelist[..i + 1][..i] == filelist[..i];
      }
      assert filelist[..|filelist|] == filelist;
      t := Totals(totalExec, totalMiss, totalBranch, totalTaken, totalPartial, totalNotTaken);
    }

    /** The three rates of scorer.py:261-263 and the composite score of
        scorer.py:264-266, from the totals. */
    static method CoverageRates(t: Totals) returns (stmt: real, branch: real, partial: real, score: real)
      ensures stmt == StatementCover(t) && branch == BranchCover(t) && partial == BranchPartialRate(t)
      ensures score == CoverageScore(t)
    {
      stmt := 100.0 - 100.0 * SafeDivide(t.miss, t.exec);
      branch := 100.0 * SafeDivide(t.taken, t.branch);
      partial := 100.0 * SafeDivide(t.partial, t.branch);
      score := stmt * 0.5 + branch * 0.5 + partial * 0.25;
    }

    /** _run(): build the suite if it is deferred; `analysis` is what coverage.py
        recorded for each file while the suite ran. The totals, the three rates,
        the score and the per-file listings are written in file-list order. */
    method RunBody(analysis: string -> FileCoverage) returns (c: Completion)
      modifies this, base
      ensures c == Normal
      ensures suite == Eager(Resolve(old(suite)))
      ensures var t := Tally(filelist, analysis);
        stmtCover == Some(StatementCover(t)) &&
        branchCover == Some(BranchCover(t)) &&
        branchPartial == Some(BranchPartialRate(t)) &&
        base.score == Some(CoverageScore(t)) &&
        base.brief == Some(CoverageSummary(StatementCover(t), BranchCover(t), BranchPartialRate(t)))
      ensures base.detail == Some(CoverageDetail(filelist, analysis))
      ensures base.time == old(base.time)
    {
      suite := Eager(Resolve(suite));
      var t := AnalyseFiles(analysis);
      var stmt, branch, partial, score := CoverageRates(t);
      stmtCover, branchCover, branchPartial := Some(stmt), Some(branch), Some(partial);
      base.score := Some(score);
      base.brief := Some(CoverageSummary(stmt, branch, partial));
      c := Normal;
    }

    /** run(): the scorer always completes; on well-formed analyses its score
        is within [0, 100]. */
    method Run(analysis: string -> FileCoverage, elapsed: real) returns (escaped: Option<Exception>)
      modifies this, base
      ensures escaped == None
      ensures suite == Eager(Resolve(old(suite)))
      ensures var t := Tally(filelist, analysis);
        stmtCover == Some(StatementCover(t)) &&
        branchCover == Some(BranchCover(t)) &&
        branchPartial == Some(BranchPartialRate(t)) &&
        base.score == Some(CoverageScore(t)) &&
        base.brief == Some(CoverageSummary(StatementCover(t), BranchCover(t), BranchPartialRate(t)))
      ensures (forall f :: f in filelist ==> WellFormed(analysis(f))) ==>
        0.0 <= base.score.value <= 100.0
      ensures base.detail == Some(CoverageDetail(filelist, analysis))
      ensures base.time == Some(elapsed)
      ensures ResolveAsWritten(suite).Fails? && ResolveAsWritten(suite).error.TypeError?
    {
      var c := RunBody(analysis);
      escaped := base.Finish(c, elapsed);
      if forall f :: f in filelist ==> WellFormed(analysis(f)) {
        TallyScoreBounds(filelist, analysis);
      }
    }
  }
}
