/** The statistics CoverageScorer computes from coverage.py's analysis of each
    file (runlib/python/pyhost/scorer.py:180-270): the three-way classification of
    branch lines, the totals over all files, the annotated listings and the
    composite score. */
module CoverageAnalysis {
  import opened ScorerBase
  import opened Strings

  /** branch_stats() entry of one line: (total_exits, taken_exits). */
  datatype BranchStat = BranchStat(total: nat, taken: nat)

  /** What coverage.py reports for one file, with the file's source lines. */
  datatype FileCoverage = FileCoverage(
    statements: set<int>,
    missing: set<int>,
    branches: map<int, BranchStat>,
    source: seq<string>)

  /** What coverage.py guarantees of its analysis. */
  predicate WellFormed(fc: FileCoverage) {
    fc.missing <= fc.statements &&
    forall l :: l in fc.branches ==> fc.branches[l].taken <= fc.branches[l].total
  }

  // ---- per-file branch counts (scorer.py:194-199)

  function TakenLines(b: map<int, BranchStat>): set<int> {
    set l | l in b && b[l].total == b[l].taken
  }

  function NotTakenLines(b: map<int, BranchStat>): set<int> {
    set l | l in b && b[l].total != b[l].taken && b[l].taken == 0
  }

  function PartialLines(b: map<int, BranchStat>): set<int> {
    set l | l in b && b[l].total != b[l].taken && b[l].taken != 0
  }

  function FileTaken(b: map<int, BranchStat>): nat { |TakenLines(b)| }

  function FileNotTaken(b: map<int, BranchStat>): nat { |NotTakenLines(b)| }

  function FilePartial(b: map<int, BranchStat>): int { |b| - FileTaken(b) - FileNotTaken(b) }

  lemma DisjointUnionCard(x: set<int>, y: set<int>)
    requires x !! y
    ensures |x + y| == |x| + |y|
  {
  }

  /** Every branch line is in exactly one of the three classes, so the partial
      count, computed as a difference, counts the partially taken lines and is
      never negative. On well-formed data a partial line took some but not all
      of its exits. */
  lemma BranchPartition(b: map<int, BranchStat>)
    ensures TakenLines(b) !! NotTakenLines(b) && TakenLines(b) !! PartialLines(b)
    ensures NotTakenLines(b) !! PartialLines(b)
    ensures TakenLines(b) + NotTakenLines(b) + PartialLines(b) == b.Keys
    ensures FilePartial(b) == |PartialLines(b)| >= 0
    ensures (forall l :: l in b ==> b[l].taken <= b[l].total) ==>
      forall l :: l in PartialLines(b) ==> 0 < b[l].taken < b[l].total
  {
    var t, n, p := TakenLines(b), NotTakenLines(b), PartialLines(b);
    assert t + n + p == b.Keys;
    DisjointUnionCard(t, n);
    DisjointUnionCard(t + n, p);
    assert |b.Keys| == |b|;
  }

  // ---- totals over files (scorer.py:181-204)

  datatype Totals = Totals(exec: nat, miss: nat, branch: nat, taken: nat, partial: int, notaken: nat)

  function FileTotals(fc: FileCoverage): Totals {
    Totals(|fc.statements|, |fc.missing|, |fc.branches|,
           FileTaken(fc.branches), FilePartial(fc.branches), FileNotTaken(fc.branches))
  }

  function Add(t: Totals, u: Totals): Totals {
    Totals(t.exec + u.exec, t.miss + u.miss, t.branch + u.branch,
           t.taken + u.taken, t.partial + u.partial, t.notaken + u.notaken)
  }

  /** The totals after the loop has visited `files` in order. */
  function Tally(files: seq<string>, analysis: string -> FileCoverage): Totals {
    if files == [] then Totals(0, 0, 0, 0, 0, 0)
    else Add(Tally(files[..|files| - 1], analysis), FileTotals(analysis(files[|files| - 1])))
  }

  predicate Consistent(t: Totals) {
    t.miss <= t.exec && 0 <= t.partial && t.taken + t.partial + t.notaken == t.branch
  }

  lemma SubsetCard(x: set<int>, y: set<int>)
    requires x <= y
    ensures |x| <= |y|
  {
    assert y == x + (y - x);
    DisjointUnionCard(x, y - x);
  }

  /** Summed over well-formed files, no more statements are missed than exist and
      the taken, partial and not-taken counts partition the branch lines. */
  lemma {:induction false} TallyConsistent(files: seq<string>, analysis: string -> FileCoverage)
    requires forall f :: f in files ==> WellFormed(analysis(f))
    ensures Consistent(Tally(files, analysis))
  {
    if files != [] {
      var init, fc := files[..|files| - 1], analysis(files[|files| - 1]);
      assert forall f :: f in init ==> f in files;
      TallyConsistent(init, analysis);
      SubsetCard(fc.missing, fc.statements);
      BranchPartition(fc.branches);
    }
  }

  // ---- the composite score (scorer.py:256-270)

  /** safe_divide: a quotient, or 0 when the divisor is not positive. */
  function SafeDivide(a: int, b: int): real {
    if b > 0 then a as real / b as real else 0.0
  }

  /** safe_divide is the quotient for a positive divisor and 0 otherwise. */
  lemma SafeDivideQuotient(a: int, b: int)
    ensures b > 0 ==> SafeDivide(a, b) * b as real == a as real
    ensures b <= 0 ==> SafeDivide(a, b) == 0.0
  {
  }

  function StatementCover(t: Totals): real { 100.0 - 100.0 * SafeDivide(t.miss, t.exec) }

  function BranchCover(t: Totals): real { 100.0 * SafeDivide(t.taken, t.branch) }

  function BranchPartialRate(t: Totals): real { 100.0 * SafeDivide(t.partial, t.branch) }

  function CoverageScore(t: Totals): real {
    StatementCover(t) * 0.5 + BranchCover(t) * 0.5 + BranchPartialRate(t) * 0.25
  }

  /** Code without statements counts as fully covered; code without branches
      counts as having none taken, fully or partially. */
  lemma EmptyCoverage(t: Totals)
    ensures t.exec == 0 ==> StatementCover(t) == 100.0
    ensures t.branch == 0 ==> BranchCover(t) == 0.0 && BranchPartialRate(t) == 0.0
  {
  }

  /** A share of a non-negative whole is a fraction between 0 and 1; it is 0
      exactly when the part is and 1 exactly when the part is the whole. */
  lemma ShareInRange(a: int, b: int)
    requires 0 <= a <= b
    ensures 0.0 <= SafeDivide(a, b) <= 1.0
    ensures SafeDivide(a, b) == 0.0 <==> a == 0
    ensures SafeDivide(a, b) == 1.0 <==> b > 0 && a == b
  {
    if b > 0 {
      FractionOf(a as real, b as real);
    }
  }

  lemma SharesAdd(a: int, c: int, b: int)
    ensures SafeDivide(a, b) + SafeDivide(c, b) == SafeDivide(a + c, b)
  {
  }

  /** The three quotients the rates are made of: the missed share of the
      statements, and the taken and partial shares of the branch lines. */
  lemma QuotientsInRange(t: Totals)
    requires Consistent(t)
    ensures 0.0 <= SafeDivide(t.miss, t.exec) <= 1.0
    ensures SafeDivide(t.miss, t.exec) == 0.0 <==> t.miss == 0
    ensures 0.0 <= SafeDivide(t.taken, t.branch) && 0.0 <= SafeDivide(t.partial, t.branch)
    ensures SafeDivide(t.taken, t.branch) + SafeDivide(t.partial, t.branch) <= 1.0
    ensures SafeDivide(t.taken, t.branch) == 1.0 <==> t.branch > 0 && t.taken == t.branch
  {
    ShareInRange(t.miss, t.exec);
    ShareInRange(t.taken, t.branch);
    ShareInRange(t.partial, t.branch);
    ShareInRange(t.taken + t.partial, t.branch);
    SharesAdd(t.taken, t.partial, t.branch);
  }

  lemma WeightedSumInRange(s: real, x: real, y: real)
    requires 0.0 <= s <= 1.0 && 0.0 <= x && 0.0 <= y && x + y <= 1.0
    ensures 0.0 <= 50.0 - 50.0 * s + 50.0 * x + 25.0 * y <= 100.0
    ensures 50.0 - 50.0 * s + 50.0 * x + 25.0 * y == 100.0 <==> s == 0.0 && x == 1.0
  {
  }

  /** On consistent totals each rate is a percentage and the composite score stays
      within [0, 100]: a partial branch is worth a quarter of a point where a
      taken one is worth half, so the partial weight cannot push it past 100. The
      score is 100 exactly when no statement is missed and every branch line, of
      which there is at least one, is fully taken. */
  lemma CoverageScoreBounds(t: Totals)
    requires Consistent(t)
    ensures 0.0 <= StatementCover(t) <= 100.0
    ensures 0.0 <= BranchCover(t) <= 100.0 && 0.0 <= BranchPartialRate(t) <= 100.0
    ensures 0.0 <= CoverageScore(t) <= 100.0
    ensures CoverageScore(t) == 100.0 <==> t.miss == 0 && t.branch > 0 && t.taken == t.branch
  {
    var s := SafeDivide(t.miss, t.exec);
    var x := SafeDivide(t.taken, t.branch);
    var y := SafeDivide(t.partial, t.branch);
    QuotientsInRange(t);
    assert CoverageScore(t) == 50.0 - 50.0 * s + 50.0 * x + 25.0 * y;
    WeightedSumInRange(s, x, y);
  }

  /** Ten statements with three missed, and two taken, one partial and one
      untaken branch line score 66.25. */
  lemma CoverageScoreExample()
    ensures CoverageScore(Totals(10, 3, 4, 2, 1, 1)) == 66.25
  {
  }

  /** The bound for the score of a whole run over well-formed analyses. */
  lemma TallyScoreBounds(files: seq<string>, analysis: string -> FileCoverage)
    requires forall f :: f in files ==> WellFormed(analysis(f))
    ensures 0.0 <= CoverageScore(Tally(files, analysis)) <= 100.0
  {
    TallyConsistent(files, analysis);
    CoverageScoreBounds(Tally(files, analysis));
  }

  // ---- the annotated listings (scorer.py:207-233)

  datatype Mark = Plus | Minus | Star | Blank

  function Prefix(m: Mark): string {
    match m
    case Plus => "+ "
    case Minus => "- "
    case Star => "* "
    case Blank => "  "
  }

  /** A missed line is marked before an executable one. */
  function StatementMark(fc: FileCoverage, line: int): Mark {
    if line in fc.missing then Minus else if line in fc.statements then Plus else Blank
  }

  /** A line without an entry is blank; (0, 0) counts as fully taken. */
  function BranchMark(b: map<int, BranchStat>, line: int): Mark {
    if line !in b then Blank
    else if b[line].taken == b[line].total then Plus
    else if b[line].taken == 0 then Minus
    else Star
  }

  /** One listing line per source line, numbered from 1. */
  function Annotated(source: seq<string>, mark: int -> Mark): (r: seq<string>)
    ensures |r| == |source|
  {
    seq(|source|, k requires 0 <= k < |source| => Prefix(mark(k + 1)) + RStrip(source[k]))
  }

  function StatementListing(fc: FileCoverage): seq<string> {
    Annotated(fc.source, line => StatementMark(fc, line))
  }

  function BranchListing(fc: FileCoverage): seq<string> {
    Annotated(fc.source, line => BranchMark(fc.branches, line))
  }

  predicate StartsWith(s: string, p: string) {
    |p| <= |s| && s[..|p|] == p
  }

  /** How many lines of a listing carry mark `m`. */
  function CountMarked(listing: seq<string>, m: Mark): nat {
    if listing == [] then 0
    else CountMarked(listing[..|listing| - 1], m)
         + (if StartsWith(listing[|listing| - 1], Prefix(m)) then 1 else 0)
  }

  function LinesWithMark(n: nat, mark: int -> Mark, m: Mark): set<int> {
    set l | 1 <= l <= n && mark(l) == m
  }

  /** A listing line carries exactly the mark its line number was given. */
  lemma PrefixDetermines(m: Mark, m': Mark, s: string)
    ensures StartsWith(Prefix(m') + s, Prefix(m)) <==> m == m'
  {
    var t := Prefix(m') + s;
    assert t[..2] == Prefix(m');
  }

  /** One more listing line adds one to the count of its own mark only. */
  lemma CountMarkedStep(source: seq<string>, mark: int -> Mark, m: Mark, n: nat)
    requires 0 < n <= |source|
    ensures CountMarked(Annotated(source, mark)[..n], m)
            == CountMarked(Annotated(source, mark)[..n - 1], m) + (if mark(n) == m then 1 else 0)
  {
    var listing := Annotated(source, mark);
    assert listing[..n][..n - 1] == listing[..n - 1];
    assert listing[..n][n - 1] == Prefix(mark(n)) + RStrip(source[n - 1]);
    PrefixDetermines(m, mark(n), RStrip(source[n - 1]));
  }

  /** One more line number adds one to the lines of its own mark only. */
  lemma LinesWithMarkStep(mark: int -> Mark, m: Mark, n: nat)
    requires 0 < n
    ensures |LinesWithMark(n, mark, m)| == |LinesWithMark(n - 1, mark, m)| + (if mark(n) == m then 1 else 0)
  {
    if mark(n) == m {
      assert n !in LinesWithMark(n - 1, mark, m);
      assert LinesWithMark(n, mark, m) == LinesWithMark(n - 1, mark, m) + {n};
    } else {
      assert LinesWithMark(n, mark, m) == LinesWithMark(n - 1, mark, m);
    }
  }

  /** The first n listing lines carry mark m exactly as often as m is given to
      the line numbers 1..n. */
  lemma {:induction false} CountMarkedLines(source: seq<string>, mark: int -> Mark, m: Mark, n: nat)
    requires n <= |source|
    ensures CountMarked(Annotated(source, mark)[..n], m) == |LinesWithMark(n, mark, m)|
  {
    if n > 0 {
      CountMarkedLines(source, mark, m, n - 1);
      CountMarkedStep(source, mark, m, n);
      LinesWithMarkStep(mark, m, n);
    } else {
      assert LinesWithMark(0, mark, m) == {};
    }
  }

  /** The branch listing of a file whose branch lines lie within its source has
      as many `+`, `-` and `*` lines as the file has taken, not-taken and
      partial branch lines. */
  lemma BranchListingCounts(fc: FileCoverage)
    requires forall l :: l in fc.branches ==> 1 <= l <= |fc.source|
    ensures CountMarked(BranchListing(fc), Plus) == FileTaken(fc.branches)
    ensures CountMarked(BranchListing(fc), Minus) == FileNotTaken(fc.branches)
    ensures CountMarked(BranchListing(fc), Star) == FilePartial(fc.branches)
  {
    var b, n := fc.branches, |fc.source|;
    var mark := line => BranchMark(b, line);
    assert BranchListing(fc)[..n] == BranchListing(fc);
    CountMarkedLines(fc.source, mark, Plus, n);
    CountMarkedLines(fc.source, mark, Minus, n);
    CountMarkedLines(fc.source, mark, Star, n);
    assert LinesWithMark(n, mark, Plus) == TakenLines(b);
    assert LinesWithMark(n, mark, Minus) == NotTakenLines(b);
    assert LinesWithMark(n, mark, Star) == PartialLines(b);
    BranchPartition(b);
  }

  /** The statement listing of a file whose statements lie within its source
      has one `-` line per missed statement, which is the count its heading
      reports, and one `+` line per executed statement. */
  lemma StatementListingCounts(fc: FileCoverage)
    requires forall l :: l in fc.statements ==> 1 <= l <= |fc.source|
    requires fc.missing <= fc.statements
    ensures CountMarked(StatementListing(fc), Minus) == |fc.missing|
    ensures CountMarked(StatementListing(fc), Plus) == |fc.statements - fc.missing|
  {
    var n := |fc.source|;
    var mark := line => StatementMark(fc, line);
    assert StatementListing(fc)[..n] == StatementListing(fc);
    CountMarkedLines(fc.source, mark, Minus, n);
    CountMarkedLines(fc.source, mark, Plus, n);
    assert LinesWithMark(n, mark, Minus) == fc.missing;
    assert LinesWithMark(n, mark, Plus) == fc.statements - fc.missing;
  }

  /** The inner loop of scorer.py:207-230: both listings of one file, built
      line by line. */
  method Annotate(fc: FileCoverage) returns (stmtText: seq<string>, branchText: seq<string>)
    ensures stmtText == StatementListing(fc)
    ensures branchText == BranchListing(fc)
  {
    ghost var stmtListing, branchListing := StatementListing(fc), BranchListing(fc);
    stmtText, branchText := [], [];
    var i := 1;
    while i <= |fc.source|
      invariant 1 <= i <= |fc.source| + 1
      invariant stmtText == stmtListing[..i - 1]
      invariant branchText == branchListing[..i - 1]
    {
      var s := fc.source[i - 1];
      assert stmtListing[..i] == stmtListing[..i - 1] + [Prefix(StatementMark(fc, i)) + RStrip(s)];
      assert branchListing[..i] == branchListing[..i - 1] + [Prefix(BranchMark(fc.branches, i)) + RStrip(s)];
      if i in fc.missing {
        stmtText := stmtText + ["- " + RStrip(s)];
      } else if i in fc.statements {
        stmtText := stmtText + ["+ " + RStrip(s)];
      } else {
        stmtText := stmtText + ["  " + RStrip(s)];
      }
      if i !in fc.branches {
        branchText := branchText + ["  " + RStrip(s)];
      } else if fc.branches[i].taken == fc.branches[i].total {
        branchText := branchText + ["+ " + RStrip(s)];
      } else if fc.branches[i].taken == 0 {
        branchText := branchText + ["- " + RStrip(s)];
      } else {
        branchText := branchText + ["* " + RStrip(s)];
      }
      i := i + 1;
    }
    assert stmtListing[..|fc.source|] == stmtListing;
    assert branchListing[..|fc.source|] == branchListing;
  }
}
