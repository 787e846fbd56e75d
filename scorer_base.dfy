/** The part every scorer shares (runlib/python/pyhost/scorer.py:22-51): the report
    values a scorer produces, the recoverable ScorerFailure, and run(), which times
    the scorer's own _run() and absorbs a ScorerFailure while letting every other
    exception through. */
module ScorerBase {

  datatype Option<+T> = None | Some(value: T)

  /** A report text as the template it is rendered from plus its named
      parameters; rendering and translation happen outside this model. */
  datatype Message =
    | Text(text: string)                                      // a block written by an external reporter
    | TestsPassed(rate: real, success: int, total: nat)       // pass rate of the unit tests
    | StyleFailed(rate: real, trouble: nat, total: nat)       // share of files with style violations
    | StyleAllPassed                                          // every file is clean
    | StatementsListing(filename: string, miss: nat, source: string)
    | BranchesListing(filename: string, partial: int, notaken: nat, source: string)
    | CoverageSummary(stmtRate: real, branchRate: real, partialRate: real)
    | InputClassesCovered(rate: real, cover: nat, total: nat)
    | Covered(checker: string)
    | NotCovered(checker: string)
    | SchemaMismatch                                          // the input data does not fit its schema

  /** The recoverable failure a scorer may raise: what to report instead. */
  datatype ScorerFailure = ScorerFailure(brief: Message, detail: seq<Message>, score: real)

  /** The other exceptions the modelled code can raise or let through. */
  datatype Exception =
    | KeyError(key: string)
    | ValueError(reason: string)
    | TypeError(reason: string)
    | ZeroDivisionError
    | OtherError(reason: string)

  /** How a scorer's _run() ended. */
  datatype Completion = Normal | Failure(failure: ScorerFailure) | Raised(error: Exception)

  /** The fields of the base class. A variant scorer holds one of these and its
      _run() writes score, brief and detail here, as the Python subclasses do on self. */
  class Scorer {
    const name: string
    var time: Option<real>
    var score: Option<real>
    var brief: Option<Message>
    var detail: Option<seq<Message>>

    constructor (name: string)
      ensures this.name == name
      ensures time == None && score == None && brief == None && detail == None
    {
      this.name := name;
      time, score, brief, detail := None, None, None, None;
    }

    /** The end of run(): `completion` is how _run() ended and `elapsed` is the
        time the clock measured around it. A ScorerFailure never escapes: its
        brief, detail and score replace the fields and the time stays as it was.
        A normal return records the time and keeps what _run() wrote. Any other
        exception leaves every field alone and is handed back to the caller. */
    method Finish(completion: Completion, elapsed: real) returns (escaped: Option<Exception>)
      modifies this
      ensures escaped.Some? <==> completion.Raised?
      ensures completion.Normal? ==>
        time == Some(elapsed) &&
        score == old(score) && brief == old(brief) && detail == old(detail)
      ensures completion.Failure? ==>
        time == old(time) &&
        score == Some(completion.failure.score) &&
        brief == Some(completion.failure.brief) &&
        detail == Some(completion.failure.detail)
      ensures completion.Raised? ==>
        escaped == Some(completion.error) &&
        time == old(time) &&
        score == old(score) && brief == old(brief) && detail == old(detail)
    {
      match completion
      case Normal =>
        time := Some(elapsed);
        escaped := None;
      case Failure(f) =>
        brief := Some(f.brief);
        detail := Some(f.detail);
        score := Some(f.score);
        escaped := None;
      case Raised(e) =>
        escaped := Some(e);
    }
  }

  /** A part of a positive whole is a fraction in [0, 1], 1 exactly for the
      whole and 0 exactly for nothing. */
  lemma FractionOf(part: real, whole: real)
    requires 0.0 <= part <= whole && whole > 0.0
    ensures 0.0 <= part / whole <= 1.0
    ensures part / whole == 1.0 <==> part == whole
    ensures part / whole == 0.0 <==> part == 0.0
  {
    var q := part / whole;
    assert q * whole == part;
  }

  /** Every scorer reports a share as a percentage, 100 * part / whole. For a
      part of a positive whole it lies in [0, 100], is 100 exactly for the whole
      and 0 exactly for nothing. */
  lemma PercentOf(part: real, whole: real)
    requires 0.0 <= part <= whole && whole > 0.0
    ensures 0.0 <= 100.0 * part / whole <= 100.0
    ensures 100.0 * part / whole == 100.0 <==> part == whole
    ensures 100.0 * part / whole == 0.0 <==> part == 0.0
  {
    var p := 100.0 * part / whole;
    assert p * whole == 100.0 * part;
  }
}
