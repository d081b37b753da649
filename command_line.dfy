/**
 * `SplitCommandLine`: a quote- and escape-aware split of one command line,
 * each piece then trimmed, unquoted and unescaped, and empty pieces dropped.
 * The splitting predicate keeps two flags between calls; here they are the
 * state of a left-to-right fold.
 */
module CommandLine {
  import opened Wrappers
  import opened Strings
  import opened Extensions

  /** The two variables the splitting closure captures. */
  datatype QuoteState = QuoteState(inQuotes: bool, isEscaping: bool)

  function InitialQuoteState(): QuoteState {
    QuoteState(false, false)
  }

  /**
   * One call of the closure: an unescaped backslash starts an escape and is
   * never a split point; an unescaped quote toggles quoting; any other
   * character ends the escape; white space outside quotes splits.
   */
  function SplitStep(st: QuoteState, c: char): (QuoteState, bool) {
    if c == '\\' && !st.isEscaping then (QuoteState(st.inQuotes, true), false)
    else
      var inQuotes := if c == '"' && !st.isEscaping then !st.inQuotes else st.inQuotes;
      (QuoteState(inQuotes, false), !inQuotes && IsWhiteSpace(c))
  }

  /** The closure's state after it has seen `s`. */
  function StateAfter(s: string): QuoteState {
    if s == [] then InitialQuoteState() else SplitStep(StateAfter(s[..|s| - 1]), s[|s| - 1]).0
  }

  /** The closure's answers, one per character of `s`. */
  function Marks(s: string): (m: seq<bool>)
    ensures |m| == |s|
  {
    if s == [] then [] else Marks(s[..|s| - 1]) + [SplitStep(StateAfter(s[..|s| - 1]), s[|s| - 1]).1]
  }

  /** A character is a split point only if it is white space. */
  lemma {:induction false} SplitPointsAreWhiteSpace(s: string, i: nat)
    requires i < |s|
    ensures Marks(s)[i] ==> IsWhiteSpace(s[i])
  {
    if i < |s| - 1 {
      SplitPointsAreWhiteSpace(s[..|s| - 1], i);
    }
  }

  /** A character inside quotes is never a split point. */
  lemma {:induction false} NoSplitInsideQuotes(s: string, i: nat)
    requires i < |s| && StateAfter(s[..i + 1]).inQuotes
    ensures !Marks(s)[i]
  {
    if i < |s| - 1 {
      assert s[..|s| - 1][..i + 1] == s[..i + 1];
      NoSplitInsideQuotes(s[..|s| - 1], i);
    } else {
      assert s[..i + 1] == s;
    }
  }

  /** The clean-up applied to each piece: trim, drop matching quotes, turn `\"` into `"`. */
  function CleanPiece(piece: string): Result<string, Exception> {
    var unquoted :- TrimMatchingQuotes(Trim(piece));
    Success(ReplaceAll(unquoted, "\\\"", "\""))
  }

  /** The pieces cleaned in order, the first exception escaping, empty results dropped. */
  function CleanPieces(pieces: seq<string>): Result<seq<string>, Exception> {
    if pieces == [] then Success([])
    else
      var front :- CleanPieces(pieces[..|pieces| - 1]);
      var last :- CleanPiece(pieces[|pieces| - 1]);
      Success(front + (if last == [] then [] else [last]))
  }

  function SplitCommandLineSpec(commandLine: string): Result<seq<string>, Exception> {
    CleanPieces(SplitPieces(commandLine, Marks(commandLine)))
  }

  lemma {:induction false} CleaningFailsAtAnEmptyLastPiece(pieces: seq<string>)
    requires pieces != [] && pieces[|pieces| - 1] == ""
    ensures CleanPieces(pieces).Failure?
  {
    assert Trim("") == "";
    assert CleanPiece("").Failure?;
  }

  /**
   * As written, splitting fails on every non-empty command line: the empty
   * last piece `SplitWhere` always yields has no first character for
   * `TrimMatchingQuotes` to read. Only the empty command line splits, into
   * no arguments.
   */
  lemma SplitCommandLineFailsUnlessEmpty(commandLine: string)
    ensures SplitCommandLineSpec(commandLine).Failure? <==> commandLine != []
    ensures commandLine == [] ==> SplitCommandLineSpec(commandLine) == Success([])
  {
    var marks := Marks(commandLine);
    SplitWhereDropsTail(commandLine, marks);
    if commandLine != [] {
      CleaningFailsAtAnEmptyLastPiece(SplitPieces(commandLine, marks));
    }
  }
}
