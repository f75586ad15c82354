/**
  The book evaluator form (client/src/components/BookEvaluator.js): the check
  made before a request is sent, and the colour band of a match score.
 */
module BookEvaluatorView {
  import opened JsValues

  /** What submitting the form does. */
  datatype Submission =
    | Rejected(error: string)
    | Sent(bookTitle: string, bookAuthor: Option<string>)

  /**
    `handleEvaluate`: a title that trims to nothing is refused; otherwise the
    title goes out as typed and an empty author goes out as undefined.
   */
  function HandleEvaluate(bookTitle: string, bookAuthor: string): (s: Submission)
    ensures s.Rejected? <==> forall i :: 0 <= i < |bookTitle| ==> IsJsWhitespace(bookTitle[i])
    ensures s.Rejected? ==> s.error == "Please enter a book title"
    ensures s.Sent? ==> s.bookTitle == bookTitle && bookTitle != ""
    ensures s.Sent? ==> (s.bookAuthor == None <==> bookAuthor == "")
    ensures s.Sent? && bookAuthor != "" ==> s.bookAuthor == Some(bookAuthor)
  {
    TrimEmptyIffBlank(bookTitle);
    if Trim(bookTitle) == "" then Rejected("Please enter a book title")
    else Sent(bookTitle, if bookAuthor != "" then Some(bookAuthor) else None)
  }

  const HighMatch := "#00C49F"
  const MediumMatch := "#FFBB28"
  const LowMatch := "#FF8042"

  /**
    `getMatchScoreColor` on a numeric score; None is a score that compares false
    to both bounds, such as undefined. Scores given as strings are not modelled.
   */
  function MatchScoreColor(score: Option<real>): (c: string)
    ensures c == HighMatch <==> score.Some? && score.value >= 8.0
    ensures c == MediumMatch <==> score.Some? && 6.0 <= score.value < 8.0
    ensures c == LowMatch <==> score.None? || score.value < 6.0
  {
    if score.Some? && score.value >= 8.0 then HighMatch
    else if score.Some? && score.value >= 6.0 then MediumMatch
    else LowMatch
  }

  function BandRank(c: string): nat {
    if c == HighMatch then 2 else if c == MediumMatch then 1 else 0
  }

  /** Raising a score never moves it to a lower band. */
  lemma BandsMonotone(a: real, b: real)
    requires a <= b
    ensures BandRank(MatchScoreColor(Some(a))) <= BandRank(MatchScoreColor(Some(b)))
  {
  }
}
