/**
 * The values of package ai that deliberation produces and consumes: the
 * submitted paper, the two review verdicts, the parsed discussion reply and the
 * discussion record. Go's nil slices are the empty sequence here.
 */
module AiTypes {

  datatype ResearchPaper = ResearchPaper(
    title: string,
    paperAbstract: string,
    content: string,
    author: string,
    topicTags: seq<string>,
    timestamp: int)

  datatype PaperReview = PaperReview(
    summary: string,
    flaws: seq<string>,
    suggestions: seq<string>,
    isReproducible: bool,
    approval: bool)

  /** PaperReview{}: the verdict of a non-validator and of an unparsable response. */
  const ZeroPaperReview := PaperReview("", [], [], false, false)

  datatype LoanReview = LoanReview(
    summary: string,
    riskFactors: seq<string>,
    terms: seq<string>,
    approval: bool)

  /** LoanReview{}. */
  const ZeroLoanReview := LoanReview("", [], [], false)

  /** The four fields GetValidatorDiscussion reads from the model's JSON reply. */
  datatype DiscussionReply = DiscussionReply(message: string, support: bool, oppose: bool, question: bool)

  /** A discussion record; `timestamp` is a clock reading, 0 standing for Go's zero time. */
  datatype Discussion = Discussion(
    id: string,
    validatorID: string,
    validatorName: string,
    message: string,
    support: bool,
    oppose: bool,
    question: bool,
    timestamp: int,
    round: int)

  /** Discussion{}. */
  const ZeroDiscussion := Discussion("", "", "", "", false, false, false, 0, 0)
}
