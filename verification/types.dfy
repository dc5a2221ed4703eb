/** The records the extractor produces and the decoded envelope it starts from. */
module Types {
  import opened Wrappers
  import opened Html

  const UINT64_LIMIT: int := 0x1_0000_0000_0000_0000

  /** Go's `uint64`. */
  type uint64 = x: int | 0 <= x < UINT64_LIMIT

  /** An answer: its id, its ld+json payload and its author's user id. */
  datatype Answer = Answer(id: uint64, json: string, userId: uint64)

  /** The zero record `&Answer{}` that every in-progress answer starts from. */
  const NoAnswer := Answer(0, "", 0)

  /** A question: its id, its `question-data` payload and its answers in
      document order. */
  datatype Question = Question(id: uint64, json: string, answers: seq<Answer>)

  /**
   * The decoded JSON document: the `questionId` and `questionHTML` fields,
   * each `None` when absent or null. The HTML is given already tokenised.
   */
  datatype Envelope = Envelope(questionId: Option<uint64>, questionHtml: Option<seq<Token>>)

  datatype ParseError =
    | UnexpectedDocument  // a required envelope field is missing
    | NilDereference      // a username link without `href` (fetch.go only)
}
