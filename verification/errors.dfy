/** The ways an import can stop early. Every one of them is fatal: the
    program raises and nothing after the failing step runs. */
module Errors {

  datatype Error =
    /** AnkiConnect answered with a non-null `error` field. */
    | AnkiError(message: string)
    /** AnkiConnect answered without a `result` field (a missing-key lookup). */
    | MissingResult
    /** The cards page reported a `count` that differs from the number of
        `results` it carried, in either direction. */
    | IncompletePage
    /** `addNotes` returned more entries than notes were submitted, so looking
        up the note at this position fails. */
    | MoreResultsThanNotes(position: nat)
    /** LingQ rejected the request marking this card as known. */
    | MarkKnownRejected(pk: int)
}
