/** The LingQ side: vocabulary cards and the guard on the cards listing. */
module Lingq {
  import opened Wrappers
  import opened Errors

  /** A translation candidate of a card; only its display text is used. */
  datatype Hint = Hint(text: string)

  /** A vocabulary item ("lingQ"): its id, the source-language term and its
      ordered translation hints, which may be empty. */
  datatype Card = Card(pk: int, term: string, hints: seq<Hint>)

  /** The decoded body of the cards listing: the total number of matching
      cards and the cards actually returned in this response. */
  datatype CardsPage = CardsPage(count: int, results: seq<Card>)

  /** A card can become a note only if it has a translation. */
  predicate HasHint(c: Card) {
    |c.hints| > 0
  }

  /** The pagination guard of the cards listing: a page is accepted only when
      it holds every matching card, and then the cards come back untouched. */
  function FetchedCards(page: CardsPage): (r: Result<seq<Card>, Error>)
    ensures r.Success? <==> |page.results| == page.count
    ensures r.Success? ==> |r.value| == page.count && r.value == page.results
    ensures r.Failure? ==> r.error == IncompletePage
  {
    if |page.results| == page.count then Success(page.results) else Failure(IncompletePage)
  }
}
