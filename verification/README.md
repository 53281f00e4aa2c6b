# LingQ-to-Anki import workflow, modelled in Dafny

LingQ-to-Anki is a command-line tool. Its `import` command fetches a user's
unlearned LingQ vocabulary cards and creates an Anki note for each card that
has a translation hint, through AnkiConnect's `addNotes` action. It then
reports which notes were added and which were refused as duplicates. It can
also mark every fetched card as known on LingQ. With `--dry-run` it only says
what it would do.

This project models the decision logic of that command as pure functions
over sequences:

- `wrappers.dfy`: `Option` and `Result`.
- `errors.dfy`: the errors that end an import early.
- `lingq.dfy`: `Hint`, `Card`, the cards page and its pagination guard.
- `anki.dfy`: `Note`, the AnkiConnect response envelope, and how an
  `addNotes` answer is read (position-by-position outcomes and the count of
  created notes).
- `notes.dfy`: card-to-note construction, an order-preserving filter then a
  map.
- `workflow.dfy`: the `import` command after login.

The network is a parameter of the workflow model. `Replies` holds what the
services answer: the cards page, the `addNotes` envelope, and the position of
the first mark-known request LingQ rejects. A `Run` records two things: the
effects performed, in order (lines reported, the `addNotes` request,
mark-known requests), and the error that stopped the command, if any. This
keeps the output already produced before an exception. A dry-run "would
mark" effect carries the card's id as well as its term, although the printed
line shows only the term.

Behaviour of `main.py` that is easy to misread:

- Cards without hints are dropped silently. No warning is produced.
- The `addNotes` answer is not checked to be as long as the submitted notes.
  A shorter answer reports only the positions it has. A longer one fails with
  an index error after the first `|notes|` reports. The model has this as
  `MoreResultsThanNotes`.
- `--deck` and `--model` are optional and left absent when not given, so a
  note's deck and model are `Option<string>`.
- The tag is the single string `"lingq"`, not a list.

## Model

| member | source | states |
|---|---|---|
| Anki.Unwrap | main.py:54-58 | an envelope is accepted iff its `error` is null/missing and a `result` is present; the result then comes back unchanged; a non-null error (even an empty string) always fails with that message |
| Lingq.FetchedCards | main.py:113-116 | a cards page is accepted iff the number of returned results equals the reported `count`; an accepted page yields exactly `count` cards, the page's own list; otherwise the fetch fails |
| NoteBuilder.MakeNote | main.py:187-194 | the note for a hinted card carries the term on the front, the text of the first hint on the back, the supplied deck and model, and the tag `lingq` |
| NoteBuilder.BuildNotes | main.py:186-198 | at most one note per card; every note has exactly the supplied deck and model and the tag `lingq`, whatever the cards hold |
| NoteBuilder.HintedPositions | main.py:195-197 | the positions kept by the filter: strictly increasing, each within the fetched list and holding a card with a non-empty hints list |
| NoteBuilder.HintedPositionsComplete | main.py:195-197 | every position whose card has a hint is kept, so with `HintedPositions` a card is kept iff its hints list is non-empty |
| NoteBuilder.BuildNotesIsFilterMap | main.py:186-198 | note k is the note of the k-th card that has a hint (order-preserving filter followed by a map), and there are exactly as many notes as such cards |
| NoteBuilder.NoteCountIsHintedCount | main.py:195-197 | the number of notes equals the number of fetched cards with at least one hint |
| NoteBuilder.OnlyFirstHintUsed | main.py:189-192 | cutting every card's hints down to the first one gives the same notes: later hints are never used |
| Anki.Classify | main.py:204-210 | one outcome per answer entry; outcome i is about note i; it is a duplicate iff entry i is null, otherwise an added note |
| Anki.ValidIds | main.py:212 | the non-null ids of the answer: no longer than the answer, and an id is kept iff it occurs in the answer |
| Anki.ValidIdsMultiplicity | main.py:212 | each created id is kept exactly as often as the answer carries it, so no id is dropped or duplicated |
| Anki.ValidIdsCountsAddedPositions | main.py:212-213 | the reported "new cards added" count equals the number of answer positions holding a note id |
| Anki.AddedPlusDuplicates | main.py:205-213 | added notes plus null (duplicate) entries account for every entry of the answer |
| ImportWorkflow.Submit | main.py:200-204 | a dry run makes no request, cannot fail, and produces exactly one "would add" line per note, in order; a live run starts with the one `addNotes` request carrying all notes, and produces only request, outcome and count events |
| ImportWorkflow.LiveSubmit | main.py:204-213 | after the `addNotes` request: an envelope error stops the step right there; an answer no longer than the notes gives one outcome line per entry, about the note at the same position and a duplicate iff the entry is null, then the count of non-null entries, which is at most the number of notes; a longer answer gives an outcome line for every note and then fails at position `|notes|` |
| ImportWorkflow.ReportLines | main.py:205-210 | one outcome line per answer entry, about the note at the same position, a duplicate iff the entry is null |
| ImportWorkflow.MarkLoop | main.py:216-223 | a dry run produces one "would mark" line per fetched card, in fetch order, and cannot fail; a live run marks the cards in fetch order and stops at the first rejected request, having marked exactly the cards before it |
| ImportWorkflow.Import | main.py:184-223 | an incomplete page stops the import before any effect; a dry run never submits notes, reports outcomes or marks cards, and fails only on an incomplete page; a live run never produces "would" lines; without mark-known no card is marked; in a live run an AnkiConnect error on `addNotes` ends the import right after that request with that error, and an answer longer than the notes ends it with the index error, in both cases before any card is marked known |
| ImportWorkflow.DryImportRun | main.py:199-223 | a dry run past the page check prints one "would add" line per note, in note order, then, with mark-known, one "would mark" line per fetched card, in fetch order, and nothing else |
| ImportWorkflow.LiveImportRun | main.py:203-223 | a live run whose `addNotes` answer is accepted and no longer than the notes performs exactly: the request; one outcome line per answer entry about the note at the same position, a duplicate iff the entry is null; the "N new cards added" line with N the number of non-null entries; then, with mark-known, the cards marked in fetch order up to the first one LingQ rejects, whose error ends the command with exactly the earlier cards marked; without mark-known or without a rejection it ends without error |
| ImportWorkflow.ImportIntents | main.py:186-223 | a completed import submits (or describes) exactly the notes built from the fetched cards, and marks (or describes marking) every fetched card in order, hint-less ones included, by its id and term, iff mark-known was requested |
| ImportWorkflow.DryRunMirrorsLive | main.py:200-223 | a dry run announces exactly the notes and the cards (id and term, in order) to mark known that a successful live run with the same answers submits and marks |
| ImportWorkflow.MarkingIgnoresNoteOutcomes | main.py:204-223 | which cards are marked known, and whether marking fails, does not depend on which notes Anki added or refused as duplicates |
| ImportWorkflow.ScenarioHintlessCardSkipped | main.py:186-213 | two fetched cards, one without hints: one note is submitted, reported as added, and "1 new cards added" is reported |
| ImportWorkflow.ScenarioOneDuplicate | main.py:204-213 | answer `[12345, null]` for two notes: the first is reported added, the second a duplicate, and the count is 1 |

## Left out

- HTTP requests, `raise_for_status` and JSON decoding (main.py:45-52, 86-124). These are network I/O. Their answers enter the model as the `Replies` parameter. A failed HTTP call is modelled only for the mark-known requests, as the position of the first rejected one.
- The AnkiConnect version probe, the LingQ login and the languages listing (main.py:61-62, 86-101). These are plain request/response calls with no logic of their own.
- Argument parsing and the `decks`, `models`, `model` and `langs` commands (main.py:127-176, 225-229). These are library-driven command-line plumbing.
- The exact text printed and the choice of stdout or stderr. Output is modelled as abstract `Event` values.
- The listing's query parameters, the URLs and the token header. These are external API details. The comment at main.py:183 ("status 1") disagrees with the query at main.py:107 (`"0"`), and neither is modelled.
- Card fields other than `pk`, `term` and the hints' `text` (main.py:10-42). The import does not use them.
- Missing keys in the cards page or in a card (`count`, `results`, `term`, `hints`, `text`, `pk`) and an `addNotes` result that is not a list. These would raise lookup or type errors. The model assumes well-formed LingQ and AnkiConnect JSON.
- Lingq.FetchedCards: always applies the pagination guard. Python drops `assert` statements when run with `-O`, and the model does not represent that mode.
