/** The AnkiConnect side: note payloads, the response envelope and the
    reading of an `addNotes` answer. */
module Anki {
  import opened Wrappers
  import opened Errors

  /** The tag every imported note carries. */
  const ImportTag: string := "lingq"

  /** An `addNotes` payload entry. Deck and model are whatever the command
      line gave, absent when the option was not passed. */
  datatype Note = Note(deckName: Option<string>, modelName: Option<string>,
                       front: string, back: string, tags: string)

  /** A decoded AnkiConnect answer. `error` is absent both when the key is
      missing and when it is null; `result` is absent only when the key is missing. */
  datatype Envelope<T> = Envelope(error: Option<string>, result: Option<T>)

  /** The envelope check of every AnkiConnect request: any error fails,
      otherwise the result is handed back unchanged. */
  function Unwrap<T>(env: Envelope<T>): (r: Result<T, Error>)
    ensures r.Success? <==> env.error.None? && env.result.Some?
    ensures r.Success? ==> r.value == env.result.value
    ensures env.error.Some? ==> r == Failure(AnkiError(env.error.value))
    ensures env.error.None? && env.result.None? ==> r == Failure(MissingResult)
  {
    match env.error
    case Some(message) => Failure(AnkiError(message))
    case None =>
      match env.result
      case Some(value) => Success(value)
      case None => Failure(MissingResult)
  }

  /** What the import reports about one submitted note. */
  datatype Outcome = Added(note: Note) | Duplicate(note: Note)

  /** Reads the `addNotes` answer position by position: entry i speaks about
      note i, and a null entry means Anki refused it as a duplicate. */
  function Classify(notes: seq<Note>, ids: seq<Option<int>>): (r: seq<Outcome>)
    requires |ids| <= |notes|
    ensures |r| == |ids|
    ensures forall i :: 0 <= i < |ids| ==> r[i].note == notes[i]
    ensures forall i :: 0 <= i < |ids| ==> (r[i].Duplicate? <==> ids[i].None?)
  {
    if |ids| == 0 then []
    else
      var head := if ids[0].None? then Duplicate(notes[0]) else Added(notes[0]);
      [head] + Classify(notes[1..], ids[1..])
  }

  /** The ids of the notes Anki created, in answer order. */
  function ValidIds(ids: seq<Option<int>>): (r: seq<int>)
    ensures |r| <= |ids|
    ensures forall x :: x in r <==> Some(x) in ids
  {
    if |ids| == 0 then []
    else
      match ids[0]
      case Some(x) => [x] + ValidIds(ids[1..])
      case None => ValidIds(ids[1..])
  }

  /** Each created id is kept exactly as often as the answer carries it. */
  lemma {:induction false} ValidIdsMultiplicity(ids: seq<Option<int>>)
    ensures forall x :: multiset(ValidIds(ids))[x] == multiset(ids)[Some(x)]
  {
    if |ids| > 0 {
      assert ids == [ids[0]] + ids[1..];
      assert multiset(ids) == multiset([ids[0]]) + multiset(ids[1..]);
      ValidIdsMultiplicity(ids[1..]);
    }
  }

  /** Positions of the answer that name a newly created note. */
  ghost function AddedPositions(ids: seq<Option<int>>): set<int> {
    set i | 0 <= i < |ids| && ids[i].Some?
  }

  lemma {:induction false} ValidIdsAppend(a: seq<Option<int>>, b: seq<Option<int>>)
    ensures ValidIds(a + b) == ValidIds(a) + ValidIds(b)
  {
    if |a| == 0 {
      assert a + b == b;
    } else {
      assert (a + b)[1..] == a[1..] + b;
      ValidIdsAppend(a[1..], b);
    }
  }

  lemma AddedPositionsSnoc(ids: seq<Option<int>>, x: Option<int>)
    ensures AddedPositions(ids + [x]) == AddedPositions(ids) + (if x.Some? then {|ids|} else {})
  {
  }

  /** The "new cards added" count is the number of answer positions that
      carry a note id. */
  lemma {:induction false} ValidIdsCountsAddedPositions(ids: seq<Option<int>>)
    ensures |ValidIds(ids)| == |AddedPositions(ids)|
  {
    if |ids| > 0 {
      var front := ids[..|ids| - 1];
      var last := ids[|ids| - 1];
      assert ids == front + [last];
      ValidIdsAppend(front, [last]);
      assert [last][1..] == [];
      ValidIdsCountsAddedPositions(front);
      AddedPositionsSnoc(front, last);
      assert |front| !in AddedPositions(front);
    }
  }

  /** Added plus duplicates account for every entry of the answer. */
  lemma {:induction false} AddedPlusDuplicates(ids: seq<Option<int>>)
    ensures |ValidIds(ids)| + multiset(ids)[None] == |ids|
  {
    if |ids| > 0 {
      assert ids == [ids[0]] + ids[1..];
      assert multiset(ids) == multiset([ids[0]]) + multiset(ids[1..]);
      AddedPlusDuplicates(ids[1..]);
    }
  }
}
