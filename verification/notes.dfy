/** Turning fetched cards into `addNotes` payloads: cards without a hint are
    skipped, every other card becomes one note, in fetch order. */
module NoteBuilder {
  import opened Wrappers
  import opened Lingq
  import opened Anki

  /** The note for a card: term on the front, first hint on the back. */
  function MakeNote(deck: Option<string>, model: Option<string>, c: Card): (r: Note)
    requires HasHint(c)
    ensures r.front == c.term && r.back == c.hints[0].text
    ensures r.deckName == deck && r.modelName == model && r.tags == ImportTag
  {
    Note(deck, model, c.term, c.hints[0].text, ImportTag)
  }

  /** The notes the import submits for the fetched cards. */
  function BuildNotes(deck: Option<string>, model: Option<string>, cards: seq<Card>): (notes: seq<Note>)
    ensures |notes| <= |cards|
    ensures forall n :: n in notes ==> n.deckName == deck && n.modelName == model && n.tags == ImportTag
  {
    if |cards| == 0 then []
    else
      var rest := BuildNotes(deck, model, cards[1..]);
      if HasHint(cards[0]) then [MakeNote(deck, model, cards[0])] + rest else rest
  }

  /** Positions of the cards that have a hint, in increasing order. */
  function HintedPositions(cards: seq<Card>): (idx: seq<nat>)
    ensures forall k :: 0 <= k < |idx| ==> idx[k] < |cards| && HasHint(cards[idx[k]])
    ensures forall k, l :: 0 <= k < l < |idx| ==> idx[k] < idx[l]
  {
    if |cards| == 0 then []
    else
      var front := HintedPositions(cards[..|cards| - 1]);
      if HasHint(cards[|cards| - 1]) then front + [|cards| - 1] else front
  }

  /** Every card with a hint has its position listed. */
  lemma {:induction false} HintedPositionsComplete(cards: seq<Card>)
    ensures forall i :: 0 <= i < |cards| && HasHint(cards[i]) ==> i in HintedPositions(cards)
  {
    if |cards| > 0 {
      var front := cards[..|cards| - 1];
      HintedPositionsComplete(front);
      forall i | 0 <= i < |cards| && HasHint(cards[i])
        ensures i in HintedPositions(cards)
      {
        if i < |front| {
          assert front[i] == cards[i];
        }
      }
    }
  }

  /** The set of positions whose card has a hint, written as a set
      comprehension on purpose: it is a reference independent of the
      recursive `HintedPositions`, against which the note count is checked. */
  ghost function HintedSet(cards: seq<Card>): set<int> {
    set i | 0 <= i < |cards| && HasHint(cards[i])
  }

  lemma {:induction false} BuildNotesAppend(deck: Option<string>, model: Option<string>, a: seq<Card>, b: seq<Card>)
    ensures BuildNotes(deck, model, a + b) == BuildNotes(deck, model, a) + BuildNotes(deck, model, b)
  {
    if |a| == 0 {
      assert a + b == b;
    } else {
      assert (a + b)[1..] == a[1..] + b;
      BuildNotesAppend(deck, model, a[1..], b);
    }
  }

  /** Note construction is an order-preserving filter followed by a map:
      note k is the note of the k-th card that has a hint. */
  lemma {:induction false} BuildNotesIsFilterMap(deck: Option<string>, model: Option<string>, cards: seq<Card>)
    ensures |BuildNotes(deck, model, cards)| == |HintedPositions(cards)|
    ensures forall k :: 0 <= k < |HintedPositions(cards)| ==>
              BuildNotes(deck, model, cards)[k] == MakeNote(deck, model, cards[HintedPositions(cards)[k]])
  {
    if |cards| > 0 {
      var front := cards[..|cards| - 1];
      var last := cards[|cards| - 1];
      assert cards == front + [last];
      BuildNotesAppend(deck, model, front, [last]);
      assert [last][1..] == [];
      BuildNotesIsFilterMap(deck, model, front);
      var notes, idx := BuildNotes(deck, model, cards), HintedPositions(cards);
      var notes', idx' := BuildNotes(deck, model, front), HintedPositions(front);
      if HasHint(last) {
        assert notes == notes' + [MakeNote(deck, model, last)];
        assert idx == idx' + [|front|];
      } else {
        assert notes == notes' && idx == idx';
      }
      forall k | 0 <= k < |idx'|
        ensures notes[k] == MakeNote(deck, model, cards[idx[k]])
      {
        assert notes[k] == notes'[k] && idx[k] == idx'[k] && cards[idx'[k]] == front[idx'[k]];
      }
    }
  }

  lemma HintedSetSnoc(cards: seq<Card>, c: Card)
    ensures HintedSet(cards + [c]) == HintedSet(cards) + (if HasHint(c) then {|cards|} else {})
  {
  }

  /** The number of notes is the number of cards with at least one hint. */
  lemma {:induction false} NoteCountIsHintedCount(deck: Option<string>, model: Option<string>, cards: seq<Card>)
    ensures |BuildNotes(deck, model, cards)| == |HintedSet(cards)|
  {
    if |cards| > 0 {
      var front := cards[..|cards| - 1];
      var last := cards[|cards| - 1];
      assert cards == front + [last];
      BuildNotesAppend(deck, model, front, [last]);
      assert [last][1..] == [];
      NoteCountIsHintedCount(deck, model, front);
      HintedSetSnoc(front, last);
      assert |front| !in HintedSet(front);
    }
  }

  /** A card with only its first hint kept. */
  function FirstHintOnly(c: Card): Card {
    if |c.hints| == 0 then c else c.(hints := c.hints[..1])
  }

  /** Only the first hint of a card matters: dropping every later hint of
      every card yields the same notes. */
  lemma {:induction false} OnlyFirstHintUsed(deck: Option<string>, model: Option<string>, cards: seq<Card>)
    ensures BuildNotes(deck, model, cards)
         == BuildNotes(deck, model, seq(|cards|, i requires 0 <= i < |cards| => FirstHintOnly(cards[i])))
  {
    var trimmed := seq(|cards|, i requires 0 <= i < |cards| => FirstHintOnly(cards[i]));
    if |cards| > 0 {
      var rest := seq(|cards| - 1, i requires 0 <= i < |cards| - 1 => FirstHintOnly(cards[1..][i]));
      assert trimmed[1..] == rest;
      OnlyFirstHintUsed(deck, model, cards[1..]);
    }
  }
}
