/** The `import` command: fetch the unlearned cards, build notes, submit them
    (or only describe them in a dry run), report each outcome and the number
    of new notes, then optionally mark every fetched card as known.

    The network is a parameter: `Replies` holds what LingQ and AnkiConnect
    answer, and a `Run` records the effects performed, in order, together
    with the error that stopped the command, if any. */
module ImportWorkflow {
  import opened Wrappers
  import opened Errors
  import opened Lingq
  import opened Anki
  import opened NoteBuilder

  /** The options of the `import` command that shape the workflow. */
  datatype Config = Config(deck: Option<string>, model: Option<string>, dryRun: bool, markKnown: bool)

  /** One observable effect of the import: a line of output, a request, or both. */
  datatype Event =
    | WouldAdd(note: Note)             // dry run: the note that would be submitted
    | SubmitNotes(notes: seq<Note>)    // the single `addNotes` request
    | Reported(outcome: Outcome)       // "Added card" / "Card was a duplicate" line
    | AddedTotal(count: nat)           // "N new cards added" line
    | WouldMark(pk: int, term: string) // dry run: the card that would be marked known (the line shows the term)
    | Marked(pk: int, term: string)    // the mark-known request and its line

  /** The effects performed, and the error that ended the command early. */
  datatype Run = Run(events: seq<Event>, failure: Option<Error>)

  /** What the services answer: the cards page, the envelope of the `addNotes`
      answer, and the position of the first mark-known request that LingQ
      rejects (absent when none is rejected). */
  datatype Replies = Replies(page: CardsPage, addNotes: Envelope<seq<Option<int>>>, markFailsAt: Option<nat>)

  function DryRunLines(notes: seq<Note>): seq<Event> {
    seq(|notes|, i requires 0 <= i < |notes| => WouldAdd(notes[i]))
  }

  function Reports(outcomes: seq<Outcome>): seq<Event> {
    seq(|outcomes|, i requires 0 <= i < |outcomes| => Reported(outcomes[i]))
  }

  /** The submit-and-report step. A dry run only describes the notes, one
      line per note in order, and sends nothing; a live run is `LiveSubmit`. */
  function Submit(dryRun: bool, notes: seq<Note>, reply: Envelope<seq<Option<int>>>): (run: Run)
    ensures dryRun ==> run.failure.None? && |run.events| == |notes|
    ensures dryRun ==> forall i :: 0 <= i < |notes| ==> run.events[i] == WouldAdd(notes[i])
    ensures dryRun ==> forall e :: e in run.events ==> e.WouldAdd?
    ensures !dryRun ==> |run.events| >= 1 && run.events[0] == SubmitNotes(notes)
    ensures !dryRun ==> forall e :: e in run.events ==> e.SubmitNotes? || e.Reported? || e.AddedTotal?
  {
    if dryRun then Run(DryRunLines(notes), None) else LiveSubmit(notes, Unwrap(reply))
  }

  /** A live submit: every note goes out in one `addNotes` request, whose
      checked answer is `answer`; each answer entry is reported against the
      note at the same position, and the step ends with the count of notes
      created. */
  function LiveSubmit(notes: seq<Note>, answer: Result<seq<Option<int>>, Error>): (run: Run)
    ensures |run.events| >= 1 && run.events[0] == SubmitNotes(notes)
    ensures forall e :: e in run.events ==> e.SubmitNotes? || e.Reported? || e.AddedTotal?
    ensures answer.Failure? ==> run == Run([SubmitNotes(notes)], Some(answer.error))
    ensures answer.Success? && |answer.value| <= |notes| ==>
              && run.failure.None?
              && |run.events| == |answer.value| + 2
              && (forall i :: 0 <= i < |answer.value| ==>
                    run.events[i + 1].Reported? && run.events[i + 1].outcome.note == notes[i]
                    && (run.events[i + 1].outcome.Duplicate? <==> answer.value[i].None?))
              && run.events[|answer.value| + 1] == AddedTotal(|AddedPositions(answer.value)|)
              && |AddedPositions(answer.value)| <= |notes|
    ensures answer.Success? && |answer.value| > |notes| ==>
              && run.failure == Some(MoreResultsThanNotes(|notes|))
              && |run.events| == |notes| + 1
              && (forall i :: 0 <= i < |notes| ==>
                    run.events[i + 1].Reported? && run.events[i + 1].outcome.note == notes[i]
                    && (run.events[i + 1].outcome.Duplicate? <==> answer.value[i].None?))
  {
    match answer
    case Failure(e) => Run([SubmitNotes(notes)], Some(e))
    case Success(ids) =>
      if |ids| <= |notes| then
        var lines := ReportLines(notes, ids);
        var events := [SubmitNotes(notes)] + lines + [AddedTotal(|ValidIds(ids)|)];
        assert forall i :: 0 <= i < |ids| ==> events[i + 1] == lines[i];
        ValidIdsCountsAddedPositions(ids);
        Run(events, None)
      else
        var lines := ReportLines(notes, ids[..|notes|]);
        var events := [SubmitNotes(notes)] + lines;
        assert forall i :: 0 <= i < |notes| ==> events[i + 1] == lines[i];
        Run(events, Some(MoreResultsThanNotes(|notes|)))
  }

  /** One report line per answer entry, about the note at the same position:
      a duplicate exactly when the entry is null. */
  function ReportLines(notes: seq<Note>, ids: seq<Option<int>>): (lines: seq<Event>)
    requires |ids| <= |notes|
    ensures |lines| == |ids|
    ensures forall e :: e in lines ==> e.Reported?
    ensures forall i :: 0 <= i < |ids| ==>
              lines[i].Reported? && lines[i].outcome.note == notes[i] && (lines[i].outcome.Duplicate? <==> ids[i].None?)
  {
    Reports(Classify(notes, ids))
  }

  /** The mark-known loop over every fetched card, in fetch order. A dry run
      only names the cards; a live run marks them one by one and stops at the
      first request LingQ rejects. */
  function MarkLoop(dryRun: bool, cards: seq<Card>, failsAt: Option<nat>): (run: Run)
    ensures dryRun ==> run.failure.None? && |run.events| == |cards|
    ensures dryRun ==> forall i :: 0 <= i < |cards| ==> run.events[i] == WouldMark(cards[i].pk, cards[i].term)
    ensures dryRun ==> forall e :: e in run.events ==> e.WouldMark?
    ensures !dryRun ==> forall e :: e in run.events ==> e.Marked?
    ensures !dryRun ==> |run.events| <= |cards|
    ensures !dryRun ==> forall i :: 0 <= i < |run.events| ==> run.events[i] == Marked(cards[i].pk, cards[i].term)
    ensures !dryRun ==> (run.failure.None? <==> failsAt.None? || failsAt.value >= |cards|)
    ensures !dryRun && run.failure.None? ==> |run.events| == |cards|
    ensures !dryRun && failsAt.Some? && failsAt.value < |cards| ==>
              |run.events| == failsAt.value && run.failure == Some(MarkKnownRejected(cards[failsAt.value].pk))
    decreases |cards|
  {
    if |cards| == 0 then Run([], None)
    else if dryRun then
      var rest := MarkLoop(dryRun, cards[1..], failsAt);
      Run([WouldMark(cards[0].pk, cards[0].term)] + rest.events, rest.failure)
    else if failsAt == Some(0) then Run([], Some(MarkKnownRejected(cards[0].pk)))
    else
      var next := if failsAt.Some? then Some(failsAt.value - 1) else None;
      var rest := MarkLoop(dryRun, cards[1..], next);
      Run([Marked(cards[0].pk, cards[0].term)] + rest.events, rest.failure)
  }

  /** The whole `import` command after login. */
  function Import(cfg: Config, replies: Replies): (run: Run)
    ensures |replies.page.results| != replies.page.count ==> run == Run([], Some(IncompletePage))
    ensures cfg.dryRun ==> (run.failure.None? <==> |replies.page.results| == replies.page.count)
    ensures cfg.dryRun ==> forall e :: e in run.events ==> e.WouldAdd? || e.WouldMark?
    ensures !cfg.dryRun ==> forall e :: e in run.events ==> !e.WouldAdd? && !e.WouldMark?
    ensures !cfg.markKnown ==> forall e :: e in run.events ==> !e.WouldMark? && !e.Marked?
    ensures !cfg.dryRun && |replies.page.results| == replies.page.count && Unwrap(replies.addNotes).Failure? ==>
              run == Run([SubmitNotes(BuildNotes(cfg.deck, cfg.model, replies.page.results))],
                         Some(Unwrap(replies.addNotes).error))
    ensures !cfg.dryRun && |replies.page.results| == replies.page.count && Unwrap(replies.addNotes).Success?
            && |Unwrap(replies.addNotes).value| > |BuildNotes(cfg.deck, cfg.model, replies.page.results)| ==>
              && run.failure == Some(MoreResultsThanNotes(|BuildNotes(cfg.deck, cfg.model, replies.page.results)|))
              && forall e :: e in run.events ==> !e.Marked?
  {
    var fetched := FetchedCards(replies.page);
    if fetched.Failure? then Run([], Some(fetched.error))
    else
      var cards := fetched.value;
      var notes := BuildNotes(cfg.deck, cfg.model, cards);
      var submit := Submit(cfg.dryRun, notes, replies.addNotes);
      if submit.failure.Some? || !cfg.markKnown then submit
      else
        var mark := MarkLoop(cfg.dryRun, cards, replies.markFailsAt);
        Run(submit.events + mark.events, mark.failure)
  }

  /** A dry run that gets past the page check describes every note, in order,
      and then, when mark-known was asked for, every fetched card, in order. */
  lemma DryImportRun(cfg: Config, replies: Replies)
    ensures var run := Import(cfg, replies);
            cfg.dryRun && |replies.page.results| == replies.page.count ==>
              var cards, notes := replies.page.results, BuildNotes(cfg.deck, cfg.model, replies.page.results);
              && |run.events| == |notes| + (if cfg.markKnown then |cards| else 0)
              && (forall i :: 0 <= i < |notes| ==> run.events[i] == WouldAdd(notes[i]))
              && (forall j :: |notes| <= j < |run.events| ==>
                    run.events[j] == WouldMark(cards[j - |notes|].pk, cards[j - |notes|].term))
  {
    var cards, notes := replies.page.results, BuildNotes(cfg.deck, cfg.model, replies.page.results);
    if cfg.dryRun && |cards| == replies.page.count {
      var submit := Submit(true, notes, replies.addNotes);
      if cfg.markKnown {
        var mark := MarkLoop(true, cards, replies.markFailsAt);
        assert Import(cfg, replies) == Run(submit.events + mark.events, mark.failure);
      } else {
        assert Import(cfg, replies) == submit;
      }
    }
  }

  /** A live run whose `addNotes` answer is accepted and fits the notes: the
      request, one report line per answer entry about the note at the same
      position, the count of created notes, and then, when mark-known was
      asked for, the cards marked in fetch order up to the first one LingQ
      rejects, whose error ends the command. */
  lemma LiveImportRun(cfg: Config, replies: Replies)
    ensures var run := Import(cfg, replies);
            !cfg.dryRun && |replies.page.results| == replies.page.count && Unwrap(replies.addNotes).Success?
            && |Unwrap(replies.addNotes).value| <= |BuildNotes(cfg.deck, cfg.model, replies.page.results)| ==>
              LiveShape(run, BuildNotes(cfg.deck, cfg.model, replies.page.results), Unwrap(replies.addNotes).value,
                        if cfg.markKnown then replies.page.results else [], replies.markFailsAt)
  {
    var cards, notes := replies.page.results, BuildNotes(cfg.deck, cfg.model, replies.page.results);
    var answer := Unwrap(replies.addNotes);
    if !cfg.dryRun && |cards| == replies.page.count && answer.Success? && |answer.value| <= |notes| {
      var marked: seq<Card> := if cfg.markKnown then cards else [];
      var submit := LiveSubmit(notes, answer);
      var mark := MarkLoop(false, marked, replies.markFailsAt);
      assert Submit(false, notes, replies.addNotes) == submit;
      assert Import(cfg, replies) == Run(submit.events + mark.events, mark.failure) by {
        if !cfg.markKnown {
          assert submit.events + mark.events == submit.events;
        }
      }
      LiveThenMark(notes, answer.value, marked, replies.markFailsAt);
    }
  }

  /** The effects of a live run that submits `notes`, gets the answer `ids`
      (no longer than the notes) and then marks `marked` known: the submit
      step's effects followed by the mark loop's. */
  ghost predicate LiveShape(run: Run, notes: seq<Note>, ids: seq<Option<int>>, marked: seq<Card>, failsAt: Option<nat>) {
    && |ids| + 2 <= |run.events|
    && SubmitShape(run.events[..|ids| + 2], notes, ids)
    && MarkShape(run.events[|ids| + 2..], run.failure, marked, failsAt)
  }

  /** The request, one report line per answer entry about the note at the
      same position (a duplicate exactly when the entry is null), and the
      count of created notes. */
  ghost predicate SubmitShape(events: seq<Event>, notes: seq<Note>, ids: seq<Option<int>>) {
    && |events| == |ids| + 2
    && events[0] == SubmitNotes(notes)
    && (forall i :: 0 <= i < |ids| ==>
          i < |notes| && events[i + 1].Reported? && events[i + 1].outcome.note == notes[i]
          && (events[i + 1].outcome.Duplicate? <==> ids[i].None?))
    && events[|ids| + 1] == AddedTotal(|AddedPositions(ids)|)
  }

  /** The cards marked in order up to the first one LingQ rejects; that
      card's error ends the run, and without a rejection every card is marked. */
  ghost predicate MarkShape(events: seq<Event>, failure: Option<Error>, marked: seq<Card>, failsAt: Option<nat>) {
    && |events| <= |marked|
    && (forall j :: 0 <= j < |events| ==> events[j] == Marked(marked[j].pk, marked[j].term))
    && (failsAt.None? || failsAt.value >= |marked| ==> failure.None? && |events| == |marked|)
    && (failsAt.Some? && failsAt.value < |marked| ==>
          failure == Some(MarkKnownRejected(marked[failsAt.value].pk)) && |events| == failsAt.value)
  }

  /** A fitting live submit followed by the live mark loop has the live shape. */
  lemma LiveThenMark(notes: seq<Note>, ids: seq<Option<int>>, cards: seq<Card>, failsAt: Option<nat>)
    requires |ids| <= |notes|
    ensures var submit, mark := LiveSubmit(notes, Success(ids)), MarkLoop(false, cards, failsAt);
            LiveShape(Run(submit.events + mark.events, mark.failure), notes, ids, cards, failsAt)
  {
    var submit, mark := LiveSubmit(notes, Success(ids)), MarkLoop(false, cards, failsAt);
    var events := submit.events + mark.events;
    assert events[..|ids| + 2] == submit.events;
    assert events[|ids| + 2..] == mark.events;
  }

  /** The notes one effect submits (live) or says it would submit (dry run). */
  function NotesOf(e: Event): seq<Note> {
    match e
    case WouldAdd(n) => [n]
    case SubmitNotes(ns) => ns
    case _ => []
  }

  /** The card (id and term) one effect marks (live) or says it would mark (dry run). */
  function MarksOf(e: Event): seq<(int, string)> {
    match e
    case WouldMark(pk, t) => [(pk, t)]
    case Marked(pk, t) => [(pk, t)]
    case _ => []
  }

  /** The concatenation of `f` over `xs`, in order. */
  function FlatMap<X, Y>(f: X -> seq<Y>, xs: seq<X>): seq<Y> {
    if |xs| == 0 then [] else f(xs[0]) + FlatMap(f, xs[1..])
  }

  lemma {:induction false} FlatMapAppend<X, Y>(f: X -> seq<Y>, a: seq<X>, b: seq<X>)
    ensures FlatMap(f, a + b) == FlatMap(f, a) + FlatMap(f, b)
  {
    if |a| == 0 {
      assert a + b == b;
    } else {
      assert (a + b)[0] == a[0] && (a + b)[1..] == a[1..] + b;
      FlatMapAppend(f, a[1..], b);
    }
  }

  lemma FlatMapOne<X, Y>(f: X -> seq<Y>, x: X)
    ensures FlatMap(f, [x]) == f(x)
  {
    assert [x][1..] == [];
  }

  /** The notes a sequence of effects submits or says it would submit. */
  function IntendedNotes(events: seq<Event>): seq<Note> {
    FlatMap(NotesOf, events)
  }

  /** The cards a sequence of effects marks or says it would mark. */
  function IntendedMarks(events: seq<Event>): seq<(int, string)> {
    FlatMap(MarksOf, events)
  }

  /** The id and term of every card, in order. */
  function MarkTargets(cards: seq<Card>): seq<(int, string)> {
    if |cards| == 0 then [] else [(cards[0].pk, cards[0].term)] + MarkTargets(cards[1..])
  }

  lemma IntendedAppend(a: seq<Event>, b: seq<Event>)
    ensures IntendedNotes(a + b) == IntendedNotes(a) + IntendedNotes(b)
    ensures IntendedMarks(a + b) == IntendedMarks(a) + IntendedMarks(b)
  {
    FlatMapAppend(NotesOf, a, b);
    FlatMapAppend(MarksOf, a, b);
  }

  lemma {:induction false} IntendedOfDryRunLines(notes: seq<Note>)
    ensures IntendedNotes(DryRunLines(notes)) == notes
    ensures IntendedMarks(DryRunLines(notes)) == []
  {
    if |notes| > 0 {
      assert DryRunLines(notes)[1..] == DryRunLines(notes[1..]);
      IntendedOfDryRunLines(notes[1..]);
    }
  }

  lemma {:induction false} IntendedOfReports(outcomes: seq<Outcome>)
    ensures IntendedNotes(Reports(outcomes)) == []
    ensures IntendedMarks(Reports(outcomes)) == []
  {
    if |outcomes| > 0 {
      assert Reports(outcomes)[1..] == Reports(outcomes[1..]);
      IntendedOfReports(outcomes[1..]);
    }
  }

  /** A submit step that completes announces exactly its notes and no marks. */
  lemma IntendedOfSubmit(dryRun: bool, notes: seq<Note>, reply: Envelope<seq<Option<int>>>)
    requires dryRun || (Unwrap(reply).Success? && |Unwrap(reply).value| <= |notes|)
    ensures IntendedNotes(Submit(dryRun, notes, reply).events) == notes
    ensures IntendedMarks(Submit(dryRun, notes, reply).events) == []
  {
    if dryRun {
      IntendedOfDryRunLines(notes);
    } else {
      var ids := Unwrap(reply).value;
      var reports := ReportLines(notes, ids);
      var total := AddedTotal(|ValidIds(ids)|);
      assert Submit(dryRun, notes, reply).events == LiveSubmit(notes, Unwrap(reply)).events
          == [SubmitNotes(notes)] + reports + [total];
      IntendedAppend([SubmitNotes(notes)] + reports, [total]);
      IntendedAppend([SubmitNotes(notes)], reports);
      IntendedOfReports(Classify(notes, ids));
      FlatMapOne(NotesOf, SubmitNotes(notes));
      FlatMapOne(MarksOf, SubmitNotes(notes));
      FlatMapOne(NotesOf, total);
      FlatMapOne(MarksOf, total);
    }
  }

  lemma {:induction false} IntendedOfMarkLoop(dryRun: bool, cards: seq<Card>, failsAt: Option<nat>)
    requires MarkLoop(dryRun, cards, failsAt).failure.None?
    ensures IntendedNotes(MarkLoop(dryRun, cards, failsAt).events) == []
    ensures IntendedMarks(MarkLoop(dryRun, cards, failsAt).events) == MarkTargets(cards)
    decreases |cards|
  {
    if |cards| > 0 {
      if dryRun {
        var rest := MarkLoop(dryRun, cards[1..], failsAt);
        var events := [WouldMark(cards[0].pk, cards[0].term)] + rest.events;
        assert MarkLoop(dryRun, cards, failsAt) == Run(events, rest.failure);
        assert events[1..] == rest.events;
        IntendedOfMarkLoop(dryRun, cards[1..], failsAt);
      } else {
        var next := if failsAt.None? then failsAt else Some(failsAt.value - 1);
        var rest := MarkLoop(dryRun, cards[1..], next);
        var events := [Marked(cards[0].pk, cards[0].term)] + rest.events;
        assert MarkLoop(dryRun, cards, failsAt) == Run(events, rest.failure);
        assert events[1..] == rest.events;
        IntendedOfMarkLoop(dryRun, cards[1..], next);
      }
    }
  }

  /** A completed import submits (or, in a dry run, describes) exactly the
      notes built from the fetched cards, and marks (or describes marking)
      every fetched card in fetch order, hint-less ones included, precisely
      when mark-known was asked for. */
  lemma {:induction false} ImportIntents(cfg: Config, replies: Replies)
    requires Import(cfg, replies).failure.None?
    ensures |replies.page.results| == replies.page.count
    ensures IntendedNotes(Import(cfg, replies).events) == BuildNotes(cfg.deck, cfg.model, replies.page.results)
    ensures IntendedMarks(Import(cfg, replies).events) == if cfg.markKnown then MarkTargets(replies.page.results) else []
  {
    var cards := replies.page.results;
    var notes := BuildNotes(cfg.deck, cfg.model, cards);
    var submit := Submit(cfg.dryRun, notes, replies.addNotes);
    assert submit.failure.None?;
    IntendedOfSubmit(cfg.dryRun, notes, replies.addNotes);
    if !cfg.markKnown {
      assert Import(cfg, replies) == submit;
    } else {
      var mark := MarkLoop(cfg.dryRun, cards, replies.markFailsAt);
      assert Import(cfg, replies) == Run(submit.events + mark.events, mark.failure);
      IntendedAppend(submit.events, mark.events);
      IntendedOfMarkLoop(cfg.dryRun, cards, replies.markFailsAt);
    }
  }

  /** A dry run announces exactly the notes and mark-known requests that a
      successful live run with the same answers performs. */
  lemma DryRunMirrorsLive(cfg: Config, replies: Replies)
    requires Import(cfg.(dryRun := false), replies).failure.None?
    ensures IntendedNotes(Import(cfg.(dryRun := true), replies).events)
         == IntendedNotes(Import(cfg.(dryRun := false), replies).events)
    ensures IntendedMarks(Import(cfg.(dryRun := true), replies).events)
         == IntendedMarks(Import(cfg.(dryRun := false), replies).events)
  {
    ImportIntents(cfg.(dryRun := false), replies);
    ImportIntents(cfg.(dryRun := true), replies);
  }

  /** Which cards get marked known does not depend on whether their notes
      were added or refused as duplicates. */
  lemma MarkingIgnoresNoteOutcomes(cfg: Config, r1: Replies, r2: Replies)
    requires r1.page == r2.page && r1.markFailsAt == r2.markFailsAt
    requires Unwrap(r1.addNotes).Success? && |Unwrap(r1.addNotes).value| <= |BuildNotes(cfg.deck, cfg.model, r1.page.results)|
    requires Unwrap(r2.addNotes).Success? && |Unwrap(r2.addNotes).value| <= |BuildNotes(cfg.deck, cfg.model, r2.page.results)|
    ensures IntendedMarks(Import(cfg, r1).events) == IntendedMarks(Import(cfg, r2).events)
    ensures Import(cfg, r1).failure == Import(cfg, r2).failure
  {
    var cards := r1.page.results;
    if |cards| == r1.page.count {
      var notes := BuildNotes(cfg.deck, cfg.model, cards);
      var s1 := Submit(cfg.dryRun, notes, r1.addNotes);
      var s2 := Submit(cfg.dryRun, notes, r2.addNotes);
      assert s1.failure.None? && s2.failure.None?;
      IntendedOfSubmit(cfg.dryRun, notes, r1.addNotes);
      IntendedOfSubmit(cfg.dryRun, notes, r2.addNotes);
      if cfg.markKnown {
        var mark := MarkLoop(cfg.dryRun, cards, r1.markFailsAt);
        assert Import(cfg, r1) == Run(s1.events + mark.events, mark.failure);
        assert Import(cfg, r2) == Run(s2.events + mark.events, mark.failure);
        IntendedAppend(s1.events, mark.events);
        IntendedAppend(s2.events, mark.events);
      } else {
        assert Import(cfg, r1) == s1;
        assert Import(cfg, r2) == s2;
      }
    }
  }

  /** Two cards, one without hints, and Anki creating the one note: a single
      note is submitted and one new card is reported. */
  lemma ScenarioHintlessCardSkipped()
    ensures
      var cards := [Card(185034977, "des que", [Hint("as soon as")]), Card(7, "bof", [])];
      var note := Note(None, None, "des que", "as soon as", ImportTag);
      Import(Config(None, None, false, false),
             Replies(CardsPage(2, cards), Envelope(None, Some([Some(12345)])), None))
      == Run([SubmitNotes([note]), Reported(Added(note)), AddedTotal(1)], None)
  {
    var cards := [Card(185034977, "des que", [Hint("as soon as")]), Card(7, "bof", [])];
    var note := Note(None, None, "des que", "as soon as", ImportTag);
    assert cards[1..][1..] == [];
    assert BuildNotes(None, None, cards) == [note];
    assert ValidIds([Some(12345)]) == [12345];
    assert Classify([note], [Some(12345)]) == [Added(note)];
  }

  /** Answer [12345, null] for two notes: the first is added, the second a
      duplicate, and one new card is counted. */
  lemma ScenarioOneDuplicate()
    ensures
      var a := Note(None, None, "a", "x", ImportTag);
      var b := Note(None, None, "b", "y", ImportTag);
      Submit(false, [a, b], Envelope(None, Some([Some(12345), None])))
      == Run([SubmitNotes([a, b]), Reported(Added(a)), Reported(Duplicate(b)), AddedTotal(1)], None)
  {
  }
}
