/** What the caller of a completed turn gets, note by note (src/flow_healer/codex_app_server_connector.py,
    `_await_turn_completion_locked` and `_render_agent_output`). */
module TurnAnswers {
  import opened Wrappers
  import opened Text
  import opened TurnFold

  /** The stripped text of an item: of its latest completion or, without one, its joined deltas */
  function ItemText(s: seq<Note>, k: Key, x: string): string
  {
    Trim(if LastText(s, k, x).Some? then LastText(s, k, x).value else DeltaText(s, k, x))
  }

  predicate IsFinal(s: seq<Note>, k: Key, x: string) { LastPhase(s, k, x) == Some("final_answer") }

  /** The texts of the final items that are not blank, in order */
  function FinalTexts(s: seq<Note>, k: Key, order: seq<string>): seq<string>
  {
    if order == [] then []
    else
      (if IsFinal(s, k, order[0]) && ItemText(s, k, order[0]) != "" then [ItemText(s, k, order[0])] else [])
      + FinalTexts(s, k, order[1..])
  }

  lemma {:induction false} BodyIs(s: seq<Note>, k: Key, x: string)
    ensures BodyOf(s, k, x) == Body(ItemText(s, k, x), IsFinal(s, k, x))
  {
  }

  lemma {:induction false} FinalTextsSnoc(s: seq<Note>, k: Key, order: seq<string>, x: string)
    ensures FinalTexts(s, k, order + [x])
         == if IsFinal(s, k, x) && ItemText(s, k, x) != "" then FinalTexts(s, k, order) + [ItemText(s, k, x)] else FinalTexts(s, k, order)
  {
    hide ItemText, IsFinal;
    if order == [] {
      assert [] + [x] == [x] && [x][1..] == [];
    } else {
      assert (order + [x])[1..] == order[1..] + [x] && (order + [x])[0] == order[0];
      FinalTextsSnoc(s, k, order[1..], x);
    }
  }

  lemma {:induction false} BodiesSnoc(s: seq<Note>, k: Key, order: seq<string>, x: string)
    ensures var all, b := Bodies(s, k, order + [x]), Body(ItemText(s, k, x), IsFinal(s, k, x));
            all == Bodies(s, k, order) + [b]
            && Finals(all) == if b.final then Finals(Bodies(s, k, order)) + [b] else Finals(Bodies(s, k, order))
  {
    hide ItemText, IsFinal, BodyOf;
    assert (order + [x])[..|order|] == order;
    BodyIs(s, k, x);
    var bodies := Bodies(s, k, order);
    assert (bodies + [BodyOf(s, k, x)])[..|bodies|] == bodies;
  }

  lemma {:induction false} TextsSnoc(bodies: seq<Body>, b: Body)
    ensures Texts(bodies + [b]) == if b.text != "" then Texts(bodies) + [b.text] else Texts(bodies)
  {
    assert (bodies + [b])[..|bodies|] == bodies;
  }

  lemma {:induction false} FinalTextsAre(s: seq<Note>, k: Key, order: seq<string>)
    ensures Texts(Finals(Bodies(s, k, order))) == FinalTexts(s, k, order)
  {
    if order != [] {
      hide ItemText, IsFinal, BodyOf, Bodies, Finals, Texts, FinalTexts;
      var front, x := order[..|order| - 1], order[|order| - 1];
      assert order == front + [x];
      FinalTextsAre(s, k, front);
      FinalTextsSnoc(s, k, front, x);
      BodiesSnoc(s, k, front, x);
      TextsSnoc(Finals(Bodies(s, k, front)), Body(ItemText(s, k, x), IsFinal(s, k, x)));
    }
  }

  lemma {:induction false} SomeFinal(s: seq<Note>, k: Key, order: seq<string>)
    ensures Finals(Bodies(s, k, order)) != [] <==> exists i :: 0 <= i < |order| && IsFinal(s, k, order[i])
  {
    if order != [] {
      hide ItemText, IsFinal, BodyOf, Bodies, Finals;
      var front, x := order[..|order| - 1], order[|order| - 1];
      assert order == front + [x];
      SomeFinal(s, k, front);
      BodiesSnoc(s, k, front, x);
      if IsFinal(s, k, x) { assert IsFinal(s, k, order[|order| - 1]); }
      if i :| 0 <= i < |front| && IsFinal(s, k, front[i]) { assert IsFinal(s, k, order[i]); }
    }
  }

  /** The tail is the text at the greatest place that is neither final nor blank, or nothing. */
  lemma {:induction false} TailAt(bodies: seq<Body>, m: int)
    requires -1 <= m < |bodies|
    requires forall j | m < j < |bodies| :: bodies[j].final || bodies[j].text == ""
    requires m >= 0 ==> !bodies[m].final && bodies[m].text != ""
    ensures Tail(bodies) == if m < 0 then "" else bodies[m].text
  {
    if m < |bodies| - 1 { TailAt(bodies[..|bodies| - 1], m); }
  }

  /** What a completed turn answers. Without a final item: the text of the last item of the order. Else: the texts of the
      final items that are not blank, in order, joined by blank lines. */
  lemma {:induction false} CompletedTurnAnswers(s: seq<Note>, end: Note, k: Key)
    requires FirstEnding(s, k).None? && end.TurnCompleted? && Terminal(end, k) && Trim(end.status) == "completed"
    ensures var order, out := Order(s, k), OutcomeOf(s + [end], k);
            && out.Completed?
            && (out.result.finalAnswer <==> exists i :: 0 <= i < |order| && IsFinal(s, k, order[i]))
            && out.result.output == (if out.result.finalAnswer then Join(FinalTexts(s, k, order), "\n\n")
                                     else if order == [] then "" else ItemText(s, k, order[|order| - 1]))
  {
    hide ItemText, IsFinal, BodyOf, Order, FirstEnding, OutcomeOf, Bodies, Finals, Tail, Join, Trim, FinalTexts;
    OutcomeSnoc(s, end, k);
    var order := Order(s, k);
    FinalTextsAre(s, k, order);
    SomeFinal(s, k, order);
    var bodies := Bodies(s, k, order);
    if order != [] {
      BodiesAt(s, k, order, |order| - 1);
      BodyIs(s, k, order[|order| - 1]);
      LastAlone(bodies[|bodies| - 1]);
    }
  }

  lemma {:induction false} LastAlone(b: Body)
    ensures Join(Texts([b]), "\n\n") == b.text
  {
    assert [b][..0] == [];
  }

  /** And its commentary tail: the text at the greatest place of the order, `m`, that is neither final nor blank; nothing
      when there is no such place (`m` is -1). */
  lemma {:induction false} CompletedTurnTail(s: seq<Note>, end: Note, k: Key, m: int)
    requires FirstEnding(s, k).None? && end.TurnCompleted? && Terminal(end, k) && Trim(end.status) == "completed"
    requires -1 <= m < |Order(s, k)|
    requires forall j | m < j < |Order(s, k)| :: IsFinal(s, k, Order(s, k)[j]) || ItemText(s, k, Order(s, k)[j]) == ""
    requires m >= 0 ==> !IsFinal(s, k, Order(s, k)[m]) && ItemText(s, k, Order(s, k)[m]) != ""
    ensures var out := OutcomeOf(s + [end], k);
            out.Completed? && out.result.commentaryTail == if m < 0 then "" else ItemText(s, k, Order(s, k)[m])
  {
    hide ItemText, IsFinal, BodyOf, Order, FirstEnding, OutcomeOf, Bodies, Finals, Texts, Tail, Join, Trim;
    OutcomeSnoc(s, end, k);
    var order := Order(s, k);
    var bodies := Bodies(s, k, order);
    forall j | 0 <= j < |order| ensures bodies[j] == Body(ItemText(s, k, order[j]), IsFinal(s, k, order[j])) {
      BodiesAt(s, k, order, j);
      BodyIs(s, k, order[j]);
    }
    TailAt(bodies, m);
    EmptyTail(bodies);
  }

  lemma {:induction false} EmptyTail(bodies: seq<Body>)
    ensures bodies == [] ==> Tail(bodies) == ""
  {
  }

  // ---------- which notes speak of an item ----------

  /** Deltas and completed agent messages of the own thread and turn speak of the item they name, stripped; a blank item
      id, a completion of anything but an agent message, and every other note speak of none. */
  lemma {:induction false} WhatNotesSpeakOf(k: Key, thread: Option<string>, turn: Option<string>, item: string, text: string, phase: string)
    ensures var own := thread == Some(k.thread) && turn == Some(k.turn) && Trim(item) != "";
            && DeltaItem(Delta(thread, turn, item, text), k) == (if own then Some(Trim(item)) else None)
            && DoneItem(Delta(thread, turn, item, text), k) == None
            && DoneItem(ItemCompleted(thread, turn, true, item, text, phase), k) == (if own then Some(Trim(item)) else None)
            && DoneItem(ItemCompleted(thread, turn, false, item, text, phase), k) == None
            && DeltaItem(ItemCompleted(thread, turn, true, item, text, phase), k) == None
  {
    hide Trim;
  }

  /** The text of an item comes from its latest completion, its phase from the latest one that names a phase, and without
      a completion its text is that of all its deltas in order. */
  lemma {:induction false} LatestCompletionWins(s: seq<Note>, k: Key, x: string, i: nat)
    requires i < |s| && DoneItem(s[i], k) == Some(x)
    ensures (forall j | i < j < |s| :: DoneItem(s[j], k) != Some(x)) ==> LastText(s, k, x) == Some(s[i].text)
    ensures Trim(s[i].phase) != "" && (forall j | i < j < |s| :: DoneItem(s[j], k) == Some(x) ==> Trim(s[j].phase) == "") ==>
              LastPhase(s, k, x) == Some(Trim(s[i].phase))
  {
    hide Trim, DoneItem;
    assert s[i].ItemCompleted? by { DoneIsCompletion(s[i], k); }
    if i < |s| - 1 {
      if DoneItem(s[|s| - 1], k) == Some(x) { DoneIsCompletion(s[|s| - 1], k); }
      LatestCompletionWins(s[..|s| - 1], k, x, i);
    }
  }

  lemma {:induction false} DoneIsCompletion(n: Note, k: Key)
    requires DoneItem(n, k).Some?
    ensures n.ItemCompleted?
  {
  }

  /** A message with a true `__eof__` key ends the turn it arrives in; running out of messages is a time-out. */
  lemma {:induction false} EofEndsTurn(s: seq<Note>, rest: seq<Note>, k: Key)
    requires FirstEnding(s, k).None?
    ensures OutcomeOf(s + [EndOfStream] + rest, k) == Failed("Codex app-server exited unexpectedly.")
    ensures OutcomeOf(s, k) == TimedOut
  {
    hide FirstEnding;
    var all := s + [EndOfStream] + rest;
    assert all[..|s|] == s;
    EndingAt(all, k, |s|);
    VerdictIs(all, s, EndOfStream, k);
    NoOutcome(s, k);
  }
}
