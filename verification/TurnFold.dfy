/** How one turn's answer is assembled from the notification stream
    (src/flow_healer/codex_app_server_connector.py, `_await_turn_completion_locked` and
    `_render_agent_output`). The stream holds what arrives before the deadline; running out of it is the
    time-out. */
module TurnFold {
  import opened Wrappers
  import opened Text

  /** `EndOfStream` is any message with a true `__eof__` key. */
  datatype Note =
    | Delta(thread: Option<string>, turn: Option<string>, item: string, text: string)
    | ItemCompleted(thread: Option<string>, turn: Option<string>, agentMessage: bool, item: string, text: string, phase: string)
    | TurnCompleted(thread: Option<string>, turnId: string, status: string, error: string)
    | ErrorNote(message: string)
    | Other
    | EndOfStream

  /** The turn whose answer is awaited */
  datatype Key = Key(thread: string, turn: string)

  datatype TurnResult = TurnResult(output: string, finalAnswer: bool, commentaryTail: string)

  datatype Outcome = Completed(result: TurnResult) | Failed(message: string) | TimedOut

  /** The item a delta belongs to; nothing for another turn's delta or a blank item id */
  function DeltaItem(n: Note, k: Key): Option<string>
  {
    if n.Delta? && n.thread == Some(k.thread) && n.turn == Some(k.turn) && Trim(n.item) != "" then Some(Trim(n.item)) else None
  }

  /** The item a completion belongs to */
  function DoneItem(n: Note, k: Key): Option<string>
  {
    if n.ItemCompleted? && n.thread == Some(k.thread) && n.turn == Some(k.turn) && n.agentMessage && Trim(n.item) != ""
    then Some(Trim(n.item)) else None
  }

  /** The note ends the wait. `error` notes of any turn do. */
  predicate Terminal(n: Note, k: Key)
  {
    || n.ErrorNote? || n.EndOfStream?
    || (n.TurnCompleted? && n.thread == Some(k.thread) && Trim(n.turnId) == k.turn)
  }

  // ---------- what the notes of a stream say about one item ----------

  /** The delta texts of an item, in order of arrival */
  function Chunks(s: seq<Note>, k: Key, x: string): seq<string>
  {
    if s == [] then []
    else
      var n := s[|s| - 1];
      var front := Chunks(s[..|s| - 1], k, x);
      if DeltaItem(n, k) == Some(x) then front + [n.text] else front
  }

  /** All delta text of an item */
  function DeltaText(s: seq<Note>, k: Key, x: string): string
  {
    if s == [] then ""
    else
      var n := s[|s| - 1];
      var front := DeltaText(s[..|s| - 1], k, x);
      if DeltaItem(n, k) == Some(x) then front + n.text else front
  }

  /** The text of the item's latest completion */
  function LastText(s: seq<Note>, k: Key, x: string): Option<string>
  {
    if s == [] then None
    else
      var n := s[|s| - 1];
      if DoneItem(n, k) == Some(x) then Some(n.text) else LastText(s[..|s| - 1], k, x)
  }

  /** The latest phase that a completion of the item names */
  function LastPhase(s: seq<Note>, k: Key, x: string): Option<string>
  {
    if s == [] then None
    else
      var n := s[|s| - 1];
      if DoneItem(n, k) == Some(x) && Trim(n.phase) != "" then Some(Trim(n.phase)) else LastPhase(s[..|s| - 1], k, x)
  }

  /** `item_order`: an item enters with its first delta, and with a completion when it is not there yet. */
  function Order(s: seq<Note>, k: Key): seq<string>
  {
    if s == [] then []
    else
      var n, front := s[|s| - 1], s[..|s| - 1];
      var order := Order(front, k);
      match DeltaItem(n, k)
      case Some(x) => if Chunks(front, k, x) == [] then order + [x] else order
      case None =>
        match DoneItem(n, k)
        case Some(x) => if x in order then order else order + [x]
        case None => order
  }

  /** Every item once, in the order of first appearance */
  function FirstAppearances(s: seq<Note>, k: Key): seq<string>
  {
    if s == [] then []
    else
      var n, rest := s[|s| - 1], FirstAppearances(s[..|s| - 1], k);
      var item := if DeltaItem(n, k).Some? then DeltaItem(n, k) else DoneItem(n, k);
      if item.Some? && item.value !in rest then rest + [item.value] else rest
  }

  // ---------- the answer ----------

  datatype Body = Body(text: string, final: bool)

  const FINAL := "final_answer"

  function BodyOf(s: seq<Note>, k: Key, x: string): Body
  {
    Body(Trim(match LastText(s, k, x) case Some(t) => t case None => DeltaText(s, k, x)),
         LastPhase(s, k, x) == Some(FINAL))
  }

  function Bodies(s: seq<Note>, k: Key, order: seq<string>): (r: seq<Body>)
    ensures |r| == |order|
  {
    if order == [] then [] else Bodies(s, k, order[..|order| - 1]) + [BodyOf(s, k, order[|order| - 1])]
  }

  function Finals(bodies: seq<Body>): seq<Body>
  {
    if bodies == [] then []
    else
      var last, front := bodies[|bodies| - 1], Finals(bodies[..|bodies| - 1]);
      if last.final then front + [last] else front
  }

  /** The texts that are not blank */
  function Texts(bodies: seq<Body>): seq<string>
  {
    if bodies == [] then []
    else
      var last, front := bodies[|bodies| - 1], Texts(bodies[..|bodies| - 1]);
      if last.text != "" then front + [last.text] else front
  }

  /** The last text that is not blank among the bodies that are not final */
  function Tail(bodies: seq<Body>): string
  {
    if bodies == [] then ""
    else
      var last := bodies[|bodies| - 1];
      if !last.final && last.text != "" then last.text else Tail(bodies[..|bodies| - 1])
  }

  /** The final answers joined by blank lines or, without any, the last item; and the last commentary */
  function Answer(bodies: seq<Body>): TurnResult
  {
    if bodies == [] then TurnResult("", false, "")
    else
      var finals := Finals(bodies);
      TurnResult(Join(Texts(if finals != [] then finals else [bodies[|bodies| - 1]]), "\n\n"), finals != [], Tail(bodies))
  }

  // ---------- the outcome of a stream ----------

  /** Where the wait ends: the notes before, and the note that ends it */
  datatype Ending = Ending(before: seq<Note>, note: Note)

  function FirstEnding(s: seq<Note>, k: Key): Option<Ending>
  {
    if s == [] then None
    else
      var front := s[..|s| - 1];
      var e := FirstEnding(front, k);
      if e.Some? then e
      else if Terminal(s[|s| - 1], k) then Some(Ending(front, s[|s| - 1]))
      else None
  }

  const EXITED := "Codex app-server exited unexpectedly."
  const NO_STRIP := "'ConnectorTurnResult' object has no attribute 'strip'"
  const SERVER_ERROR := "Codex app-server reported an error."

  function Verdict(before: seq<Note>, n: Note, k: Key): Outcome
    requires Terminal(n, k)
  {
    match n
    case EndOfStream => Failed(EXITED)
    case ErrorNote(message) => Failed(Trim(if message == "" then SERVER_ERROR else message))
    case TurnCompleted(_, _, status, _) =>
      if Trim(status) == "completed" then Completed(Answer(Bodies(before, k, Order(before, k))))
      else Failed(NO_STRIP)
  }

  lemma {:induction false} EndingIs(s: seq<Note>, k: Key)
    ensures FirstEnding(s, k).Some? ==> Terminal(FirstEnding(s, k).value.note, k)
  {
    if s != [] { EndingIs(s[..|s| - 1], k); }
  }

  function OutcomeOf(s: seq<Note>, k: Key): Outcome
  {
    EndingIs(s, k);
    match FirstEnding(s, k)
    case None => TimedOut
    case Some(e) => Verdict(e.before, e.note, k)
  }

  // ---------- the loops of the source ----------

  /** The four tables of the loop hold exactly what the stream so far says. */
  ghost predicate Tracks(deltas: map<string, seq<string>>, texts: map<string, string>, phases: map<string, string>, s: seq<Note>, k: Key)
  {
    && (forall x :: Chunks(s, k, x) == if x in deltas then deltas[x] else [])
    && (forall x :: x in deltas ==> deltas[x] != [])
    && (forall x :: LastText(s, k, x) == if x in texts then Some(texts[x]) else None)
    && (forall x :: LastPhase(s, k, x) == if x in phases then Some(phases[x]) else None)
  }

  lemma {:induction false} Snoc(s: seq<Note>, n: Note)
    ensures (s + [n])[..|s + [n]| - 1] == s && (s + [n])[|s + [n]| - 1] == n
  {
  }

  lemma {:induction false} TrackDelta(deltas: map<string, seq<string>>, texts: map<string, string>, phases: map<string, string>,
                                      s: seq<Note>, n: Note, k: Key)
    requires Tracks(deltas, texts, phases, s, k) && DeltaItem(n, k).Some?
    ensures var x := Trim(n.item);
            Tracks(deltas[x := (if x in deltas then deltas[x] else []) + [n.text]], texts, phases, s + [n], k)
  {
    hide Trim;
    Snoc(s, n);
  }

  lemma {:induction false} TrackDone(deltas: map<string, seq<string>>, texts: map<string, string>, phases: map<string, string>,
                                     s: seq<Note>, n: Note, k: Key)
    requires Tracks(deltas, texts, phases, s, k) && DoneItem(n, k).Some?
    ensures var x, p := Trim(n.item), Trim(n.phase);
            Tracks(deltas, texts[x := n.text], if p == "" then phases else phases[x := p], s + [n], k)
  {
    hide Trim;
    Snoc(s, n);
  }

  lemma {:induction false} TrackOther(deltas: map<string, seq<string>>, texts: map<string, string>, phases: map<string, string>,
                                      s: seq<Note>, n: Note, k: Key)
    requires Tracks(deltas, texts, phases, s, k) && DeltaItem(n, k).None? && DoneItem(n, k).None?
    ensures Tracks(deltas, texts, phases, s + [n], k)
  {
    hide Trim;
    Snoc(s, n);
  }

  /** The body of an item, read from the tables */
  function TableBody(x: string, deltas: map<string, seq<string>>, texts: map<string, string>, phases: map<string, string>): Body
  {
    Body(Trim(if x in texts then texts[x] else if x in deltas then Join(deltas[x], "") else ""),
         x in phases && phases[x] == FINAL)
  }

  function TableBodies(order: seq<string>, deltas: map<string, seq<string>>, texts: map<string, string>, phases: map<string, string>): (r: seq<Body>)
    ensures |r| == |order|
  {
    if order == [] then []
    else TableBodies(order[..|order| - 1], deltas, texts, phases) + [TableBody(order[|order| - 1], deltas, texts, phases)]
  }

  lemma {:induction false} TableBodyAt(order: seq<string>, deltas: map<string, seq<string>>, texts: map<string, string>, phases: map<string, string>, i: nat)
    requires i < |order|
    ensures TableBodies(order, deltas, texts, phases)[i] == TableBody(order[i], deltas, texts, phases)
  {
    hide TableBody;
    if i < |order| - 1 { TableBodyAt(order[..|order| - 1], deltas, texts, phases, i); }
  }

  lemma {:induction false} BodiesAt(s: seq<Note>, k: Key, order: seq<string>, i: nat)
    requires i < |order|
    ensures Bodies(s, k, order)[i] == BodyOf(s, k, order[i])
  {
    hide BodyOf;
    if i < |order| - 1 { BodiesAt(s, k, order[..|order| - 1], i); }
  }

  /** Joining the chunks gives the delta text, however it was cut up. */
  lemma {:induction false} ChunksJoin(s: seq<Note>, k: Key, x: string)
    ensures Join(Chunks(s, k, x), "") == DeltaText(s, k, x)
    ensures Chunks(s, k, x) == [] ==> DeltaText(s, k, x) == ""
  {
    hide Trim;
    if s != [] {
      var front, n := s[..|s| - 1], s[|s| - 1];
      ChunksJoin(front, k, x);
      var chunks := Chunks(front, k, x);
      if DeltaItem(n, k) == Some(x) {
        if chunks != [] {
          JoinConcat(chunks, [n.text], "");
          assert Join(chunks, "") + "" == Join(chunks, "");
        } else {
          assert chunks + [n.text] == [n.text] && "" + n.text == n.text;
        }
      }
    }
  }

  lemma {:induction false} TablesAnswer(order: seq<string>, deltas: map<string, seq<string>>, texts: map<string, string>, phases: map<string, string>, s: seq<Note>, k: Key)
    requires Tracks(deltas, texts, phases, s, k)
    ensures TableBodies(order, deltas, texts, phases) == Bodies(s, k, order)
  {
    hide TableBodies, Bodies, Chunks, DeltaText, LastText, LastPhase, Trim;
    forall i | 0 <= i < |order|
      ensures TableBodies(order, deltas, texts, phases)[i] == Bodies(s, k, order)[i]
    {
      TableBodyAt(order, deltas, texts, phases, i);
      BodiesAt(s, k, order, i);
      ChunksJoin(s, k, order[i]);
    }
  }

  function FinalIds(order: seq<string>, phases: map<string, string>): seq<string>
  {
    if order == [] then []
    else
      var x := order[|order| - 1];
      var front := FinalIds(order[..|order| - 1], phases);
      if x in phases && phases[x] == FINAL then front + [x] else front
  }

  lemma {:induction false} FinalBodies(order: seq<string>, deltas: map<string, seq<string>>, texts: map<string, string>, phases: map<string, string>)
    ensures TableBodies(FinalIds(order, phases), deltas, texts, phases) == Finals(TableBodies(order, deltas, texts, phases))
  {
    hide Trim, Join;
    if order != [] {
      var front, x := order[..|order| - 1], order[|order| - 1];
      FinalBodies(front, deltas, texts, phases);
      assert (FinalIds(front, phases) + [x])[..|FinalIds(front, phases)|] == FinalIds(front, phases);
      var bodies := TableBodies(front, deltas, texts, phases);
      var b := TableBody(x, deltas, texts, phases);
      assert (bodies + [b])[..|bodies|] == bodies;
      assert b.final <==> x in phases && phases[x] == FINAL;
    }
  }

  /** The joined texts start and end with text, so stripping them once more changes nothing. */
  lemma {:induction false} TextsTrimmed(order: seq<string>, deltas: map<string, seq<string>>, texts: map<string, string>, phases: map<string, string>)
    ensures forall p | p in Texts(TableBodies(order, deltas, texts, phases)) :: p != "" && Trimmed(p)
  {
    hide Join, Trim, Trimmed;
    if order != [] {
      TextsTrimmed(order[..|order| - 1], deltas, texts, phases);
      var bodies := TableBodies(order[..|order| - 1], deltas, texts, phases);
      var x := order[|order| - 1];
      assert (bodies + [TableBody(x, deltas, texts, phases)])[..|bodies|] == bodies;
      TrimTrimmed(if x in texts then texts[x] else if x in deltas then Join(deltas[x], "") else "");
    }
  }

  method RenderAgentOutput(order: seq<string>, texts: map<string, string>, deltas: map<string, seq<string>>, phases: map<string, string>)
    returns (r: TurnResult)
    ensures r == Answer(TableBodies(order, deltas, texts, phases))
  {
    hide Trim, Join, TableBody, FinalIds;
    if order == [] { return TurnResult("", false, ""); }
    ghost var bodies := TableBodies(order, deltas, texts, phases);
    var finalIds := FinalIds(order, phases);
    var candidates := if finalIds != [] then finalIds else [order[|order| - 1]];
    FinalBodies(order, deltas, texts, phases);
    assert [order[|order| - 1]][..0] == [];
    var rendered := RenderTexts(candidates, texts, deltas, phases);
    var tail := CommentaryTail(order, texts, deltas, phases);
    TextsTrimmed(candidates, deltas, texts, phases);
    JoinBare(rendered, "\n\n", SPACES);
    TrimFixed(Join(rendered, "\n\n"));
    r := TurnResult(Trim(Join(rendered, "\n\n")), finalIds != [], tail);
  }

  lemma {:induction false} TextsStep(candidates: seq<string>, texts: map<string, string>, deltas: map<string, seq<string>>, phases: map<string, string>, i: nat)
    requires i < |candidates|
    ensures var text := TableBody(candidates[i], deltas, texts, phases).text;
            Texts(TableBodies(candidates[..i + 1], deltas, texts, phases))
            == var front := Texts(TableBodies(candidates[..i], deltas, texts, phases));
               if text != "" then front + [text] else front
  {
    hide TableBody;
    var bodies := TableBodies(candidates[..i], deltas, texts, phases);
    var b := TableBody(candidates[i], deltas, texts, phases);
    assert candidates[..i + 1][..i] == candidates[..i];
    assert (bodies + [b])[..|bodies|] == bodies;
  }

  lemma {:induction false} NoTexts(texts: map<string, string>, deltas: map<string, seq<string>>, phases: map<string, string>)
    ensures Texts(TableBodies([], deltas, texts, phases)) == []
  {
  }

  method RenderTexts(candidates: seq<string>, texts: map<string, string>, deltas: map<string, seq<string>>, phases: map<string, string>)
    returns (rendered: seq<string>)
    ensures rendered == Texts(TableBodies(candidates, deltas, texts, phases))
  {
    hide TableBody, TableBodies, Texts;
    rendered := [];
    var i := 0;
    NoTexts(texts, deltas, phases);
    assert candidates[..0] == [];
    while i < |candidates|
      invariant 0 <= i <= |candidates|
      invariant rendered == Texts(TableBodies(candidates[..i], deltas, texts, phases))
    {
      var text := TableBody(candidates[i], deltas, texts, phases).text;
      TextsStep(candidates, texts, deltas, phases, i);
      if text != "" { rendered := rendered + [text]; }
      i := i + 1;
    }
    assert candidates[..i] == candidates;
  }

  method CommentaryTail(order: seq<string>, texts: map<string, string>, deltas: map<string, seq<string>>, phases: map<string, string>)
    returns (tail: string)
    ensures tail == Tail(TableBodies(order, deltas, texts, phases))
  {
    hide Trim, Join, TableBody, TableBodies;
    ghost var bodies := TableBodies(order, deltas, texts, phases);
    tail := "";
    var j := |order|;
    assert bodies[..j] == bodies;
    while j > 0 && tail == ""
      invariant 0 <= j <= |order|
      invariant Tail(bodies) == if tail == "" then Tail(bodies[..j]) else tail
    {
      j := j - 1;
      var b := TableBody(order[j], deltas, texts, phases);
      TableBodyAt(order, deltas, texts, phases, j);
      assert bodies[..j + 1][..j] == bodies[..j];
      if !b.final { tail := b.text; }
    }
  }

  lemma {:induction false} StartTracking(k: Key)
    ensures Tracks(map[], map[], map[], [], k) && Order([], k) == [] && FirstEnding([], k).None?
  {
  }

  lemma {:induction false} NoEnding(before: seq<Note>, n: Note, k: Key)
    requires FirstEnding(before, k).None? && !Terminal(n, k)
    ensures FirstEnding(before + [n], k).None?
  {
    Snoc(before, n);
  }

  lemma {:induction false} EndingAt(s: seq<Note>, k: Key, i: nat)
    requires i < |s| && FirstEnding(s[..i], k).None? && Terminal(s[i], k)
    ensures FirstEnding(s, k) == Some(Ending(s[..i], s[i]))
  {
    hide Terminal;
    if i < |s| - 1 {
      assert s[..|s| - 1][..i] == s[..i];
      EndingAt(s[..|s| - 1], k, i);
    }
  }

  lemma {:induction false} VerdictIs(s: seq<Note>, before: seq<Note>, n: Note, k: Key)
    requires FirstEnding(s, k) == Some(Ending(before, n)) && Terminal(n, k)
    ensures OutcomeOf(s, k) == Verdict(before, n, k)
    ensures n.EndOfStream? ==> OutcomeOf(s, k) == Failed(EXITED)
    ensures n.ErrorNote? ==> OutcomeOf(s, k) == Failed(Trim(if n.message == "" then SERVER_ERROR else n.message))
    ensures n.TurnCompleted? ==>
              OutcomeOf(s, k) == if Trim(n.status) == "completed" then Completed(Answer(Bodies(before, k, Order(before, k))))
              else Failed(NO_STRIP)
  {
    hide FirstEnding, Trim;
  }

  lemma {:induction false} NoOutcome(s: seq<Note>, k: Key)
    ensures OutcomeOf(s, k) == TimedOut <==> FirstEnding(s, k).None?
  {
    hide FirstEnding, Trim;
  }

  lemma {:induction false} OrderStep(before: seq<Note>, n: Note, k: Key)
    ensures Order(before + [n], k) ==
            var order := Order(before, k);
            match DeltaItem(n, k)
            case Some(x) => if Chunks(before, k, x) == [] then order + [x] else order
            case None =>
              match DoneItem(n, k)
              case Some(x) => if x in order then order else order + [x]
              case None => order
  {
    hide DeltaItem, DoneItem;
    Snoc(before, n);
  }

  lemma {:induction false} FirstChunk(deltas: map<string, seq<string>>, texts: map<string, string>, phases: map<string, string>, s: seq<Note>, k: Key, x: string)
    requires Tracks(deltas, texts, phases, s, k)
    ensures Chunks(s, k, x) == [] <==> x !in deltas
  {
    hide Chunks, LastText, LastPhase;
  }

  /** `_await_turn_completion_locked`: the loop over the notifications that arrive in time */
  method AwaitTurnCompletion(stream: seq<Note>, k: Key) returns (out: Outcome)
    ensures out == OutcomeOf(stream, k)
  {
    hide OutcomeOf, FirstEnding, Trim, Verdict, Order, Tracks;
    var deltas: map<string, seq<string>>, texts: map<string, string>, phases: map<string, string> := map[], map[], map[];
    var order := [];
    assert stream[..0] == [];
    StartTracking(k);
    var i := 0;
    while i < |stream|
      invariant 0 <= i <= |stream|
      invariant FirstEnding(stream[..i], k).None?
      invariant Tracks(deltas, texts, phases, stream[..i], k) && order == Order(stream[..i], k)
    {
      var n := stream[i];
      ghost var before := stream[..i];
      assert stream[..i + 1] == before + [n];
      if Terminal(n, k) {
        EndingAt(stream, k, i);
        match n {
          case EndOfStream => out := Failed(EXITED);
          case ErrorNote(message) => out := Failed(Trim(if message == "" then SERVER_ERROR else message));
          case TurnCompleted(_, _, status, _) =>
            var output := RenderAgentOutput(order, texts, deltas, phases);
            TablesAnswer(order, deltas, texts, phases, before, k);
            // a result object is always truthy and has no `strip`
            out := if Trim(status) == "completed" then Completed(output) else Failed(NO_STRIP);
        }
        VerdictIs(stream, before, n, k);
        return;
      }
      NoEnding(before, n, k);
      OrderStep(before, n, k);
      if DeltaItem(n, k).Some? {
        var x := Trim(n.item);
        TrackDelta(deltas, texts, phases, before, n, k);
        FirstChunk(deltas, texts, phases, before, k, x);
        if x !in deltas { order := order + [x]; }
        deltas := deltas[x := (if x in deltas then deltas[x] else []) + [n.text]];
      } else if DoneItem(n, k).Some? {
        var x := Trim(n.item);
        TrackDone(deltas, texts, phases, before, n, k);
        if x !in order { order := order + [x]; }
        texts := texts[x := n.text];
        var phase := Trim(n.phase);
        phases := if phase == "" then phases else phases[x := phase];
      } else {
        TrackOther(deltas, texts, phases, before, n, k);
      }
      i := i + 1;
    }
    assert stream[..i] == stream;
    out := TimedOut;
    NoOutcome(stream, k);
  }

  // ---------- which notes matter ----------

  /** Tagged with the awaited thread and turn, or one of the two kinds that are not filtered */
  predicate Own(n: Note, k: Key)
  {
    match n
    case Delta(thread, turn, _, _) => thread == Some(k.thread) && turn == Some(k.turn)
    case ItemCompleted(thread, turn, _, _, _, _) => thread == Some(k.thread) && turn == Some(k.turn)
    case TurnCompleted(thread, turnId, _, _) => thread == Some(k.thread) && Trim(turnId) == k.turn
    case ErrorNote(_) => true
    case EndOfStream => true
    case Other => false
  }

  function Project(s: seq<Note>, k: Key): seq<Note>
  {
    if s == [] then []
    else
      var last, front := s[|s| - 1], Project(s[..|s| - 1], k);
      if Own(last, k) then front + [last] else front
  }

  lemma {:induction false} Foreign(n: Note, k: Key)
    requires !Own(n, k)
    ensures DeltaItem(n, k).None? && DoneItem(n, k).None? && !Terminal(n, k)
  {
    hide Trim;
  }

  lemma {:induction false} ProjectItem(s: seq<Note>, k: Key, x: string)
    ensures Chunks(Project(s, k), k, x) == Chunks(s, k, x)
    ensures DeltaText(Project(s, k), k, x) == DeltaText(s, k, x)
    ensures LastText(Project(s, k), k, x) == LastText(s, k, x)
    ensures LastPhase(Project(s, k), k, x) == LastPhase(s, k, x)
  {
    hide DeltaItem, DoneItem, Own, Trim;
    if s != [] {
      var front, n := s[..|s| - 1], s[|s| - 1];
      ProjectItem(front, k, x);
      Snoc(Project(front, k), n);
      if !Own(n, k) { Foreign(n, k); }
    }
  }

  lemma {:induction false} ProjectOrder(s: seq<Note>, k: Key)
    ensures Order(Project(s, k), k) == Order(s, k)
  {
    hide DeltaItem, DoneItem, Own, Chunks;
    if s != [] {
      var front, n := s[..|s| - 1], s[|s| - 1];
      ProjectOrder(front, k);
      Snoc(Project(front, k), n);
      if !Own(n, k) { Foreign(n, k); }
      else if DeltaItem(n, k).Some? { ProjectItem(front, k, DeltaItem(n, k).value); }
    }
  }

  lemma {:induction false} ProjectEnding(s: seq<Note>, k: Key)
    ensures FirstEnding(Project(s, k), k) ==
            match FirstEnding(s, k) case None => None case Some(e) => Some(Ending(Project(e.before, k), e.note))
  {
    hide DeltaItem, DoneItem, Own, Terminal;
    if s != [] {
      var front, n := s[..|s| - 1], s[|s| - 1];
      ProjectEnding(front, k);
      Snoc(Project(front, k), n);
      if !Own(n, k) { Foreign(n, k); }
    }
  }

  lemma {:induction false} ProjectBodies(s: seq<Note>, k: Key, order: seq<string>)
    ensures Bodies(Project(s, k), k, order) == Bodies(s, k, order)
  {
    hide Project, Trim;
    if order != [] {
      ProjectBodies(s, k, order[..|order| - 1]);
      ProjectItem(s, k, order[|order| - 1]);
    }
  }

  /** The outcome of a turn is decided by the notes of its own thread and turn, `error` notes and the end of
      the stream: every other note may be left out. */
  lemma {:induction false} OnlyOwnNotesMatter(s: seq<Note>, k: Key)
    ensures OutcomeOf(Project(s, k), k) == OutcomeOf(s, k)
  {
    hide FirstEnding, Project, Answer, Bodies, Order, Trim;
    ProjectEnding(s, k);
    EndingIs(s, k);
    match FirstEnding(s, k)
    case None =>
    case Some(e) =>
      ProjectOrder(e.before, k);
      ProjectBodies(e.before, k, Order(e.before, k));
  }

  /** Foreign notes may be put in or taken out anywhere. */
  lemma {:induction false} Noninterference(s: seq<Note>, t: seq<Note>, k: Key)
    requires Project(s, k) == Project(t, k)
    ensures OutcomeOf(s, k) == OutcomeOf(t, k)
  {
    OnlyOwnNotesMatter(s, k);
    OnlyOwnNotesMatter(t, k);
  }

  /** An `error` note is not filtered: one that belongs to no turn ends every turn that has not ended yet. */
  lemma {:induction false} ErrorsEndAnyTurn(s: seq<Note>, rest: seq<Note>, message: string, k: Key)
    requires FirstEnding(s, k).None?
    ensures OutcomeOf(s + [ErrorNote(message)] + rest, k) == Failed(Trim(if message == "" then "Codex app-server reported an error." else message))
  {
    hide FirstEnding, Trim;
    var all := s + [ErrorNote(message)] + rest;
    assert all[..|s|] == s;
    EndingAt(all, k, |s|);
    VerdictIs(all, s, ErrorNote(message), k);
  }

  /** A turn that ends with any status but `completed` is reported with one and the same internal message:
      neither the server's error text nor the output collected so far reaches the caller. */
  lemma {:induction false} FailedTurnLosesItsMessage(s: seq<Note>, k: Key)
    requires FirstEnding(s, k).Some? && FirstEnding(s, k).value.note.TurnCompleted?
    ensures Trim(FirstEnding(s, k).value.note.status) != "completed" <==> OutcomeOf(s, k) == Failed(NO_STRIP)
    ensures OutcomeOf(s, k).Completed? || OutcomeOf(s, k) == Failed(NO_STRIP)
  {
    hide FirstEnding, Trim;
    EndingIs(s, k);
    var e := FirstEnding(s, k).value;
    VerdictIs(s, e.before, e.note, k);
  }

  // ---------- the order of items ----------

  predicate Done(s: seq<Note>, k: Key, x: string) { exists i :: 0 <= i < |s| && DoneItem(s[i], k) == Some(x) }

  /** Note `j` is the first delta of `x`, and `x` was completed before. */
  predicate LateAt(s: seq<Note>, k: Key, x: string, j: nat)
    requires j < |s|
  {
    DeltaItem(s[j], k) == Some(x) && Chunks(s[..j], k, x) == [] && Done(s[..j], k, x)
  }

  predicate Late(s: seq<Note>, k: Key, x: string) { exists j :: 0 <= j < |s| && LateAt(s, k, x, j) }

  predicate Distinct(order: seq<string>) { forall i, j | 0 <= i < j < |order| :: order[i] != order[j] }

  lemma {:induction false} NothingDone(k: Key, x: string)
    ensures !Done([], k, x)
  {
  }

  lemma {:induction false} DoneSnoc(s: seq<Note>, n: Note, k: Key, x: string)
    ensures Done(s + [n], k, x) <==> Done(s, k, x) || DoneItem(n, k) == Some(x)
  {
    hide DoneItem;
    if DoneItem(n, k) == Some(x) { assert DoneItem((s + [n])[|s|], k) == Some(x); }
    if Done(s, k, x) {
      var i :| 0 <= i < |s| && DoneItem(s[i], k) == Some(x);
      assert DoneItem((s + [n])[i], k) == Some(x);
    }
  }

  lemma {:induction false} LateSnoc(s: seq<Note>, n: Note, k: Key, x: string)
    ensures Late(s + [n], k, x) <==>
            Late(s, k, x) || (DeltaItem(n, k) == Some(x) && Chunks(s, k, x) == [] && Done(s, k, x))
  {
    hide DeltaItem, Chunks, Done;
    var all := s + [n];
    forall j: nat | j < |s| ensures LateAt(all, k, x, j) <==> LateAt(s, k, x, j) {
      assert all[..j] == s[..j];
    }
    assert all[..|s|] == s;
    assert LateAt(all, k, x, |s|) <==> (DeltaItem(n, k) == Some(x) && Chunks(s, k, x) == [] && Done(s, k, x));
  }

  lemma {:induction false} OrderMembers(s: seq<Note>, k: Key, x: string)
    ensures x in Order(s, k) <==> Chunks(s, k, x) != [] || Done(s, k, x)
    ensures x in Order(s, k) <==> x in FirstAppearances(s, k)
  {
    hide Done, Trim;
    if s == [] {
      NothingDone(k, x);
    } else {
      var front, n := s[..|s| - 1], s[|s| - 1];
      assert s == front + [n];
      OrderMembers(front, k, x);
      DoneSnoc(front, n, k, x);
    }
  }

  lemma {:induction false} DistinctSnoc(order: seq<string>, x: string)
    ensures Distinct(order + [x]) <==> Distinct(order) && x !in order
  {
    var all := order + [x];
    if Distinct(all) {
      forall i, j | 0 <= i < j < |order| ensures order[i] != order[j] { assert all[i] == order[i] && all[j] == order[j]; }
      forall i | 0 <= i < |order| ensures order[i] != x { assert all[i] != all[|order|]; }
    }
  }

  ghost predicate NoLate(s: seq<Note>, k: Key) { forall x :: !Late(s, k, x) }

  lemma {:induction false} NoLateSnoc(s: seq<Note>, n: Note, k: Key)
    ensures NoLate(s + [n], k) <==>
            NoLate(s, k) && (DeltaItem(n, k).Some? ==> Chunks(s, k, DeltaItem(n, k).value) != [] || !Done(s, k, DeltaItem(n, k).value))
  {
    hide DeltaItem, Chunks, Done, Late;
    forall x ensures Late(s + [n], k, x) <==>
                     Late(s, k, x) || (DeltaItem(n, k) == Some(x) && Chunks(s, k, x) == [] && Done(s, k, x))
    {
      LateSnoc(s, n, k, x);
    }
    if DeltaItem(n, k).Some? { assert !Late(s + [n], k, DeltaItem(n, k).value) || !NoLate(s + [n], k); }
  }

  /** Every item stands once in the order, and in the order of first appearance, exactly when no item's first
      delta comes after its completion. */
  lemma {:induction false} OrderDistinct(s: seq<Note>, k: Key)
    ensures Distinct(Order(s, k)) <==> NoLate(s, k)
    ensures NoLate(s, k) ==> Order(s, k) == FirstAppearances(s, k)
  {
    hide Trim, Late, NoLate, Done, Distinct, Chunks;
    if s == [] {
      NothingLate(k);
    } else {
      var front, n := s[..|s| - 1], s[|s| - 1];
      assert s == front + [n];
      OrderDistinct(front, k);
      NoLateSnoc(front, n, k);
      var item := if DeltaItem(n, k).Some? then DeltaItem(n, k) else DoneItem(n, k);
      if item.Some? {
        OrderMembers(front, k, item.value);
        DistinctSnoc(Order(front, k), item.value);
      }
    }
  }

  lemma {:induction false} NothingLate(k: Key)
    ensures NoLate([], k) && Distinct(Order([], k))
  {
  }

  // ---------- chunking ----------

  lemma {:induction false} SameBodies(s: seq<Note>, t: seq<Note>, k: Key, order: seq<string>)
    requires forall x :: DeltaText(s, k, x) == DeltaText(t, k, x) && LastText(s, k, x) == LastText(t, k, x)
                         && LastPhase(s, k, x) == LastPhase(t, k, x)
    ensures Bodies(s, k, order) == Bodies(t, k, order)
  {
    hide Trim, DeltaText, LastText, LastPhase;
    if order != [] { SameBodies(s, t, k, order[..|order| - 1]); }
  }

  /** Without late deltas the answer depends on the concatenation of each item's deltas, its last text and
      phase, and the order of first appearance, however the deltas are cut up and interleaved. */
  lemma {:induction false} ChunkingIrrelevant(s: seq<Note>, t: seq<Note>, k: Key)
    requires NoLate(s, k) && NoLate(t, k) && FirstAppearances(s, k) == FirstAppearances(t, k)
    requires forall x :: DeltaText(s, k, x) == DeltaText(t, k, x) && LastText(s, k, x) == LastText(t, k, x)
                         && LastPhase(s, k, x) == LastPhase(t, k, x)
    ensures Answer(Bodies(s, k, Order(s, k))) == Answer(Bodies(t, k, Order(t, k)))
  {
    hide Answer, Bodies, Order, FirstAppearances;
    OrderDistinct(s, k);
    OrderDistinct(t, k);
    SameBodies(s, t, k, Order(s, k));
  }

  /** The two streams have come to the same point of the loop, up to the cutting of deltas. */
  ghost predicate Alike(s: seq<Note>, t: seq<Note>, k: Key)
  {
    && Order(s, k) == Order(t, k)
    && (forall x :: Chunks(s, k, x) == [] <==> Chunks(t, k, x) == [])
    && (forall x :: DeltaText(s, k, x) == DeltaText(t, k, x) && LastText(s, k, x) == LastText(t, k, x)
                    && LastPhase(s, k, x) == LastPhase(t, k, x))
    && (FirstEnding(s, k).Some? <==> FirstEnding(t, k).Some?)
    && OutcomeOf(s, k) == OutcomeOf(t, k)
  }

  lemma {:induction false} OutcomeSnoc(s: seq<Note>, n: Note, k: Key)
    ensures OutcomeOf(s + [n], k) ==
            if FirstEnding(s, k).Some? then OutcomeOf(s, k)
            else if Terminal(n, k) then Verdict(s, n, k)
            else TimedOut
    ensures FirstEnding(s + [n], k).Some? <==> FirstEnding(s, k).Some? || Terminal(n, k)
  {
    hide Terminal, Verdict;
    Snoc(s, n);
    EndingIs(s, k);
  }

  lemma {:induction false} ItemSnoc(s: seq<Note>, n: Note, k: Key, x: string)
    ensures Chunks(s + [n], k, x) == if DeltaItem(n, k) == Some(x) then Chunks(s, k, x) + [n.text] else Chunks(s, k, x)
    ensures DeltaText(s + [n], k, x) == if DeltaItem(n, k) == Some(x) then DeltaText(s, k, x) + n.text else DeltaText(s, k, x)
    ensures LastText(s + [n], k, x) == if DoneItem(n, k) == Some(x) then Some(n.text) else LastText(s, k, x)
    ensures LastPhase(s + [n], k, x) ==
            if DoneItem(n, k) == Some(x) && Trim(n.phase) != "" then Some(Trim(n.phase)) else LastPhase(s, k, x)
  {
    hide Trim;
    Snoc(s, n);
  }

  lemma {:induction false} AlikeSnoc(s: seq<Note>, t: seq<Note>, n: Note, k: Key)
    requires Alike(s, t, k)
    ensures Alike(s + [n], t + [n], k)
  {
    hide Trim, Chunks, DeltaText, LastText, LastPhase, Order, FirstEnding, OutcomeOf, Bodies, Answer;
    OrderStep(s, n, k);
    OrderStep(t, n, k);
    OutcomeSnoc(s, n, k);
    OutcomeSnoc(t, n, k);
    SameBodies(s, t, k, Order(s, k));
    forall x
      ensures Chunks(s + [n], k, x) == [] <==> Chunks(t + [n], k, x) == []
      ensures DeltaText(s + [n], k, x) == DeltaText(t + [n], k, x) && LastText(s + [n], k, x) == LastText(t + [n], k, x)
              && LastPhase(s + [n], k, x) == LastPhase(t + [n], k, x)
    {
      ItemSnoc(s, n, k, x);
      ItemSnoc(t, n, k, x);
    }
  }

  lemma {:induction false} AlikeAppend(s: seq<Note>, t: seq<Note>, rest: seq<Note>, k: Key)
    requires Alike(s, t, k)
    ensures Alike(s + rest, t + rest, k)
  {
    hide Alike;
    if rest == [] {
      assert s + rest == s && t + rest == t;
    } else {
      var front, n := rest[..|rest| - 1], rest[|rest| - 1];
      AlikeAppend(s, t, front, k);
      AlikeSnoc(s + front, t + front, n, k);
      assert s + rest == s + front + [n] && t + rest == t + front + [n];
    }
  }

  lemma {:induction false} AlikeSplit(s: seq<Note>, thread: Option<string>, turn: Option<string>, item: string, a: string, b: string, k: Key)
    ensures Alike(s + [Delta(thread, turn, item, a + b)], s + [Delta(thread, turn, item, a)] + [Delta(thread, turn, item, b)], k)
  {
    hide Trim, Chunks, DeltaText, LastText, LastPhase, Order, FirstEnding, OutcomeOf, Verdict;
    var whole, first, second := Delta(thread, turn, item, a + b), Delta(thread, turn, item, a), Delta(thread, turn, item, b);
    var t := s + [first];
    OrderStep(s, whole, k);
    OrderStep(s, first, k);
    OrderStep(t, second, k);
    OutcomeSnoc(s, whole, k);
    OutcomeSnoc(s, first, k);
    OutcomeSnoc(t, second, k);
    NoOutcome(s, k);
    forall x
      ensures Chunks(t, k, x) == if DeltaItem(first, k) == Some(x) then Chunks(s, k, x) + [a] else Chunks(s, k, x)
      ensures Chunks(s + [whole], k, x) == [] <==> Chunks(t + [second], k, x) == []
      ensures DeltaText(s + [whole], k, x) == DeltaText(t + [second], k, x) && LastText(s + [whole], k, x) == LastText(t + [second], k, x)
              && LastPhase(s + [whole], k, x) == LastPhase(t + [second], k, x)
    {
      ItemSnoc(s, whole, k, x);
      ItemSnoc(s, first, k, x);
      ItemSnoc(t, second, k, x);
      assert DeltaText(s, k, x) + (a + b) == DeltaText(s, k, x) + a + b;
    }
  }

  /** Cutting a delta in two changes no outcome, wherever it stands and late or not. */
  lemma {:induction false} SplitDelta(s: seq<Note>, thread: Option<string>, turn: Option<string>, item: string, a: string, b: string, rest: seq<Note>, k: Key)
    ensures OutcomeOf(s + [Delta(thread, turn, item, a + b)] + rest, k)
         == OutcomeOf(s + [Delta(thread, turn, item, a)] + [Delta(thread, turn, item, b)] + rest, k)
  {
    hide OutcomeOf, Order, FirstEnding, Chunks, DeltaText, LastText, LastPhase;
    AlikeSplit(s, thread, turn, item, a, b, k);
    AlikeAppend(s + [Delta(thread, turn, item, a + b)], s + [Delta(thread, turn, item, a)] + [Delta(thread, turn, item, b)], rest, k);
  }

  // ---------- late deltas ----------

  function Occurs(order: seq<string>, x: string): nat
  {
    if order == [] then 0
    else Occurs(order[..|order| - 1], x) + if order[|order| - 1] == x then 1 else 0
  }

  lemma {:induction false} OccursSnoc(order: seq<string>, x: string, y: string)
    ensures Occurs(order + [y], x) == Occurs(order, x) + if y == x then 1 else 0
  {
    assert (order + [y])[..|order|] == order;
  }

  /** In every stream an item stands in the order twice when its first delta comes after its completion, else once, or
      not at all when it never appeared. */
  lemma {:induction false} OrderOccurs(s: seq<Note>, k: Key, x: string)
    ensures Occurs(Order(s, k), x) == if Late(s, k, x) then 2 else if x in Order(s, k) then 1 else 0
    ensures Late(s, k, x) ==> Chunks(s, k, x) != []
  {
    hide Trim, Late, Done, Order;
    if s == [] {
      NothingLate(k);
      StartTracking(k);
      assert !Late([], k, x);
    } else {
      var front, n := s[..|s| - 1], s[|s| - 1];
      assert s == front + [n];
      OrderOccurs(front, k, x);
      LateSnoc(front, n, k, x);
      OrderStep(front, n, k);
      OrderMembers(front, k, x);
      var item := if DeltaItem(n, k).Some? then DeltaItem(n, k) else DoneItem(n, k);
      if item.Some? { OccursSnoc(Order(front, k), x, item.value); }
    }
  }

  function Repeat(b: Body, n: nat): seq<Body> { if n == 0 then [] else Repeat(b, n - 1) + [b] }

  /** When `x` is the only final item, the final bodies are as many copies of its body as it stands in the order. */
  lemma {:induction false} FinalsRepeat(s: seq<Note>, k: Key, order: seq<string>, x: string)
    requires forall y | y in order :: BodyOf(s, k, y).final <==> y == x
    ensures Finals(Bodies(s, k, order)) == Repeat(BodyOf(s, k, x), Occurs(order, x))
  {
    hide BodyOf;
    if order != [] {
      var front, y := order[..|order| - 1], order[|order| - 1];
      FinalsRepeat(s, k, front, x);
      var bodies := Bodies(s, k, front);
      assert (bodies + [BodyOf(s, k, y)])[..|bodies|] == bodies;
      assert y in order;
    }
  }

  lemma {:induction false} RepeatTexts(b: Body)
    requires b.text != ""
    ensures Repeat(b, 1) == [b] && Join(Texts(Repeat(b, 1)), "\n\n") == b.text
    ensures Repeat(b, 2) == [b, b] && Join(Texts(Repeat(b, 2)), "\n\n") == b.text + "\n\n" + b.text
  {
    assert Repeat(b, 0) == [] && Repeat(b, 1) == [] + [b] == [b] && Repeat(b, 2) == [b] + [b] == [b, b];
    assert [b][..0] == [] && [b, b][..1] == [b];
    assert Texts([b]) == [b.text] && Texts([b, b]) == [b.text] + [b.text] == [b.text, b.text];
    assert [b.text, b.text][1..] == [b.text];
  }

  /** A completed turn whose only final item is `x` answers with its text, and with its text twice exactly when the
      first delta of `x` came after its completion. */
  lemma {:induction false} LateDeltaDoublesAnswer(s: seq<Note>, end: Note, k: Key, x: string)
    requires FirstEnding(s, k).None? && end.TurnCompleted? && Terminal(end, k) && Trim(end.status) == "completed"
    requires x in Order(s, k) && forall y | y in Order(s, k) :: LastPhase(s, k, y) == Some(FINAL) <==> y == x
    requires BodyOf(s, k, x).text != ""
    ensures var text, out := BodyOf(s, k, x).text, OutcomeOf(s + [end], k);
            && out.Completed? && out.result.finalAnswer
            && out.result.output == if Late(s, k, x) then text + "\n\n" + text else text
  {
    hide Order, Chunks, DeltaText, LastText, LastPhase, Late, Trim, FirstEnding, OutcomeOf, Bodies, Finals, Texts, Repeat, Join, Tail;
    OutcomeSnoc(s, end, k);
    OrderOccurs(s, k, x);
    FinalsRepeat(s, k, Order(s, k), x);
    RepeatTexts(BodyOf(s, k, x));
  }

  /** The shortest such streams: with the completion first and the delta after it the answer doubles; one more delta
      before the completion, and it does not. */
  lemma {:induction false} LateIsAboutTheFirstDelta(final: Note, early: Note, late: Note, k: Key, x: string)
    requires DoneItem(final, k) == Some(x) && DeltaItem(early, k) == DeltaItem(late, k) == Some(x)
    ensures Late([final, late], k, x) && !Late([early, final, late], k, x)
  {
    hide Trim, Late, Done, Chunks;
    NothingDone(k, x);
    NothingLate(k);
    NoChunks(k, x);
    assert !Late([], k, x) by { NotLate(k, x); }
    assert [] + [final] == [final] && [final] + [late] == [final, late];
    LateSnoc([], final, k, x);
    DoneSnoc([], final, k, x);
    ItemSnoc([], final, k, x);
    LateSnoc([final], late, k, x);
    assert [] + [early] == [early] && [early] + [final] == [early, final] && [early, final] + [late] == [early, final, late];
    LateSnoc([], early, k, x);
    ItemSnoc([], early, k, x);
    LateSnoc([early], final, k, x);
    ItemSnoc([early], final, k, x);
    LateSnoc([early, final], late, k, x);
  }

  lemma {:induction false} NotLate(k: Key, x: string)
    ensures !Late([], k, x)
  {
  }

  lemma {:induction false} NoChunks(k: Key, x: string)
    ensures Chunks([], k, x) == []
  {
  }
}
