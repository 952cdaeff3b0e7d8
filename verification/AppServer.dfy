/** The client of `codex app-server` in src/flow_healer/codex_app_server_connector.py as an interleaved
    step machine: caller threads and reader threads share one re-entrant lock, the table of pending
    requests, the notification queue and the current server process.

    One step is one access to shared state. Time-outs, process deaths, failed writes, and every line a
    server prints are free choices of the environment. */
module AppServer {
  import opened Wrappers

  type Tid = nat

  /** A JSON object read from a server's standard output; `process` is the server it was read from, and `eof`
      says that the object has a true `__eof__` key. */
  datatype Message = Message(id: Option<int>, hasMethod: bool, eof: bool, body: nat, process: nat)

  /** What the queues hold: messages of a server, and the end-of-stream marker that the client itself puts */
  datatype Item = Msg(m: Message) | Marker

  /** `message.get("__eof__")`, which makes a request or a turn raise "exited unexpectedly" */
  predicate EndsIt(item: Item) { item.Marker? || item.m.eof }

  datatype Rpc = Initialize | ThreadStart | TurnStart

  /** The public entry points: `ensure_started`, `get_or_create_thread` / `reset_thread`, `run_turn_detailed`,
      `shutdown`, and everything that only takes the lock and lets it go */
  datatype Op = Ensure | Thread | Turn | Shutdown | Peek

  /** Where `_stop_server_locked` or a reader's end-of-stream handling returns to */
  datatype After = Leave | Restart | EndReader

  datatype Pc =
      // callers
    | Idle
    | Wants(op: Op)
    | Inside(op: Op)
    | Stopping(after: After)
    | Copying(after: After)
    | Marking(queues: seq<int>, after: After)
    | Launching
    | Draining
    | Requesting(rpc: Rpc)
    | Allocated(id: int, rpc: Rpc)
    | Registered(id: int, rpc: Rpc)
    | Waiting(id: int, rpc: Rpc)
    | Got(id: int, rpc: Rpc, item: Item)
    | Failed(id: int, rpc: Rpc)
    | Returned(rpc: Rpc, ok: bool)
    | Awaiting
    | Leaving
      // readers
    | Starting
    | Reading(process: nat)
    | Found(process: nat, id: int, m: Message)
    | Posting(process: nat, m: Message)
    | NoiseWants(process: nat)
    | NoiseInside(process: nat)
    | EndWants
    | EndLeaving
    | Done

  /** What happened, for the statements about whole runs */
  datatype Event =
    | Sent(id: int, process: nat)
    | Answered(id: int, item: Item)
    | RequestExited(id: int, item: Item)
    | TurnExited(item: Item)

  /** A request has taken an item out of its response queue. */
  predicate Replied(e: Event) { e.Answered? || e.RequestExited? }

  datatype State = State(
    lock: Option<Tid>,
    pending: seq<int>,              // keys of _pending, in insertion order
    slots: map<int, seq<Item>>,     // the one-place response queue of every request so far
    notifications: seq<Item>,
    nextId: nat,
    processes: nat,                 // servers started so far
    proc: Option<nat>,              // _proc
    threads: map<Tid, Pc>,
    trace: seq<Event>)

  datatype Line = Blank | Noise | Json(id: Option<int>, hasMethod: bool, eof: bool, body: nat) | EndOfStream

  datatype Verdict = Continue | Complete | Raise

  /** Everything a step may depend on besides the state */
  datatype Choice = Choice(op: Op, ok: bool, timeout: bool, line: Line, verdict: Verdict, spawn: Tid)

  function Without(s: seq<int>, x: int): seq<int>
  {
    if s == [] then [] else (if s[0] == x then [] else [s[0]]) + Without(s[1..], x)
  }

  function Init(callers: set<Tid>): State
  {
    State(None, [], map[], [], 0, 0, None, map t | t in callers :: Idle, [])
  }

  // ---------- steps ----------

  function Goto(s: State, t: Tid, pc: Pc): State { s.(threads := s.threads[t := pc]) }

  /** Enter a `with self._lock` block, or stay blocked at it. */
  function Enter(s: State, t: Tid, pc: Pc): State
  {
    if s.lock.None? then Goto(s, t, pc).(lock := Some(t)) else s
  }

  function Exit(s: State, t: Tid, pc: Pc): State { Goto(s, t, pc).(lock := None) }

  function InsideStep(s: State, t: Tid, op: Op, c: Choice): State
  {
    match op
    case Ensure => Goto(s, t, if c.ok then Leaving else Stopping(Restart))
    case Thread => Goto(s, t, if c.ok then Requesting(ThreadStart) else Leaving)
    case Turn => Goto(s, t, if c.ok then Draining else Leaving)
    case Shutdown => Goto(s, t, Stopping(Leave))
    case Peek => Goto(s, t, Leaving)
  }

  /** `_notify_eof_locked`, one put at a time; a put into a full response queue blocks. */
  function MarkingStep(s: State, t: Tid, queues: seq<int>, after: After): State
  {
    if queues == [] then
      Goto(s, t, match after case Leave => Leaving case Restart => Launching case EndReader => EndLeaving)
      .(notifications := s.notifications + [Marker])
    else if queues[0] in s.slots && s.slots[queues[0]] != [] then s
    else Goto(s, t, Marking(queues[1..], after)).(slots := s.slots[queues[0] := [Marker]])
  }

  /** The launch in `_restart_server_locked`: a new process and its reader thread, then `initialize` */
  function LaunchStep(s: State, t: Tid, c: Choice): State
  {
    if !c.ok || c.spawn in s.threads then Goto(s, t, Leaving)
    else
      Goto(s, t, Requesting(Initialize))
      .(processes := s.processes + 1, proc := Some(s.processes + 1),
      threads := s.threads[t := Requesting(Initialize)][c.spawn := Starting])
  }

  function RequestStep(s: State, t: Tid, rpc: Rpc, c: Choice): State
  {
    if s.proc.None? || !c.ok then Goto(s, t, Returned(rpc, false))
    else
      var id := s.nextId + 1;
      Goto(s, t, Allocated(id, rpc)).(nextId := id, slots := s.slots[id := []])
  }

  function WriteStep(s: State, t: Tid, id: int, rpc: Rpc, c: Choice): State
  {
    if c.ok && s.proc.Some? then Goto(s, t, Waiting(id, rpc)).(trace := s.trace + [Sent(id, s.proc.value)])
    else Goto(s, t, Failed(id, rpc))
  }

  function WaitStep(s: State, t: Tid, id: int, rpc: Rpc, c: Choice): State
  {
    if c.timeout then Goto(s, t, Failed(id, rpc))
    else if id in s.slots && s.slots[id] != [] then
      Goto(s, t, Got(id, rpc, s.slots[id][0])).(slots := s.slots[id := s.slots[id][1..]])
    else s
  }

  /** The `finally` of `_rpc_request_locked` after a received item */
  function GotStep(s: State, t: Tid, id: int, rpc: Rpc, item: Item, c: Choice): State
  {
    var event := if EndsIt(item) then RequestExited(id, item) else Answered(id, item);
    Goto(s, t, Returned(rpc, !EndsIt(item) && c.ok)).(pending := Without(s.pending, id), trace := s.trace + [event])
  }

  function ReturnedStep(s: State, t: Tid, rpc: Rpc, ok: bool, c: Choice): State
  {
    Goto(s, t,
         match rpc
         case Initialize => if ok then Leaving else Stopping(Leave)
         case ThreadStart => Leaving
         case TurnStart => if ok && c.ok then Awaiting else Stopping(Leave))
  }

  /** One round of `_await_turn_completion_locked` */
  function AwaitStep(s: State, t: Tid, c: Choice): State
  {
    if c.timeout then Goto(s, t, Stopping(Leave))
    else if s.notifications == [] then s
    else
      var item, rest := s.notifications[0], s.(notifications := s.notifications[1..]);
      if EndsIt(item) then Goto(rest, t, Stopping(Leave)).(trace := s.trace + [TurnExited(item)])
      else
        match c.verdict
        case Continue => rest
        case Complete => Goto(rest, t, Leaving)
        case Raise => Goto(rest, t, Stopping(Leave))
  }

  /** One line in `_stdout_reader` */
  function ReadStep(s: State, t: Tid, process: nat, line: Line): State
  {
    match line
    case Blank => s
    case Noise => Goto(s, t, NoiseWants(process))
    case EndOfStream => Goto(s, t, EndWants)
    case Json(id, hasMethod, eof, body) =>
      var m := Message(id, hasMethod, eof, body, process);
      if id.Some? && id.value in s.pending then Goto(s, t, Found(process, id.value, m))
      else if hasMethod then Goto(s, t, Posting(process, m))
      else s
  }

  function Step(s: State, t: Tid, c: Choice): State
  {
    if t !in s.threads then s
    else
      match s.threads[t]
      case Idle => Goto(s, t, Wants(c.op))
      case Wants(op) => Enter(s, t, Inside(op))
      case Inside(op) => InsideStep(s, t, op, c)
      case Stopping(after) => Goto(s, t, Copying(after)).(proc := None)
      case Copying(after) => Goto(s, t, Marking(s.pending, after)).(pending := [])
      case Marking(queues, after) => MarkingStep(s, t, queues, after)
      case Launching => LaunchStep(s, t, c)
      case Draining =>
        if s.notifications == [] then Goto(s, t, Requesting(TurnStart))
        else s.(notifications := s.notifications[1..])
      case Requesting(rpc) => RequestStep(s, t, rpc, c)
      case Allocated(id, rpc) => Goto(s, t, Registered(id, rpc)).(pending := s.pending + [id])
      case Registered(id, rpc) => WriteStep(s, t, id, rpc, c)
      case Waiting(id, rpc) => WaitStep(s, t, id, rpc, c)
      case Got(id, rpc, item) => GotStep(s, t, id, rpc, item, c)
      case Failed(id, rpc) => Goto(s, t, Returned(rpc, false)).(pending := Without(s.pending, id))
      case Returned(rpc, ok) => ReturnedStep(s, t, rpc, ok, c)
      case Awaiting => AwaitStep(s, t, c)
      case Leaving => Exit(s, t, Idle)
      case Starting => Goto(s, t, if s.proc.Some? then Reading(s.proc.value) else Done)
      case Reading(process) => ReadStep(s, t, process, c.line)
      case Found(process, id, m) =>
        if id in s.slots && s.slots[id] != [] then s
        else Goto(s, t, Reading(process)).(slots := s.slots[id := [Msg(m)]])
      case Posting(process, m) => Goto(s, t, Reading(process)).(notifications := s.notifications + [Msg(m)])
      case NoiseWants(process) => Enter(s, t, NoiseInside(process))
      case NoiseInside(process) => Exit(s, t, Reading(process))
      case EndWants => Enter(s, t, Copying(EndReader))
      case EndLeaving => Exit(s, t, Done)
      case Done => s
  }

  type Schedule = seq<(Tid, Choice)>

  /** The state after a schedule: every interleaving of every number of threads is a schedule. */
  function Run(s: State, schedule: Schedule): State
  {
    if schedule == [] then s
    else
      var last := schedule[|schedule| - 1];
      Step(Run(s, schedule[..|schedule| - 1]), last.0, last.1)
  }

  // ---------- what every state keeps ----------

  /** The thread is inside a `with self._lock` block. */
  predicate Locked(pc: Pc)
  {
    !(pc.Idle? || pc.Wants? || pc.Starting? || pc.Reading? || pc.Found? || pc.Posting? || pc.NoiseWants? ||
      pc.EndWants? || pc.Done?)
  }

  /** The request is in the table of pending requests. */
  predicate Open(pc: Pc) { pc.Registered? || pc.Waiting? || pc.Got? || pc.Failed? }

  /** The turn is between the end of its drain and its return. */
  predicate InTurn(pc: Pc)
  {
    || pc == Requesting(TurnStart)
    || ((pc.Allocated? || Open(pc) || pc.Returned?) && pc.rpc == TurnStart)
    || pc.Awaiting?
  }

  predicate OwnResponse(item: Item, id: int) { item.Msg? && item.m.id == Some(id) }

  /** The program counter of the lock holder; `Idle` stands for a free lock. */
  function Holder(s: State): Pc
  {
    if s.lock.Some? && s.lock.value in s.threads then s.threads[s.lock.value] else Idle
  }

  /** What a thread's own program counter promises */
  predicate PcOk(pc: Pc, nextId: nat, slots: map<int, seq<Item>>)
  {
    match pc
    case Marking(queues, _) => queues == []
    case Allocated(id, _) => id == nextId && id in slots
    case Registered(id, _) => id == nextId && id in slots
    case Waiting(id, _) => id == nextId && id in slots
    case Got(id, _, item) => id == nextId && id in slots && OwnResponse(item, id)
    case Failed(id, _) => id == nextId && id in slots
    case Found(_, id, m) => id in slots && m.id == Some(id)
    case _ => true
  }

  /** A thread is inside a lock block exactly when it holds the lock. */
  ghost predicate LockOk(s: State)
  {
    && (s.lock.Some? ==> s.lock.value in s.threads)
    && (forall t | t in s.threads :: Locked(s.threads[t]) <==> s.lock == Some(t))
  }

  ghost predicate ThreadsOk(s: State)
  {
    forall t | t in s.threads :: PcOk(s.threads[t], s.nextId, s.slots)
  }

  /** Pending requests are exactly the open request of the lock holder. */
  predicate PendingOk(pending: seq<int>, holder: Pc) { pending == if Open(holder) then [holder.id] else [] }

  /** A response queue only ever holds messages that carry the id of its request. */
  ghost predicate SlotsOk(slots: map<int, seq<Item>>, nextId: nat)
  {
    && (forall id | id in slots :: 1 <= id <= nextId)
    && (forall id, i | id in slots && 0 <= i < |slots[id]| :: OwnResponse(slots[id][i], id))
  }

  predicate QueueOk(notifications: seq<Item>, holder: Pc) { InTurn(holder) ==> Marker !in notifications }

  /** What a request has taken carries the id of the request. */
  predicate ItemOk(e: Event)
  {
    match e
    case Sent(_, _) => true
    case Answered(id, item) => OwnResponse(item, id) && !EndsIt(item)
    case RequestExited(id, item) => OwnResponse(item, id) && EndsIt(item)
    case TurnExited(item) => item.Msg? && EndsIt(item)
  }

  /** Ids are sent once and in increasing order, every reply carries the id of a request sent before it,
      each request takes at most one, and no item that ended a wait is a marker. */
  ghost predicate TraceOk(trace: seq<Event>)
  {
    && (forall i | 0 <= i < |trace| :: ItemOk(trace[i]))
    && (forall i, j | 0 <= i < j < |trace| && trace[i].Sent? && trace[j].Sent? :: trace[i].id < trace[j].id)
    && (forall i, j | 0 <= i < j < |trace| && Replied(trace[i]) && Replied(trace[j]) :: trace[i].id < trace[j].id)
    && (forall j | 0 <= j < |trace| && Replied(trace[j]) ::
          exists i :: 0 <= i < j && trace[i].Sent? && trace[i].id == trace[j].id)
  }

  ghost predicate Bounded(trace: seq<Event>, bound: int)
  {
    forall i | 0 <= i < |trace| && !trace[i].TurnExited? :: trace[i].id <= bound
  }

  /** How far the trace has got with the latest request */
  ghost predicate Progress(trace: seq<Event>, nextId: nat, holder: Pc)
  {
    && (holder.Allocated? || holder.Registered? ==> Bounded(trace, nextId - 1))
    && (holder.Waiting? || holder.Got? ==>
          && (forall i | 0 <= i < |trace| && Replied(trace[i]) :: trace[i].id < nextId)
          && exists i :: 0 <= i < |trace| && trace[i].Sent? && trace[i].id == nextId)
  }

  ghost predicate Inv(s: State)
  {
    && LockOk(s) && ThreadsOk(s)
    && PendingOk(s.pending, Holder(s)) && QueueOk(s.notifications, Holder(s))
    && SlotsOk(s.slots, s.nextId)
    && TraceOk(s.trace) && Bounded(s.trace, s.nextId) && Progress(s.trace, s.nextId, Holder(s))
  }

  // ---------- one step keeps it ----------

  predicate Quiet(pc: Pc) { !Open(pc) && !pc.Allocated? }

  lemma {:induction false} WithoutOnly(id: int)
    ensures Without([id], id) == []
  {
    assert [id][1..] == [];
  }

  /** Moving a thread between places that agree on the lock and have no request under way */
  lemma {:induction false} GotoKeeps(s: State, t: Tid, pc: Pc)
    requires Inv(s) && t in s.threads && Quiet(s.threads[t]) && Quiet(pc)
    requires Locked(pc) <==> Locked(s.threads[t])
    requires PcOk(pc, s.nextId, s.slots)
    requires InTurn(pc) ==> InTurn(s.threads[t]) || Marker !in s.notifications
    ensures Inv(Goto(s, t, pc))
  {
    hide SlotsOk, TraceOk, Bounded;
  }

  lemma {:induction false} EnterKeeps(s: State, t: Tid, pc: Pc)
    requires Inv(s) && t in s.threads && !Locked(s.threads[t]) && Locked(pc) && Quiet(pc) && !InTurn(pc) && PcOk(pc, s.nextId, s.slots)
    ensures Inv(Enter(s, t, pc))
  {
    hide SlotsOk, TraceOk, Bounded;
  }

  lemma {:induction false} ExitKeeps(s: State, t: Tid, pc: Pc)
    requires Inv(s) && t in s.threads && Locked(s.threads[t]) && Quiet(s.threads[t])
    requires !Locked(pc) && PcOk(pc, s.nextId, s.slots)
    ensures Inv(Exit(s, t, pc))
  {
    hide SlotsOk, TraceOk, Bounded;
  }

  /** Taking or adding notifications never adds a marker here. */
  lemma {:induction false} NotificationsKeep(s: State, notifications: seq<Item>)
    requires Inv(s)
    requires Marker in notifications ==> Marker in s.notifications
    ensures Inv(s.(notifications := notifications))
  {
    hide SlotsOk, TraceOk, Bounded;
  }

  /** Outside turns the notification queue may hold anything, markers included. */
  lemma {:induction false} OutsideTurnsKeep(s: State, notifications: seq<Item>)
    requires Inv(s) && !InTurn(Holder(s))
    ensures Inv(s.(notifications := notifications))
  {
    hide SlotsOk, TraceOk, Bounded;
  }

  lemma {:induction false} MarkingKeeps(s: State, t: Tid, after: After)
    requires Inv(s) && t in s.threads && s.threads[t] == Marking([], after)
    ensures Inv(MarkingStep(s, t, [], after))
  {
    var pc := match after case Leave => Leaving case Restart => Launching case EndReader => EndLeaving;
    GotoKeeps(s, t, pc);
    OutsideTurnsKeep(Goto(s, t, pc), s.notifications + [Marker]);
  }

  /** A new process with a new reader thread */
  lemma {:induction false} SpawnKeeps(s: State, r: Tid, process: nat)
    requires Inv(s) && r !in s.threads
    ensures Inv(s.(threads := s.threads[r := Starting], processes := process, proc := Some(process)))
  {
    hide SlotsOk, TraceOk, Bounded, Progress;
  }

  lemma {:induction false} LaunchKeeps(s: State, t: Tid, c: Choice)
    requires Inv(s) && t in s.threads && s.threads[t] == Launching
    ensures Inv(LaunchStep(s, t, c))
  {
    hide Inv;
    if c.ok && c.spawn !in s.threads {
      GotoKeeps(s, t, Requesting(Initialize));
      SpawnKeeps(Goto(s, t, Requesting(Initialize)), c.spawn, s.processes + 1);
    } else {
      GotoKeeps(s, t, Leaving);
    }
  }

  lemma {:induction false} RequestKeeps(s: State, t: Tid, rpc: Rpc, c: Choice)
    requires Inv(s) && t in s.threads && s.threads[t] == Requesting(rpc)
    ensures Inv(RequestStep(s, t, rpc, c))
  {
    hide TraceOk, EndsIt;
    if s.proc.None? || !c.ok {
      GotoKeeps(s, t, Returned(rpc, false));
    }
  }

  lemma {:induction false} RegisterKeeps(s: State, t: Tid, id: int, rpc: Rpc)
    requires Inv(s) && t in s.threads && s.threads[t] == Allocated(id, rpc)
    ensures Inv(Goto(s, t, Registered(id, rpc)).(pending := s.pending + [id]))
  {
  }

  lemma {:induction false} TraceGrows(trace: seq<Event>, e: Event)
    requires TraceOk(trace) && ItemOk(e)
    requires e.Sent? ==> forall i | 0 <= i < |trace| :: trace[i].Sent? ==> trace[i].id < e.id
    requires Replied(e) ==> forall i | 0 <= i < |trace| :: Replied(trace[i]) ==> trace[i].id < e.id
    requires Replied(e) ==> exists i :: 0 <= i < |trace| && trace[i].Sent? && trace[i].id == e.id
    ensures TraceOk(trace + [e])
  {
    hide ItemOk;
    var u := trace + [e];
    forall j | 0 <= j < |u| && Replied(u[j])
      ensures exists i :: 0 <= i < j && u[i].Sent? && u[i].id == u[j].id
    {
      var i :| 0 <= i < j && 0 <= i < |trace| && trace[i].Sent? && trace[i].id == u[j].id;
      assert u[i] == trace[i];
    }
  }

  lemma {:induction false} WriteKeeps(s: State, t: Tid, id: int, rpc: Rpc, c: Choice)
    requires Inv(s) && t in s.threads && s.threads[t] == Registered(id, rpc)
    ensures Inv(WriteStep(s, t, id, rpc, c))
  {
    if c.ok && s.proc.Some? {
      TraceGrows(s.trace, Sent(id, s.proc.value));
      assert (s.trace + [Sent(id, s.proc.value)])[|s.trace|].Sent?;
    }
  }

  lemma {:induction false} WaitKeeps(s: State, t: Tid, id: int, rpc: Rpc, c: Choice)
    requires Inv(s) && t in s.threads && s.threads[t] == Waiting(id, rpc)
    ensures Inv(WaitStep(s, t, id, rpc, c))
  {
    hide TraceOk;
  }

  lemma {:induction false} GotItem(s: State, t: Tid)
    requires ThreadsOk(s) && t in s.threads && s.threads[t].Got?
    ensures var pc := s.threads[t]; pc.id == s.nextId && OwnResponse(pc.item, pc.id)
  {
    assert PcOk(s.threads[t], s.nextId, s.slots);
  }

  /** A request that has an item has been sent and has not been replied to. */
  lemma {:induction false} GotProgress(trace: seq<Event>, nextId: nat, holder: Pc)
    requires Progress(trace, nextId, holder) && holder.Got?
    ensures forall i | 0 <= i < |trace| && Replied(trace[i]) :: trace[i].id < nextId
    ensures exists i :: 0 <= i < |trace| && trace[i].Sent? && trace[i].id == nextId
  {
  }

  lemma {:induction false} DoneProgress(trace: seq<Event>, nextId: nat, holder: Pc)
    requires holder.Returned?
    ensures Progress(trace, nextId, holder)
  {
  }

  lemma {:induction false} BoundedGrows(trace: seq<Event>, e: Event, bound: int)
    requires Bounded(trace, bound) && (!e.TurnExited? ==> e.id <= bound)
    ensures Bounded(trace + [e], bound)
  {
  }

  lemma {:induction false} GotKeeps(s: State, t: Tid, id: int, rpc: Rpc, item: Item, c: Choice)
    requires Inv(s) && t in s.threads && s.threads[t] == Got(id, rpc, item)
    ensures Inv(GotStep(s, t, id, rpc, item, c))
  {
    hide TraceOk, Bounded, SlotsOk, EndsIt, Progress;
    WithoutOnly(id);
    GotItem(s, t);
    GotProgress(s.trace, s.nextId, Holder(s));
    var event := if EndsIt(item) then RequestExited(id, item) else Answered(id, item);
    assert Holder(s) == s.threads[t];
    TraceGrows(s.trace, event);
    BoundedGrows(s.trace, event, s.nextId);
    DoneProgress(s.trace + [event], s.nextId, Returned(rpc, !EndsIt(item) && c.ok));
  }

  lemma {:induction false} FailedKeeps(s: State, t: Tid, id: int, rpc: Rpc)
    requires Inv(s) && t in s.threads && s.threads[t] == Failed(id, rpc)
    ensures Inv(Goto(s, t, Returned(rpc, false)).(pending := Without(s.pending, id)))
  {
    WithoutOnly(id);
  }

  lemma {:induction false} FoundKeeps(s: State, t: Tid, process: nat, id: int, m: Message)
    requires Inv(s) && t in s.threads && s.threads[t] == Found(process, id, m)
    ensures Inv(Goto(s, t, Reading(process)).(slots := s.slots[id := [Msg(m)]]))
  {
    hide TraceOk;
  }

  lemma {:induction false} TurnEventKeeps(s: State, item: Item)
    requires Inv(s) && Quiet(Holder(s)) && item.Msg? && EndsIt(item)
    ensures Inv(s.(trace := s.trace + [TurnExited(item)]))
  {
    hide TraceOk, SlotsOk;
    TraceGrows(s.trace, TurnExited(item));
  }

  lemma {:induction false} AwaitKeeps(s: State, t: Tid, c: Choice)
    requires Inv(s) && t in s.threads && s.threads[t] == Awaiting
    ensures Inv(AwaitStep(s, t, c))
  {
    if !c.timeout && s.notifications != [] {
      var item, u := s.notifications[0], s.(notifications := s.notifications[1..]);
      NotificationsKeep(s, s.notifications[1..]);
      assert item in s.notifications;
      if EndsIt(item) {
        GotoKeeps(u, t, Stopping(Leave));
        TurnEventKeeps(Goto(u, t, Stopping(Leave)), item);
      } else {
        match c.verdict
        case Continue =>
        case Complete => GotoKeeps(u, t, Leaving);
        case Raise => GotoKeeps(u, t, Stopping(Leave));
      }
    } else {
      GotoKeeps(s, t, Stopping(Leave));
    }
  }

  lemma {:induction false} DrainKeeps(s: State, t: Tid)
    requires Inv(s) && t in s.threads && s.threads[t] == Draining
    ensures Inv(if s.notifications == [] then Goto(s, t, Requesting(TurnStart))
                else s.(notifications := s.notifications[1..]))
  {
    if s.notifications == [] {
      GotoKeeps(s, t, Requesting(TurnStart));
    } else {
      NotificationsKeep(s, s.notifications[1..]);
    }
  }

  lemma {:induction false} ReadKeeps(s: State, t: Tid, process: nat, line: Line)
    requires Inv(s) && t in s.threads && s.threads[t] == Reading(process)
    ensures Inv(ReadStep(s, t, process, line))
  {
    match line
    case Blank =>
    case Noise => GotoKeeps(s, t, NoiseWants(process));
    case EndOfStream => GotoKeeps(s, t, EndWants);
    case Json(id, hasMethod, eof, body) =>
      var m := Message(id, hasMethod, eof, body, process);
      if id.Some? && id.value in s.pending {
        GotoKeeps(s, t, Found(process, id.value, m));
      } else if hasMethod {
        GotoKeeps(s, t, Posting(process, m));
      }
  }

  lemma {:induction false} PostKeeps(s: State, t: Tid, process: nat, m: Message)
    requires Inv(s) && t in s.threads && s.threads[t] == Posting(process, m)
    ensures Inv(Goto(s, t, Reading(process)).(notifications := s.notifications + [Msg(m)]))
  {
    GotoKeeps(s, t, Reading(process));
    NotificationsKeep(Goto(s, t, Reading(process)), s.notifications + [Msg(m)]);
  }

  lemma {:induction false} StopKeeps(s: State, t: Tid, after: After)
    requires Inv(s) && t in s.threads && s.threads[t] == Stopping(after)
    ensures Inv(Goto(s, t, Copying(after)).(proc := None))
  {
    GotoKeeps(s, t, Copying(after));
  }

  /** Whoever copies the pending requests finds none: nobody else can have one open. */
  lemma {:induction false} CopyKeeps(s: State, t: Tid, after: After)
    requires Inv(s) && t in s.threads && s.threads[t] == Copying(after)
    ensures s.pending == []
    ensures Inv(Goto(s, t, Marking(s.pending, after)).(pending := []))
  {
    GotoKeeps(s, t, Marking([], after));
    assert Goto(s, t, Marking([], after)).(pending := []) == Goto(s, t, Marking([], after));
  }

  lemma {:induction false} InsideKeeps(s: State, t: Tid, op: Op, c: Choice)
    requires Inv(s) && t in s.threads && s.threads[t] == Inside(op)
    ensures Inv(InsideStep(s, t, op, c))
  {
    match op
    case Ensure => GotoKeeps(s, t, if c.ok then Leaving else Stopping(Restart));
    case Thread => GotoKeeps(s, t, if c.ok then Requesting(ThreadStart) else Leaving);
    case Turn => GotoKeeps(s, t, if c.ok then Draining else Leaving);
    case Shutdown => GotoKeeps(s, t, Stopping(Leave));
    case Peek => GotoKeeps(s, t, Leaving);
  }

  lemma {:induction false} ReturnedKeeps(s: State, t: Tid, rpc: Rpc, ok: bool, c: Choice)
    requires Inv(s) && t in s.threads && s.threads[t] == Returned(rpc, ok)
    ensures Inv(ReturnedStep(s, t, rpc, ok, c))
  {
    match rpc
    case Initialize => GotoKeeps(s, t, if ok then Leaving else Stopping(Leave));
    case ThreadStart => GotoKeeps(s, t, Leaving);
    case TurnStart => GotoKeeps(s, t, if ok && c.ok then Awaiting else Stopping(Leave));
  }

  lemma {:induction false} StartKeeps(s: State, t: Tid)
    requires Inv(s) && t in s.threads && s.threads[t] == Starting
    ensures Inv(Goto(s, t, if s.proc.Some? then Reading(s.proc.value) else Done))
  {
    GotoKeeps(s, t, if s.proc.Some? then Reading(s.proc.value) else Done);
  }

  lemma {:induction false} MarkingIsEmpty(s: State, t: Tid)
    requires Inv(s) && t in s.threads && s.threads[t].Marking?
    ensures s.threads[t].queues == []
  {
    assert PcOk(s.threads[t], s.nextId, s.slots);
  }

  lemma {:induction false} ReaderStepKeeps(s: State, t: Tid, c: Choice)
    requires Inv(s) && t in s.threads
    requires var pc := s.threads[t];
             pc.Starting? || pc.Reading? || pc.Found? || pc.Posting? || pc.NoiseWants? || pc.NoiseInside? ||
             pc.EndWants? || pc.EndLeaving? || pc.Done?
    ensures Inv(Step(s, t, c))
  {
    hide Inv, ReadStep;
    match s.threads[t]
    case Starting => StartKeeps(s, t);
    case Reading(process) => ReadKeeps(s, t, process, c.line);
    case Found(process, id, m) => FoundKeeps(s, t, process, id, m);
    case Posting(process, m) => PostKeeps(s, t, process, m);
    case NoiseWants(process) => EnterKeeps(s, t, NoiseInside(process));
    case NoiseInside(process) => ExitKeeps(s, t, Reading(process));
    case EndWants => EnterKeeps(s, t, Copying(EndReader));
    case EndLeaving => ExitKeeps(s, t, Done);
    case Done =>
  }

  lemma {:induction false} RequestStepKeeps(s: State, t: Tid, c: Choice)
    requires Inv(s) && t in s.threads
    requires var pc := s.threads[t];
             pc.Requesting? || pc.Allocated? || pc.Registered? || pc.Waiting? || pc.Got? || pc.Failed? || pc.Returned?
    ensures Inv(Step(s, t, c))
  {
    hide Inv, GotStep, RequestStep, WriteStep, WaitStep, ReturnedStep;
    match s.threads[t]
    case Requesting(rpc) => RequestKeeps(s, t, rpc, c);
    case Allocated(id, rpc) => RegisterKeeps(s, t, id, rpc);
    case Registered(id, rpc) => WriteKeeps(s, t, id, rpc, c);
    case Waiting(id, rpc) => WaitKeeps(s, t, id, rpc, c);
    case Got(id, rpc, item) => GotKeeps(s, t, id, rpc, item, c);
    case Failed(id, rpc) => FailedKeeps(s, t, id, rpc);
    case Returned(rpc, ok) => ReturnedKeeps(s, t, rpc, ok, c);
  }

  lemma {:induction false} CallerStepKeeps(s: State, t: Tid, c: Choice)
    requires Inv(s) && t in s.threads
    requires var pc := s.threads[t];
             pc.Idle? || pc.Wants? || pc.Inside? || pc.Stopping? || pc.Copying? || pc.Marking? || pc.Launching? ||
             pc.Draining? || pc.Awaiting? || pc.Leaving?
    ensures Inv(Step(s, t, c))
  {
    hide Inv, AwaitStep, LaunchStep, MarkingStep, InsideStep;
    match s.threads[t]
    case Idle => GotoKeeps(s, t, Wants(c.op));
    case Wants(op) => EnterKeeps(s, t, Inside(op));
    case Inside(op) => InsideKeeps(s, t, op, c);
    case Stopping(after) => StopKeeps(s, t, after);
    case Copying(after) => CopyKeeps(s, t, after);
    case Marking(queues, after) => MarkingIsEmpty(s, t); MarkingKeeps(s, t, after);
    case Launching => LaunchKeeps(s, t, c);
    case Draining => DrainKeeps(s, t);
    case Awaiting => AwaitKeeps(s, t, c);
    case Leaving => ExitKeeps(s, t, Idle);
  }

  /** Every step of every thread keeps the invariant. */
  lemma {:induction false} StepKeeps(s: State, t: Tid, c: Choice)
    requires Inv(s)
    ensures Inv(Step(s, t, c))
  {
    if t in s.threads {
      hide Inv, Step;
      var pc := s.threads[t];
      if pc.Starting? || pc.Reading? || pc.Found? || pc.Posting? || pc.NoiseWants? || pc.NoiseInside? ||
         pc.EndWants? || pc.EndLeaving? || pc.Done? {
        ReaderStepKeeps(s, t, c);
      } else if pc.Requesting? || pc.Allocated? || pc.Registered? || pc.Waiting? || pc.Got? || pc.Failed? || pc.Returned? {
        RequestStepKeeps(s, t, c);
      } else {
        CallerStepKeeps(s, t, c);
      }
    }
  }

  // ---------- statements about every run ----------

  lemma {:induction false} InitInv(callers: set<Tid>)
    ensures Inv(Init(callers))
  {
  }

  lemma {:induction false} RunKeeps(s: State, schedule: Schedule)
    requires Inv(s)
    ensures Inv(Run(s, schedule))
  {
    hide Inv, Step;
    if schedule != [] {
      var before := schedule[..|schedule| - 1];
      RunKeeps(s, before);
      StepKeeps(Run(s, before), schedule[|schedule| - 1].0, schedule[|schedule| - 1].1);
    }
  }

  lemma {:induction false} Reachable(callers: set<Tid>, schedule: Schedule)
    ensures Inv(Run(Init(callers), schedule))
  {
    InitInv(callers);
    RunKeeps(Init(callers), schedule);
  }

  /** In every interleaving at most one request is pending, it belongs to the thread that holds the lock,
      and none is pending while the lock is free. */
  lemma {:induction false} OnePendingRequest(callers: set<Tid>, schedule: Schedule)
    ensures var s := Run(Init(callers), schedule);
            && |s.pending| <= 1
            && (s.lock.None? ==> s.pending == [])
            && (forall id | id in s.pending ::
                  s.lock.Some? && s.lock.value in s.threads && Open(s.threads[s.lock.value])
                  && s.threads[s.lock.value].id == id == s.nextId)
  {
    hide Run;
    Reachable(callers, schedule);
    var s := Run(Init(callers), schedule);
    if s.lock.Some? { assert PcOk(s.threads[s.lock.value], s.nextId, s.slots); }
  }

  /** In every run, with any time-outs and restarts: ids are sent once, in increasing order; an answer
      carries the id of the request it is given to, which was sent before; no request gets two answers. */
  lemma {:induction false} AnswersMatchRequests(callers: set<Tid>, schedule: Schedule)
    ensures TraceOk(Run(Init(callers), schedule).trace)
  {
    hide Run;
    Reachable(callers, schedule);
  }

  /** In no run does a request or a turn end because of a marker the client put: whatever ends one as "exited
      unexpectedly" is an object that a server printed with an `__eof__` key of its own. The death of a server is
      never seen this way, and no marker is queued between a turn's drain and its return. */
  lemma {:induction false} MarkersAreNeverRead(callers: set<Tid>, schedule: Schedule)
    ensures var s := Run(Init(callers), schedule);
            && (forall i | 0 <= i < |s.trace| && (s.trace[i].RequestExited? || s.trace[i].TurnExited?) ::
                  s.trace[i].item.Msg? && s.trace[i].item.m.eof)
            && forall t | t in s.threads && InTurn(s.threads[t]) :: Marker !in s.notifications
  {
    hide Run;
    Reachable(callers, schedule);
    var s := Run(Init(callers), schedule);
    forall i | 0 <= i < |s.trace| && (s.trace[i].RequestExited? || s.trace[i].TurnExited?)
      ensures s.trace[i].item.Msg? && s.trace[i].item.m.eof
    {
      assert ItemOk(s.trace[i]);
    }
    forall t | t in s.threads && InTurn(s.threads[t]) ensures Marker !in s.notifications {
      assert Locked(s.threads[t]);
    }
  }

  /** The other way round: a request that has taken such an object from its queue, or a turn that takes one from
      the notifications, ends so; and a turn or request that takes anything else does not. */
  lemma {:induction false} ExitsExactlyOnEofKey(callers: set<Tid>, schedule: Schedule, t: Tid, c: Choice)
    ensures var s := Run(Init(callers), schedule);
            var u := Step(s, t, c);
            t in s.threads ==>
              && (s.threads[t].Got? ==>
                    && s.threads[t].item.Msg?
                    && (u.trace == s.trace + [RequestExited(s.threads[t].id, s.threads[t].item)] <==> s.threads[t].item.m.eof))
              && (s.threads[t].Awaiting? && s.notifications != [] && !c.timeout ==>
                    && s.notifications[0].Msg?
                    && (u.trace == s.trace + [TurnExited(s.notifications[0])] <==> s.notifications[0].m.eof))
  {
    hide Run;
    Reachable(callers, schedule);
    MarkersAreNeverRead(callers, schedule);
    var s := Run(Init(callers), schedule);
    if t in s.threads {
      if s.threads[t].Got? {
        GotItem(s, t);
        EventsDiffer(s.trace, RequestExited(s.threads[t].id, s.threads[t].item), Answered(s.threads[t].id, s.threads[t].item));
      } else if s.threads[t].Awaiting? && s.notifications != [] {
        assert InTurn(s.threads[t]) && s.notifications[0] in s.notifications;
        assert |s.trace + [TurnExited(s.notifications[0])]| != |s.trace|;
      }
    }
  }

  lemma {:induction false} EventsDiffer(trace: seq<Event>, e: Event, f: Event)
    requires e != f
    ensures trace + [e] != trace + [f]
  {
    assert (trace + [e])[|trace|] != (trace + [f])[|trace|];
  }
}
