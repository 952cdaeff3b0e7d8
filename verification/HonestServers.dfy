/** Which server an accepted reply comes from (src/flow_healer/codex_app_server_connector.py): a server process
    that prints only replies to requests it has been sent is never heard as another one, over every run with any
    time-outs and restarts. */
module HonestServers {
  import opened AppServer

  ghost predicate WasSent(trace: seq<Event>, id: int, process: nat)
  {
    exists i :: 0 <= i < |trace| && trace[i] == Sent(id, process)
  }

  /** Every object with an id that the server prints in this step replies to a request it has been sent. */
  ghost predicate HonestStep(s: State, t: Tid, c: Choice, process: nat)
  {
    t in s.threads && s.threads[t] == Reading(process) && c.line.Json? && c.line.id.Some? ==>
      WasSent(s.trace, c.line.id.value, process)
  }

  /** The server is honest at every step of the schedule. */
  ghost predicate HonestRun(s: State, schedule: Schedule, process: nat)
  {
    forall n | 0 <= n < |schedule| :: HonestStep(Run(s, schedule[..n]), schedule[n].0, schedule[n].1, process)
  }

  // ---------- every message of the server answers something it was sent ----------

  ghost predicate Traced(item: Item, trace: seq<Event>, process: nat)
  {
    item.Msg? && item.m.process == process && item.m.id.Some? ==> WasSent(trace, item.m.id.value, process)
  }

  /** The place holds a message that may be given to a request. */
  predicate Carries(pc: Pc) { pc.Found? || pc.Got? }

  function Carried(pc: Pc): Item
    requires Carries(pc)
  {
    if pc.Found? then Msg(pc.m) else pc.item
  }

  ghost predicate PcsTraced(s: State, process: nat)
  {
    forall t | t in s.threads && Carries(s.threads[t]) :: Traced(Carried(s.threads[t]), s.trace, process)
  }

  ghost predicate SlotsTraced(slots: map<int, seq<Item>>, trace: seq<Event>, process: nat)
  {
    forall id, i | id in slots && 0 <= i < |slots[id]| :: Traced(slots[id][i], trace, process)
  }

  ghost predicate RepliesTraced(trace: seq<Event>, process: nat)
  {
    forall i | 0 <= i < |trace| && Replied(trace[i]) :: Traced(trace[i].item, trace, process)
  }

  ghost predicate FromServer(s: State, process: nat)
  {
    PcsTraced(s, process) && SlotsTraced(s.slots, s.trace, process) && RepliesTraced(s.trace, process)
  }

  lemma {:induction false} StillTraced(item: Item, trace: seq<Event>, e: Event, process: nat)
    requires Traced(item, trace, process)
    ensures Traced(item, trace + [e], process)
  {
    if item.Msg? && item.m.process == process && item.m.id.Some? {
      var i :| 0 <= i < |trace| && trace[i] == Sent(item.m.id.value, process);
      assert (trace + [e])[i] == trace[i];
    }
  }

  /** A longer history keeps all that is traced. */
  lemma {:induction false} EventKeeps(s: State, e: Event, process: nat)
    requires FromServer(s, process) && (Replied(e) ==> Traced(e.item, s.trace, process))
    ensures FromServer(s.(trace := s.trace + [e]), process)
  {
    hide Traced;
    var u := s.trace + [e];
    forall t | t in s.threads && Carries(s.threads[t]) ensures Traced(Carried(s.threads[t]), u, process) {
      StillTraced(Carried(s.threads[t]), s.trace, e, process);
    }
    forall id, i | id in s.slots && 0 <= i < |s.slots[id]| ensures Traced(s.slots[id][i], u, process) {
      StillTraced(s.slots[id][i], s.trace, e, process);
    }
    forall i | 0 <= i < |u| && Replied(u[i]) ensures Traced(u[i].item, u, process) {
      StillTraced(if i < |s.trace| then s.trace[i].item else e.item, s.trace, e, process);
    }
  }

  lemma {:induction false} MoveKeeps(s: State, t: Tid, pc: Pc, process: nat)
    requires FromServer(s, process) && (Carries(pc) ==> Traced(Carried(pc), s.trace, process))
    ensures FromServer(Goto(s, t, pc), process)
  {
    hide Traced;
  }

  lemma {:induction false} SlotKeeps(s: State, id: int, queue: seq<Item>, process: nat)
    requires FromServer(s, process) && forall i | 0 <= i < |queue| :: Traced(queue[i], s.trace, process)
    ensures FromServer(s.(slots := s.slots[id := queue]), process)
  {
    hide Traced;
  }

  /** Everything but threads, response queues and history is irrelevant here. */
  lemma {:induction false} Irrelevant(s: State, u: State, process: nat)
    requires FromServer(s, process) && u.threads == s.threads && u.slots == s.slots && u.trace == s.trace
    ensures FromServer(u, process)
  {
    hide Traced;
  }

  // ---------- the steps that carry a message on ----------

  lemma {:induction false} ReadFrom(s: State, t: Tid, c: Choice, process: nat)
    requires FromServer(s, process) && HonestStep(s, t, c, process) && t in s.threads && s.threads[t].Reading?
    ensures FromServer(Step(s, t, c), process)
  {
    hide FromServer, WasSent;
    var p := s.threads[t].process;
    match c.line
    case Blank =>
    case Noise => MoveKeeps(s, t, NoiseWants(p), process);
    case EndOfStream => MoveKeeps(s, t, EndWants, process);
    case Json(id, hasMethod, eof, body) =>
      var m := Message(id, hasMethod, eof, body, p);
      if id.Some? && id.value in s.pending {
        MoveKeeps(s, t, Found(p, id.value, m), process);
      } else {
        MoveKeeps(s, t, Posting(p, m), process);
      }
  }

  lemma {:induction false} FoundFrom(s: State, t: Tid, c: Choice, process: nat)
    requires FromServer(s, process) && t in s.threads && s.threads[t].Found?
    ensures FromServer(Step(s, t, c), process)
  {
    hide Traced;
    var pc := s.threads[t];
    assert Traced(Carried(pc), s.trace, process);
    hide FromServer;
    SlotKeeps(s, pc.id, [Msg(pc.m)], process);
    MoveKeeps(s.(slots := s.slots[pc.id := [Msg(pc.m)]]), t, Reading(pc.process), process);
  }

  lemma {:induction false} WaitFrom(s: State, t: Tid, c: Choice, process: nat)
    requires FromServer(s, process) && t in s.threads && s.threads[t].Waiting?
    ensures FromServer(Step(s, t, c), process)
  {
    hide Traced;
    var pc := s.threads[t];
    if c.timeout {
      MoveKeeps(s, t, Failed(pc.id, pc.rpc), process);
    } else if pc.id in s.slots && s.slots[pc.id] != [] {
      var queue := s.slots[pc.id];
      assert Traced(queue[0], s.trace, process);
      forall i | 0 <= i < |queue| - 1 ensures Traced(queue[1..][i], s.trace, process) {
        assert queue[1..][i] == queue[i + 1];
      }
      hide FromServer;
      SlotKeeps(s, pc.id, queue[1..], process);
      MoveKeeps(s.(slots := s.slots[pc.id := queue[1..]]), t, Got(pc.id, pc.rpc, queue[0]), process);
    }
  }

  lemma {:induction false} GotFrom(s: State, t: Tid, c: Choice, process: nat)
    requires FromServer(s, process) && t in s.threads && s.threads[t].Got?
    ensures FromServer(Step(s, t, c), process)
  {
    hide Traced, EndsIt;
    var pc := s.threads[t];
    assert Traced(Carried(pc), s.trace, process);
    hide FromServer;
    var event := if EndsIt(pc.item) then RequestExited(pc.id, pc.item) else Answered(pc.id, pc.item);
    MoveKeeps(s, t, Returned(pc.rpc, !EndsIt(pc.item) && c.ok), process);
    var u := Goto(s, t, Returned(pc.rpc, !EndsIt(pc.item) && c.ok));
    EventKeeps(u, event, process);
    Irrelevant(u.(trace := s.trace + [event]), Step(s, t, c), process);
  }

  // ---------- the others ----------

  lemma {:induction false} RequestFrom(s: State, t: Tid, c: Choice, process: nat)
    requires FromServer(s, process) && t in s.threads
    requires var pc := s.threads[t]; pc.Requesting? || pc.Allocated? || pc.Registered? || pc.Failed? || pc.Returned?
    ensures FromServer(Step(s, t, c), process)
  {
    hide FromServer;
    var u := Step(s, t, c);
    match s.threads[t]
    case Requesting(rpc) =>
      if s.proc.None? || !c.ok {
        MoveKeeps(s, t, Returned(rpc, false), process);
      } else {
        var id := s.nextId + 1;
        SlotKeeps(s, id, [], process);
        MoveKeeps(s.(slots := s.slots[id := []]), t, Allocated(id, rpc), process);
        Irrelevant(Goto(s.(slots := s.slots[id := []]), t, Allocated(id, rpc)), u, process);
      }
    case Allocated(id, rpc) =>
      MoveKeeps(s, t, Registered(id, rpc), process);
      Irrelevant(Goto(s, t, Registered(id, rpc)), u, process);
    case Registered(id, rpc) =>
      if c.ok && s.proc.Some? {
        MoveKeeps(s, t, Waiting(id, rpc), process);
        EventKeeps(Goto(s, t, Waiting(id, rpc)), Sent(id, s.proc.value), process);
      } else {
        MoveKeeps(s, t, Failed(id, rpc), process);
      }
    case Failed(id, rpc) =>
      MoveKeeps(s, t, Returned(rpc, false), process);
      Irrelevant(Goto(s, t, Returned(rpc, false)), u, process);
    case Returned(rpc, ok) => MoveKeeps(s, t, u.threads[t], process);
  }

  lemma {:induction false} AwaitFrom(s: State, t: Tid, c: Choice, process: nat)
    requires FromServer(s, process) && t in s.threads && s.threads[t].Awaiting?
    ensures FromServer(Step(s, t, c), process)
  {
    hide FromServer, EndsIt;
    if c.timeout {
      MoveKeeps(s, t, Stopping(Leave), process);
    } else if s.notifications != [] {
      var item, rest := s.notifications[0], s.(notifications := s.notifications[1..]);
      Irrelevant(s, rest, process);
      MoveKeeps(rest, t, Stopping(Leave), process);
      MoveKeeps(rest, t, Leaving, process);
      EventKeeps(Goto(rest, t, Stopping(Leave)), TurnExited(item), process);
    }
  }

  lemma {:induction false} MarkingFrom(s: State, t: Tid, c: Choice, process: nat)
    requires FromServer(s, process) && t in s.threads && s.threads[t].Marking?
    ensures FromServer(Step(s, t, c), process)
  {
    hide FromServer;
    var u, queues := Step(s, t, c), s.threads[t].queues;
    if queues == [] {
      MoveKeeps(s, t, u.threads[t], process);
      Irrelevant(Goto(s, t, u.threads[t]), u, process);
    } else if !(queues[0] in s.slots && s.slots[queues[0]] != []) {
      SlotKeeps(s, queues[0], [Marker], process);
      MoveKeeps(s.(slots := s.slots[queues[0] := [Marker]]), t, u.threads[t], process);
    }
  }

  lemma {:induction false} LaunchFrom(s: State, t: Tid, c: Choice, process: nat)
    requires FromServer(s, process) && t in s.threads && s.threads[t].Launching?
    ensures FromServer(Step(s, t, c), process)
  {
    hide FromServer;
    if c.ok && c.spawn !in s.threads {
      MoveKeeps(s, t, Requesting(Initialize), process);
      MoveKeeps(Goto(s, t, Requesting(Initialize)), c.spawn, Starting, process);
      Irrelevant(Goto(Goto(s, t, Requesting(Initialize)), c.spawn, Starting), Step(s, t, c), process);
    } else {
      MoveKeeps(s, t, Leaving, process);
    }
  }

  /** The steps that move one thread and touch neither response queues nor the history */
  lemma {:induction false} PlainFrom(s: State, t: Tid, c: Choice, process: nat)
    requires FromServer(s, process) && t in s.threads
    requires var pc := s.threads[t];
             pc.Idle? || pc.Wants? || pc.Inside? || pc.Stopping? || pc.Copying? || pc.Draining? || pc.Leaving? ||
             pc.Starting? || pc.Posting? || pc.NoiseWants? || pc.NoiseInside? || pc.EndWants? || pc.EndLeaving? || pc.Done?
    ensures FromServer(Step(s, t, c), process)
  {
    hide FromServer;
    var u := Step(s, t, c);
    assert u.slots == s.slots && u.trace == s.trace && t in u.threads && !Carries(u.threads[t]);
    assert u.threads == s.threads[t := u.threads[t]];
    MoveKeeps(s, t, u.threads[t], process);
    Irrelevant(Goto(s, t, u.threads[t]), u, process);
  }

  lemma {:induction false} StepFrom(s: State, t: Tid, c: Choice, process: nat)
    requires FromServer(s, process) && HonestStep(s, t, c, process)
    ensures FromServer(Step(s, t, c), process)
  {
    if t in s.threads {
      hide Step, FromServer, HonestStep;
      match s.threads[t]
      case Reading(_) => ReadFrom(s, t, c, process);
      case Found(_, _, _) => FoundFrom(s, t, c, process);
      case Waiting(_, _) => WaitFrom(s, t, c, process);
      case Got(_, _, _) => GotFrom(s, t, c, process);
      case Awaiting => AwaitFrom(s, t, c, process);
      case Marking(_, _) => MarkingFrom(s, t, c, process);
      case Launching => LaunchFrom(s, t, c, process);
      case Requesting(_) => RequestFrom(s, t, c, process);
      case Allocated(_, _) => RequestFrom(s, t, c, process);
      case Registered(_, _) => RequestFrom(s, t, c, process);
      case Failed(_, _) => RequestFrom(s, t, c, process);
      case Returned(_, _) => RequestFrom(s, t, c, process);
      case _ => PlainFrom(s, t, c, process);
    }
  }

  lemma {:induction false} RunFrom(s: State, schedule: Schedule, process: nat)
    requires FromServer(s, process) && HonestRun(s, schedule, process)
    ensures FromServer(Run(s, schedule), process)
  {
    hide Step, FromServer, HonestStep;
    if schedule != [] {
      var n := |schedule| - 1;
      var before := schedule[..n];
      forall k | 0 <= k < n ensures HonestStep(Run(s, before[..k]), before[k].0, before[k].1, process) {
        assert before[..k] == schedule[..k] && before[k] == schedule[k];
      }
      RunFrom(s, before, process);
      StepFrom(Run(s, before), schedule[n].0, schedule[n].1, process);
    }
  }

  lemma {:induction false} StartFrom(callers: set<Tid>, process: nat)
    ensures FromServer(Init(callers), process)
  {
  }

  /** If a server process prints objects with an id only for requests it has been sent, every reply taken from it
      belongs to the very request that was sent to it: a late reply of an earlier process never answers a later
      request. */
  lemma {:induction false} AnswersComeFromTheirServer(callers: set<Tid>, schedule: Schedule, process: nat, k: nat)
    requires HonestRun(Init(callers), schedule, process)
    ensures var trace := Run(Init(callers), schedule).trace;
            k < |trace| && Replied(trace[k]) && trace[k].item.Msg? && trace[k].item.m.process == process ==>
              forall i | 0 <= i < |trace| && trace[i].Sent? && trace[i].id == trace[k].id :: i < k && trace[i].process == process
  {
    hide Run, HonestRun, PcsTraced, SlotsTraced;
    StartFrom(callers, process);
    RunFrom(Init(callers), schedule, process);
    AnswersMatchRequests(callers, schedule);
    var trace := Run(Init(callers), schedule).trace;
    if k < |trace| && Replied(trace[k]) && trace[k].item.Msg? && trace[k].item.m.process == process {
      assert ItemOk(trace[k]) && Traced(trace[k].item, trace, process);
      var j :| 0 <= j < |trace| && trace[j] == Sent(trace[k].id, process);
      var first :| 0 <= first < k && trace[first].Sent? && trace[first].id == trace[k].id;
      assert first == j;
    }
  }
}
