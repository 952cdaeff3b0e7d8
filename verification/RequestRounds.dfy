/** What a request and a turn of the app-server client get when everything goes well
    (src/flow_healer/codex_app_server_connector.py): the reply reaches the request it is for, and turns complete. */
module RequestRounds {
  import opened Wrappers
  import opened AppServer
  import opened AppServerStuck

  /** A waiting request whose queue is not empty takes the head, unless its time-out comes first. */
  lemma {:induction false} WaitingTakesHead(s: State, t: Tid, c: Choice, id: int, rpc: Rpc)
    requires t in s.threads && s.threads[t] == Waiting(id, rpc) && id in s.slots && s.slots[id] != []
    ensures var u := Step(s, t, c);
            if c.timeout then u.threads == s.threads[t := Failed(id, rpc)] && u.slots == s.slots
            else u.threads == s.threads[t := Got(id, rpc, s.slots[id][0])] && u.slots == s.slots[id := s.slots[id][1..]]
  {
  }

  /** A turn that waits takes the head of the notifications, unless its time-out comes first; the message decides
      whether it goes on, returns, or raises and stops the server. */
  lemma {:induction false} AwaitingTakesHead(s: State, t: Tid, c: Choice)
    requires t in s.threads && s.threads[t] == Awaiting && s.notifications != [] && !c.timeout
    ensures var u, item := Step(s, t, c), s.notifications[0];
            && u.notifications == s.notifications[1..] && u.lock == s.lock && u.proc == s.proc
            && u.threads == s.threads[t := if item.Marker? || item.m.eof || c.verdict == Raise then Stopping(Leave)
                            else if c.verdict == Complete then Leaving else Awaiting]
  {
    assert s.threads[t := Awaiting] == s.threads;
  }

  /** The steps of a request after its registration: write, the reader reads the reply and puts it into the response
      queue, take, close. `fine` says that the reply is no error object. */
  function Round(t: Tid, r: Tid, write: Choice, read: Choice, take: Choice, close: Choice): Schedule
  {
    [(t, write), (r, read), (r, read), (t, take), (t, close)]
  }

  lemma {:induction false} RunFive(s: State, a: (Tid, Choice), b: (Tid, Choice), c: (Tid, Choice), d: (Tid, Choice), e: (Tid, Choice))
    ensures Run(s, [a, b, c, d, e])
         == Step(Step(Step(Step(Step(s, a.0, a.1), b.0, b.1), c.0, c.1), d.0, d.1), e.0, e.1)
  {
    hide Step;
    RunNone(s);
    RunMore(s, [], a.0, a.1);
    RunMore(s, [a], b.0, b.1);
    RunMore(s, [a, b], c.0, c.1);
    RunMore(s, [a, b, c], d.0, d.1);
    RunMore(s, [a, b, c, d], e.0, e.1);
    assert [] + [a] == [a] && [a] + [b] == [a, b] && [a, b] + [c] == [a, b, c] && [a, b, c] + [d] == [a, b, c, d];
    assert [a, b, c, d] + [e] == [a, b, c, d, e];
  }

  lemma {:induction false} WriteRound(s: State, t: Tid, id: int, rpc: Rpc, write: Choice)
    requires Inv(s) && t in s.threads && s.threads[t] == Registered(id, rpc) && s.proc.Some? && write.ok
    ensures Step(s, t, write) == s.(threads := s.threads[t := Waiting(id, rpc)], trace := s.trace + [Sent(id, s.proc.value)])
    ensures s.pending == [id]
  {
    assert PcOk(s.threads[t], s.nextId, s.slots);
  }

  lemma {:induction false} ReadRound(s: State, r: Tid, p: nat, m: Message, read: Choice)
    requires r in s.threads && s.threads[r] == Reading(p) && m.process == p && m.id.Some? && m.id.value in s.pending
    requires read.line == Json(m.id, m.hasMethod, m.eof, m.body) && (m.id.value in s.slots ==> s.slots[m.id.value] == [])
    ensures Step(Step(s, r, read), r, read) == s.(slots := s.slots[m.id.value := [Msg(m)]])
  {
    assert s.threads[r := Found(p, m.id.value, m)][r := Reading(p)] == s.threads;
  }

  /** The round trip of a request: with a live server and a reader that is free, the object with its id that the reader
      reads is what the request takes; the request then is no longer pending, and it has succeeded exactly when the
      object neither is an error nor has an `__eof__` key. */
  lemma {:induction false} RequestRound(s: State, t: Tid, r: Tid, id: int, rpc: Rpc, p: nat, m: Message,
                                        write: Choice, read: Choice, take: Choice, close: Choice)
    requires Inv(s) && t in s.threads && s.threads[t] == Registered(id, rpc) && s.proc.Some? && id in s.slots && s.slots[id] == []
    requires r in s.threads && r != t && s.threads[r] == Reading(p)
    requires m.id == Some(id) && m.process == p && read.line == Json(m.id, m.hasMethod, m.eof, m.body)
    requires write.ok && !take.timeout
    ensures var u := Run(s, Round(t, r, write, read, take, close));
            && u.trace == s.trace + [Sent(id, s.proc.value)] + [if m.eof then RequestExited(id, Msg(m)) else Answered(id, Msg(m))]
            && id !in u.pending
            && u.threads == s.threads[t := Returned(rpc, !m.eof && close.ok)]
            && u.lock == s.lock && u.proc == s.proc && u.notifications == s.notifications && u.nextId == s.nextId
  {
    hide Inv, Run;
    RunFive(s, (t, write), (r, read), (r, read), (t, take), (t, close));
    WriteRound(s, t, id, rpc, write);
    var w := Step(s, t, write);
    hide Step;
    ReadRound(w, r, p, m, read);
    var v := Step(Step(w, r, read), r, read);
    TakeClose(v, t, id, rpc, m, take, close);
    assert s.threads[t := Waiting(id, rpc)][t := Returned(rpc, !m.eof && close.ok)] == s.threads[t := Returned(rpc, !m.eof && close.ok)];
  }

  lemma {:induction false} TakeClose(v: State, t: Tid, id: int, rpc: Rpc, m: Message, take: Choice, close: Choice)
    requires t in v.threads && v.threads[t] == Waiting(id, rpc) && id in v.slots && v.slots[id] == [Msg(m)] && v.pending == [id]
    requires !take.timeout
    ensures var u := Step(Step(v, t, take), t, close);
            && u.trace == v.trace + [if m.eof then RequestExited(id, Msg(m)) else Answered(id, Msg(m))]
            && u.pending == [] && u.threads == v.threads[t := Returned(rpc, !m.eof && close.ok)]
            && u.lock == v.lock && u.proc == v.proc && u.notifications == v.notifications && u.nextId == v.nextId
  {
    WithoutOnly(id);
    var g := Step(v, t, take);
    assert g.threads == v.threads[t := Got(id, rpc, Msg(m))];
    assert g.threads[t := Returned(rpc, !m.eof && close.ok)] == v.threads[t := Returned(rpc, !m.eof && close.ok)];
  }

  /** A request whose time-out comes first, or that cannot be written, is closed all the same and has failed. */
  lemma {:induction false} TimedOutRound(s: State, t: Tid, id: int, rpc: Rpc, write: Choice, take: Choice, close: Choice)
    requires Inv(s) && t in s.threads && s.threads[t] == Registered(id, rpc) && s.proc.Some? && write.ok && take.timeout
    ensures var u := Step(Step(Step(s, t, write), t, take), t, close);
            && u.trace == s.trace + [Sent(id, s.proc.value)] && u.pending == []
            && u.threads == s.threads[t := Returned(rpc, false)] && u.slots == s.slots
    ensures var v := Step(Step(s, t, write.(ok := false)), t, close);
            v.trace == s.trace && v.pending == [] && v.threads == s.threads[t := Returned(rpc, false)]
  {
    WriteRound(s, t, id, rpc, write);
    WithoutOnly(id);
    assert s.threads[t := Waiting(id, rpc)][t := Failed(id, rpc)][t := Returned(rpc, false)] == s.threads[t := Returned(rpc, false)];
    assert s.threads[t := Failed(id, rpc)][t := Returned(rpc, false)] == s.threads[t := Returned(rpc, false)];
  }

  /** A failed `initialize` or `turn/start` stops the server, a failed `thread/start` does not. */
  lemma {:induction false} FailedRequestStops(s: State, t: Tid, rpc: Rpc, c: Choice)
    requires t in s.threads && s.threads[t] == Returned(rpc, false)
    ensures Step(s, t, c) == s.(threads := s.threads[t := if rpc == ThreadStart then Leaving else Stopping(Leave)])
  {
  }

  /** A launch makes a new server process, the current one, with a reader thread of its own, and asks it to initialize. */
  lemma {:induction false} LaunchStartsServer(s: State, t: Tid, c: Choice)
    requires t in s.threads && s.threads[t] == Launching && c.ok && c.spawn !in s.threads
    ensures var u, v := Step(s, t, c), Step(Step(s, t, c), c.spawn, c);
            && u.proc == Some(u.processes) && u.processes == s.processes + 1
            && u.threads == s.threads[t := Requesting(Initialize)][c.spawn := Starting]
            && v.threads == s.threads[t := Requesting(Initialize)][c.spawn := Reading(u.processes)]
  {
  }

  // ---------- a whole turn ----------

  lemma {:induction false} RunThen(s: State, a: Schedule, t: Tid, c: Choice)
    ensures Run(s, a + [(t, c)]) == Step(Run(s, a), t, c)
  {
    RunMore(s, a, t, c);
  }

  lemma {:induction false} DrainAll(s: State, t: Tid, c: Choice) returns (schedule: Schedule)
    requires t in s.threads && s.threads[t] == Draining
    ensures Run(s, schedule) == s.(notifications := [])
    decreases |s.notifications|
  {
    if s.notifications == [] {
      RunNone(s);
      schedule := [];
    } else {
      var u := Step(s, t, c);
      assert u == s.(notifications := s.notifications[1..]);
      var rest := DrainAll(u, t, c);
      RunNone(s);
      RunMore(s, [], t, c);
      RunAppend(s, [(t, c)], rest);
      assert [] + [(t, c)] == [(t, c)];
      schedule := [(t, c)] + rest;
    }
  }

  lemma {:induction false} EntersTurn(s: State, t: Tid, c: Choice)
    requires t in s.threads && s.threads[t] == Wants(Turn) && s.lock.None? && c.ok
    ensures Step(Step(s, t, c), t, c) == s.(threads := s.threads[t := Draining], lock := Some(t))
  {
    var a := Step(s, t, c);
    assert a == s.(threads := s.threads[t := Inside(Turn)], lock := Some(t));
    assert s.threads[t := Inside(Turn)][t := Draining] == s.threads[t := Draining];
  }

  lemma {:induction false} RegistersTurn(s: State, t: Tid, c: Choice)
    requires t in s.threads && s.threads[t] == Draining && s.notifications == [] && s.proc.Some? && c.ok
    ensures var u, id := Step(Step(Step(s, t, c), t, c), t, c), s.nextId + 1;
            && u.threads == s.threads[t := Registered(id, TurnStart)] && u.lock == s.lock && u.proc == s.proc
            && u.notifications == [] && u.nextId == id && u.trace == s.trace && id in u.slots && u.slots[id] == []
  {
    var id := s.nextId + 1;
    var a := Step(s, t, c);
    assert a.threads == s.threads[t := Requesting(TurnStart)];
    var b := Step(a, t, c);
    assert b.threads == s.threads[t := Allocated(id, TurnStart)];
  }

  /** From outside the lock to the drained queue, and on to a registered `turn/start` */
  lemma {:induction false} OpenTurn(s: State, t: Tid, c: Choice) returns (schedule: Schedule)
    requires t in s.threads && s.threads[t] == Wants(Turn) && s.lock.None? && s.proc.Some? && c.ok
    ensures var u, id := Run(s, schedule), s.nextId + 1;
            && u.threads == s.threads[t := Registered(id, TurnStart)] && u.lock == Some(t) && u.proc == s.proc
            && u.notifications == [] && u.nextId == id && u.trace == s.trace && id in u.slots && u.slots[id] == []
  {
    hide Step, Run;
    EntersTurn(s, t, c);
    var b := s.(threads := s.threads[t := Draining], lock := Some(t));
    var drain := DrainAll(b, t, c);
    var d := b.(notifications := []);
    RegistersTurn(d, t, c);
    assert s.threads[t := Draining][t := Registered(s.nextId + 1, TurnStart)] == s.threads[t := Registered(s.nextId + 1, TurnStart)];
    var one: Schedule := [(t, c)];
    RunOne(s, t, c);
    RunThen(s, one, t, c);
    var drained := one + one + drain;
    RunAppend(s, one + one, drain);
    assert Run(s, drained) == d;
    RunThen(s, drained, t, c);
    RunThen(s, drained + one, t, c);
    RunThen(s, drained + one + one, t, c);
    schedule := drained + one + one + one;
  }

  lemma {:induction false} StartsAwaiting(s: State, t: Tid, c: Choice)
    requires t in s.threads && s.threads[t] == Returned(TurnStart, true) && c.ok
    ensures Step(s, t, c) == s.(threads := s.threads[t := Awaiting])
  {
  }

  /** An object that answers no pending request goes among the notifications if it has a method. */
  lemma {:induction false} PostsNote(s: State, r: Tid, p: nat, m: Message, read: Choice)
    requires r in s.threads && s.threads[r] == Reading(p) && m.process == p && m.hasMethod
    requires read.line == Json(m.id, m.hasMethod, m.eof, m.body) && (m.id.Some? ==> m.id.value !in s.pending)
    ensures Step(Step(s, r, read), r, read) == s.(notifications := s.notifications + [Msg(m)])
  {
    assert s.threads[r := Posting(p, m)][r := Reading(p)] == s.threads;
  }

  lemma {:induction false} LeavesTurn(s: State, t: Tid, done: Choice, go: Choice)
    requires t in s.threads && s.threads[t] == Awaiting && |s.notifications| == 1 && s.notifications[0].Msg? && !s.notifications[0].m.eof
    requires !done.timeout && done.verdict == Complete
    ensures var u := Step(Step(s, t, done), t, go);
            u == s.(threads := s.threads[t := Idle], notifications := [], lock := None)
  {
    var d := Step(s, t, done);
    assert d == s.(threads := s.threads[t := Leaving], notifications := s.notifications[1..]);
    assert s.notifications[1..] == [];
    assert s.threads[t := Leaving][t := Idle] == s.threads[t := Idle];
  }

  /** From the reply to `turn/start` to the end: the reader reads one more message, which completes the turn. */
  lemma {:induction false} CompleteTurn(s: State, t: Tid, r: Tid, p: nat, go: Choice, read: Choice, done: Choice)
    returns (schedule: Schedule)
    requires t in s.threads && s.threads[t] == Returned(TurnStart, true) && s.notifications == []
    requires r in s.threads && r != t && s.threads[r] == Reading(p) && read.line == Json(None, true, false, 0)
    requires go.ok && !done.timeout && done.verdict == Complete
    ensures var u := Run(s, schedule);
            u.threads == s.threads[t := Idle] && u.lock == None && u.proc == s.proc && u.trace == s.trace && u.notifications == []
  {
    StartsAwaiting(s, t, go);
    var a := s.(threads := s.threads[t := Awaiting]);
    var note := Message(None, true, false, 0, p);
    PostsNote(a, r, p, note, read);
    var c := a.(notifications := [Msg(note)]);
    assert [] + [Msg(note)] == [Msg(note)];
    LeavesTurn(c, t, done, go);
    assert s.threads[t := Awaiting][t := Idle] == s.threads[t := Idle];
    hide Step;
    RunFive(s, (t, go), (r, read), (r, read), (t, done), (t, go));
    schedule := [(t, go), (r, read), (r, read), (t, done), (t, go)];
  }

  /** Every caller that is about to take the free lock for a turn can have it completed by a live server whose reader is
      free: the reply with the id of its `turn/start` is given to it, the turn ends, and the lock is free again. */
  lemma {:induction false} TurnCanComplete(s: State, t: Tid, r: Tid, p: nat, m: Message) returns (schedule: Schedule)
    requires Inv(s) && t in s.threads && s.threads[t] == Wants(Turn) && s.lock.None? && s.proc.Some?
    requires r in s.threads && r != t && s.threads[r] == Reading(p)
    requires m.id == Some(s.nextId + 1) && m.process == p && !m.eof
    ensures var u, id := Run(s, schedule), s.nextId + 1;
            && u.trace == s.trace + [Sent(id, s.proc.value)] + [Answered(id, Msg(m))]
            && u.threads == s.threads[t := Idle] && u.lock == None && u.proc == s.proc
  {
    hide Inv, Step, Run;
    var id := s.nextId + 1;
    var go := Choice(Turn, true, false, Json(m.id, m.hasMethod, m.eof, m.body), Complete, 0);
    var note := go.(line := Json(None, true, false, 0));
    var open := OpenTurn(s, t, go);
    RunKeeps(s, open);
    var u := Run(s, open);
    RequestRound(u, t, r, id, TurnStart, p, m, go, go, go, go);
    var round := Round(t, r, go, go, go, go);
    RunAppend(s, open, round);
    var v := Run(u, round);
    var complete := CompleteTurn(v, t, r, p, go, note, go);
    RunAppend(s, open + round, complete);
    schedule := open + round + complete;
    assert s.threads[t := Registered(id, TurnStart)][t := Returned(TurnStart, true)][t := Idle] == s.threads[t := Idle];
  }

  // ---------- the operations ----------

  /** What each entry point does once it has the lock. A live server in the right workspace is kept, any other is stopped
      and started anew; a thread or turn is asked for only where there is a live server; a shutdown stops the server. */
  lemma {:induction false} OperationsStart(s: State, t: Tid, op: Op, c: Choice)
    requires t in s.threads && s.threads[t] == Wants(op) && s.lock.None?
    ensures var u := Step(Step(s, t, c), t, c);
            && u.lock == Some(t) && u.proc == s.proc && u.pending == s.pending && u.notifications == s.notifications
            && u.threads == s.threads[t :=
                            if op == Peek then Leaving
                            else if op == Shutdown then Stopping(Leave)
                            else if op == Ensure then if c.ok then Leaving else Stopping(Restart)
                            else if !c.ok then Leaving
                            else if op == Thread then Requesting(ThreadStart)
                            else Draining]
  {
    var a := Step(s, t, c);
    assert a.threads == s.threads[t := Inside(op)];
  }

  /** A caller blocked at the lock stays where it is, and so does a reader. */
  lemma {:induction false} LockBlocks(s: State, t: Tid, c: Choice)
    requires t in s.threads && s.lock.Some?
    requires var pc := s.threads[t]; pc.Wants? || pc.NoiseWants? || pc.EndWants?
    ensures Step(s, t, c) == s
  {
  }

  /** Whoever leaves frees the lock; a reader goes on reading after a noise line and is done after the end of its stream. */
  lemma {:induction false} LeavingFrees(s: State, t: Tid, c: Choice)
    requires t in s.threads && (s.threads[t].Leaving? || s.threads[t].NoiseInside? || s.threads[t].EndLeaving?)
    ensures var pc := s.threads[t];
            Step(s, t, c) == s.(lock := None, threads := s.threads[t :=
            if pc.Leaving? then Idle else if pc.EndLeaving? then Done else Reading(pc.process)])
  {
  }

  /** A shutdown leaves no server, no pending request and a free lock. */
  lemma {:induction false} ShutdownStops(s: State, t: Tid, c: Choice) returns (schedule: Schedule)
    requires Inv(s) && t in s.threads && s.threads[t] == Wants(Shutdown) && s.lock.None?
    ensures var u := Run(s, schedule);
            u.proc.None? && u.lock.None? && u.pending == [] && u.notifications == s.notifications + [Marker] && u.threads == s.threads[t := Idle]
  {
    hide Step, Run, Inv;
    var one: Schedule := [(t, c)];
    RunOne(s, t, c);
    RunThen(s, one, t, c);
    var two := one + [(t, c)];
    RunKeeps(s, two);
    OperationsStart(s, t, Shutdown, c);
    StopForgetsServer(Run(s, two), t, Leave, c);
    RunThen(s, two, t, c);
    RunThen(s, two + [(t, c)], t, c);
    RunThen(s, two + [(t, c)] + [(t, c)], t, c);
    var stopped := two + [(t, c)] + [(t, c)] + [(t, c)];
    LeavingFrees(Run(s, stopped), t, c);
    RunThen(s, stopped, t, c);
    schedule := stopped + [(t, c)];
    assert s.threads[t := Stopping(Leave)][t := Leaving][t := Idle] == s.threads[t := Idle];
  }

  lemma {:induction false} RunOne(s: State, t: Tid, c: Choice)
    ensures Run(s, [(t, c)]) == Step(s, t, c)
  {
    RunNone(s);
    RunThen(s, [], t, c);
    assert [] + [(t, c)] == [(t, c)];
  }

  // ---------- stopping ----------

  /** Stopping a server forgets it, clears the table and announces the end of the stream, whoever asked for it. */
  lemma {:induction false} StopForgetsServer(s: State, t: Tid, after: After, c: Choice)
    requires Inv(s) && t in s.threads && s.threads[t] == Stopping(after)
    ensures var u := Step(Step(Step(s, t, c), t, c), t, c);
            && u.proc.None? && u.pending == [] && u.notifications == s.notifications + [Marker]
            && u.threads == s.threads[t := if after == Restart then Launching else if after == Leave then Leaving else EndLeaving]
  {
    CopyIsEmpty(s, t);
    var a := Step(s, t, c);
    assert a.threads == s.threads[t := Copying(after)];
    var b := Step(a, t, c);
    assert b.threads == s.threads[t := Marking([], after)];
  }

  lemma {:induction false} CopyIsEmpty(s: State, t: Tid)
    requires Inv(s) && t in s.threads && s.threads[t].Stopping?
    ensures s.pending == []
  {
    assert Locked(s.threads[t]);
  }

  /** Closing a request takes its id out of the table and no other. */
  lemma {:induction false} WithoutIs(s: seq<int>, x: int)
    ensures forall y :: y in Without(s, x) <==> y in s && y != x
  {
    if s != [] {
      assert s == [s[0]] + s[1..];
      WithoutIs(s[1..], x);
    }
  }
}
