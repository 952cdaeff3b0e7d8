/** What holding the lock while waiting costs the app-server client
    (src/flow_healer/codex_app_server_connector.py): a state that only the caller's own time-out ends, and how a
    run gets there. */
module AppServerStuck {
  import opened Wrappers
  import opened AppServer

  // ---------- what the lock costs ----------

  /** The thread can do nothing while another thread holds the lock. */
  predicate Parked(pc: Pc) { pc.Idle? || pc.Wants? || pc.NoiseWants? || pc.EndWants? || pc.Done? }

  /** The thread waits for its response, or for a notification, and none has arrived. */
  predicate Waits(s: State, t: Tid)
  {
    t in s.threads &&
    ((s.threads[t].Waiting? && (s.threads[t].id in s.slots ==> s.slots[s.threads[t].id] == []))
     || (s.threads[t].Awaiting? && s.notifications == []))
  }

  /** `t` waits for its response or for a notification with the lock in hand, nothing has arrived, and every
      other thread, readers included, is at the lock or has ended. */
  ghost predicate Stuck(s: State, t: Tid)
  {
    && s.lock == Some(t) && Waits(s, t)
    && forall r | r in s.threads && r != t :: Parked(s.threads[r])
  }

  lemma {:induction false} StuckStep(s: State, t: Tid, r: Tid, c: Choice)
    requires Stuck(s, t) && (r == t ==> !c.timeout)
    ensures Stuck(Step(s, r, c), t) && Step(s, r, c).threads[t] == s.threads[t]
  {
    if r in s.threads && r != t {
      assert Parked(s.threads[r]);
    }
  }

  /** Once every reader has met a noise line or the end of its stream while a caller waits, nothing but that
      caller's time-out can happen: neither a response nor the death of the server reaches it. */
  lemma {:induction false} StuckUntilTimeout(s: State, t: Tid, schedule: Schedule)
    requires Stuck(s, t)
    requires forall i | 0 <= i < |schedule| && schedule[i].0 == t :: !schedule[i].1.timeout
    ensures Stuck(Run(s, schedule), t) && Run(s, schedule).threads[t] == s.threads[t]
  {
    hide Step, Stuck;
    if schedule != [] {
      var before := schedule[..|schedule| - 1];
      var last := schedule[|schedule| - 1];
      StuckUntilTimeout(s, t, before);
      StuckStep(Run(s, before), t, last.0, last.1);
    }
  }

  /** One line that is not JSON, or the end of the stream, read by the only running reader, is enough. */
  lemma {:induction false} NoiseLineSticks(s: State, t: Tid, r: Tid, process: nat, c: Choice)
    requires Waits(s, t) && r in s.threads && r != t && s.lock == Some(t)
    requires s.threads[r] == Reading(process) && (c.line == Noise || c.line == EndOfStream)
    requires forall u | u in s.threads && u != t && u != r :: Parked(s.threads[u])
    ensures Stuck(Step(s, r, c), t)
  {
  }

  // ---------- a run that gets stuck ----------

  const GO := Choice(Ensure, true, false, Blank, Continue, 1)
  const FAIL := Choice(Ensure, false, false, Blank, Continue, 1)
  const NOISE := Choice(Ensure, true, false, Line.Noise, Continue, 1)

  /** The only thread is at `pc`, and nothing has been requested yet. */
  predicate Alone(s: State, pc: Pc)
  {
    s.threads == map[0 := pc] && (s.lock == if Locked(pc) then Some(0) else None) && s.pending == [] && s.slots == map[]
  }

  lemma {:induction false} AloneEnters(s: State, c: Choice)
    requires Alone(s, Idle) || Alone(s, Wants(Ensure)) || Alone(s, Inside(Ensure))
    requires c == GO || c == FAIL
    ensures Alone(s, Idle) ==> Alone(Step(s, 0, c), Wants(Ensure))
    ensures Alone(s, Wants(Ensure)) ==> Alone(Step(s, 0, c), Inside(Ensure))
    ensures Alone(s, Inside(Ensure)) && c == FAIL ==> Alone(Step(s, 0, c), Stopping(Restart))
  {
    var pc := s.threads[0];
    forall q ensures map[0 := pc][0 := q] == map[0 := q] {
    }
  }

  lemma {:induction false} AloneStops(s: State)
    requires Alone(s, Stopping(Restart)) || Alone(s, Copying(Restart)) || Alone(s, Marking([], Restart))
    ensures Alone(s, Stopping(Restart)) ==> Alone(Step(s, 0, GO), Copying(Restart))
    ensures Alone(s, Copying(Restart)) ==> Alone(Step(s, 0, GO), Marking([], Restart))
    ensures Alone(s, Marking([], Restart)) ==> Alone(Step(s, 0, GO), Launching)
  {
    var pc := s.threads[0];
    forall q ensures map[0 := pc][0 := q] == map[0 := q] {
    }
  }

  /** The caller is at `pc`, the reader it has started at `reader`. */
  predicate Pair(s: State, pc: Pc, reader: Pc)
  {
    && s.threads == map[0 := pc, 1 := reader] && s.lock == Some(0) && s.proc == Some(s.processes)
    && (forall id | id in s.slots :: s.slots[id] == [])
  }

  lemma {:induction false} LaunchPair(s: State)
    requires Alone(s, Launching)
    ensures Pair(Step(s, 0, GO), Requesting(Initialize), Starting)
  {
  }

  lemma {:induction false} PairRequests(s: State)
    requires Pair(s, Requesting(Initialize), Starting)
    ensures Pair(Step(s, 0, GO), Allocated(s.nextId + 1, Initialize), Starting)
  {
  }

  lemma {:induction false} PairRegisters(s: State, id: int)
    requires Pair(s, Allocated(id, Initialize), Starting)
    ensures Pair(Step(s, 0, GO), Registered(id, Initialize), Starting)
  {
  }

  lemma {:induction false} PairWrites(s: State, id: int)
    requires Pair(s, Registered(id, Initialize), Starting)
    ensures Pair(Step(s, 0, GO), Waiting(id, Initialize), Starting)
  {
  }

  lemma {:induction false} PairReads(s: State, id: int)
    requires Pair(s, Waiting(id, Initialize), Starting)
    ensures Pair(Step(s, 1, GO), Waiting(id, Initialize), Reading(s.processes))
  {
  }

  lemma {:induction false} PairSticks(s: State, id: int, process: nat)
    requires Pair(s, Waiting(id, Initialize), Reading(process))
    ensures Stuck(Step(s, 1, NOISE), 0)
  {
    NoiseLineSticks(s, 0, 1, process, NOISE);
  }

  lemma {:induction false} RunMore(s: State, schedule: Schedule, t: Tid, c: Choice)
    ensures Run(s, schedule + [(t, c)]) == Step(Run(s, schedule), t, c)
  {
    assert (schedule + [(t, c)])[..|schedule|] == schedule;
  }

  lemma {:induction false} RunAppend(s: State, a: Schedule, b: Schedule)
    ensures Run(s, a + b) == Run(Run(s, a), b)
  {
    hide Step;
    if b == [] {
      assert a + b == a;
    } else {
      var front := b[..|b| - 1];
      assert (a + b)[..|a + b| - 1] == a + front;
      RunAppend(s, a, front);
    }
  }

  /** From a fresh client: one caller starts the server, and the first line the server prints is not JSON. */
  function StuckSchedule(): Schedule
  {
    [(0, GO), (0, GO), (0, FAIL), (0, GO), (0, GO), (0, GO)]
    + [(0, GO), (0, GO), (0, GO), (0, GO), (1, GO), (1, NOISE)]
  }

  lemma {:induction false} LeadsToLaunch(s: State)
    requires s == Init({0})
    ensures Alone(Run(s, [(0, GO), (0, GO), (0, FAIL), (0, GO), (0, GO), (0, GO)]), Launching)
  {
    hide Step, Run, Alone;
    assert Alone(s, Idle) by { StartsAlone(s); }
    var p: Schedule := [];
    RunNone(s);
    RunMore(s, p, 0, GO); AloneEnters(Run(s, p), GO); p := p + [(0, GO)];
    RunMore(s, p, 0, GO); AloneEnters(Run(s, p), GO); p := p + [(0, GO)];
    RunMore(s, p, 0, FAIL); AloneEnters(Run(s, p), FAIL); p := p + [(0, FAIL)];
    RunMore(s, p, 0, GO); AloneStops(Run(s, p)); p := p + [(0, GO)];
    RunMore(s, p, 0, GO); AloneStops(Run(s, p)); p := p + [(0, GO)];
    RunMore(s, p, 0, GO); AloneStops(Run(s, p)); p := p + [(0, GO)];
    assert p == [(0, GO), (0, GO), (0, FAIL), (0, GO), (0, GO), (0, GO)];
  }

  lemma {:induction false} StartsAlone(s: State)
    requires s == Init({0})
    ensures Alone(s, Idle)
  {
  }

  lemma {:induction false} RunNone(s: State)
    ensures Run(s, []) == s
  {
  }

  lemma {:induction false} LaunchSticks(s: State)
    requires Alone(s, Launching)
    ensures Stuck(Run(s, [(0, GO), (0, GO), (0, GO), (0, GO), (1, GO), (1, NOISE)]), 0)
  {
    hide Step, Run, Alone, Stuck, Pair;
    var p: Schedule := [];
    RunNone(s);
    RunMore(s, p, 0, GO); LaunchPair(Run(s, p)); p := p + [(0, GO)];
    var id := Run(s, p).nextId + 1;
    RunMore(s, p, 0, GO); PairRequests(Run(s, p)); p := p + [(0, GO)];
    RunMore(s, p, 0, GO); PairRegisters(Run(s, p), id); p := p + [(0, GO)];
    RunMore(s, p, 0, GO); PairWrites(Run(s, p), id); p := p + [(0, GO)];
    var process := Run(s, p).processes;
    RunMore(s, p, 1, GO); PairReads(Run(s, p), id); p := p + [(1, GO)];
    RunMore(s, p, 1, NOISE); PairSticks(Run(s, p), id, process); p := p + [(1, NOISE)];
    assert p == [(0, GO), (0, GO), (0, GO), (0, GO), (1, GO), (1, NOISE)];
  }

  /** The stuck state is reachable: the first line that is not JSON during the start of a server leads there. */
  lemma {:induction false} StuckIsReachable()
    ensures Stuck(Run(Init({0}), StuckSchedule()), 0)
  {
    hide Run, Stuck, Alone;
    LeadsToLaunch(Init({0}));
    var a: Schedule := [(0, GO), (0, GO), (0, FAIL), (0, GO), (0, GO), (0, GO)];
    var b: Schedule := [(0, GO), (0, GO), (0, GO), (0, GO), (1, GO), (1, NOISE)];
    LaunchSticks(Run(Init({0}), a));
    RunAppend(Init({0}), a, b);
  }
}
