/** The shared fields of the app-server client, updated in place by the blocks of code that run between
    two waits (src/flow_healer/codex_app_server_connector.py). Each method is proved to do exactly what the
    step machine of `AppServer` does at the same place. */
module Connector {
  import opened Wrappers
  import opened AppServer

  /** One more step of the same thread */
  ghost function Extend(s: State, steps: Schedule, t: Tid, c: Choice): (r: Schedule)
    ensures Run(s, r) == Step(Run(s, steps), t, c)
    ensures |r| == |steps| + 1 && r[..|steps|] == steps && r[|steps|] == (t, c)
  {
    var r := steps + [(t, c)];
    assert r[..|r| - 1] == steps;
    r
  }

  ghost function Start(s: State, t: Tid, c: Choice): (r: Schedule)
    ensures Run(s, r) == Step(s, t, c) && r == [(t, c)]
  {
    var r := [(t, c)];
    assert r[..|r| - 1] == [];
    r
  }

  lemma {:induction false} CopyStep(s: State, t: Tid, after: After, c: Choice)
    requires t in s.threads && s.threads[t] == Copying(after)
    ensures var u := Step(s, t, c);
            && t in u.threads && u.threads[t] == Marking(s.pending, after) && u.pending == [] && u.proc == s.proc
            && u.slots == s.slots && u.notifications == s.notifications && u.nextId == s.nextId
  {
  }

  lemma {:induction false} MarkStep(s: State, t: Tid, queues: seq<int>, after: After, c: Choice)
    requires t in s.threads && s.threads[t] == Marking(queues, after)
    requires queues != [] ==> queues[0] in s.slots ==> s.slots[queues[0]] == []
    ensures var u := Step(s, t, c);
            && t in u.threads && u.pending == s.pending && u.nextId == s.nextId && u.proc == s.proc
            && (queues == [] ==> u.slots == s.slots && u.notifications == s.notifications + [Marker])
            && (queues != [] ==> u.slots == s.slots[queues[0] := [Marker]] && u.notifications == s.notifications
                                 && u.threads[t] == Marking(queues[1..], after))
  {
  }

  /** The response queues after a marker has been put into each of the given ones */
  ghost function Marked(slots: map<int, seq<Item>>, queues: seq<int>): map<int, seq<Item>>
  {
    if queues == [] then slots else Marked(slots, queues[..|queues| - 1])[queues[|queues| - 1] := [Marker]]
  }

  lemma {:induction false} MarkedAt(slots: map<int, seq<Item>>, queues: seq<int>, id: int)
    ensures id in queues ==> id in Marked(slots, queues) && Marked(slots, queues)[id] == [Marker]
    ensures id !in queues && id in Marked(slots, queues) ==> id in slots && Marked(slots, queues)[id] == slots[id]
  {
    if queues != [] {
      var n := |queues| - 1;
      assert queues == queues[..n] + [queues[n]];
      MarkedAt(slots, queues[..n], id);
    }
  }

  lemma {:induction false} NoneMarked(slots: map<int, seq<Item>>)
    ensures Marked(slots, []) == slots
  {
  }

  /** Distinct queues: the next one still has room. */
  lemma {:induction false} MarkedNext(slots: map<int, seq<Item>>, queues: seq<int>, i: nat)
    requires i < |queues| && forall k, j | 0 <= k < j < |queues| :: queues[k] != queues[j]
    requires queues[i] in slots ==> slots[queues[i]] == []
    ensures queues[i] in Marked(slots, queues[..i]) ==> Marked(slots, queues[..i])[queues[i]] == []
    ensures Marked(slots, queues[..i + 1]) == Marked(slots, queues[..i])[queues[i] := [Marker]]
  {
    MarkedAt(slots, queues[..i], queues[i]);
    assert queues[..i + 1][..i] == queues[..i];
  }

  /** A response queue holds one item; a put into a full one waits. */
  predicate HasRoom(slots: map<int, seq<Item>>, id: int) { id in slots ==> slots[id] == [] }

  /** The two machine steps of a reader with one JSON object */
  lemma {:induction false} DeliverSteps(s: State, t: Tid, c: Choice, m: Message)
    requires t in s.threads && s.threads[t] == Reading(m.process) && c.line == Json(m.id, m.hasMethod, m.eof, m.body)
    ensures var u := Step(s, t, c);
            var v := if u == s then s else Step(u, t, c);
            && v.pending == s.pending && v.nextId == s.nextId && v.proc == s.proc
            && v.slots == (if m.id.Some? && m.id.value in s.pending && HasRoom(s.slots, m.id.value) then s.slots[m.id.value := [Msg(m)]] else s.slots)
            && v.notifications == if !(m.id.Some? && m.id.value in s.pending) && m.hasMethod then s.notifications + [Msg(m)] else s.notifications
  {
    var u := Step(s, t, c);
    if u != s { assert u.threads[t] != s.threads[t]; }
  }

  class CodexAppServerConnector {
    var pending: seq<int>
    var slots: map<int, seq<Item>>
    var notifications: seq<Item>
    var nextId: nat
    var proc: Option<nat>

    constructor ()
      ensures forall callers :: Matches(Init(callers))
    {
      pending, slots, notifications, nextId, proc := [], map[], [], 0, None;
    }

    /** The object holds the shared fields of a machine state. */
    ghost predicate Matches(s: State)
      reads this
    {
      && pending == s.pending && slots == s.slots && notifications == s.notifications && nextId == s.nextId
      && proc == s.proc
    }

    /** The head of `_rpc_request_locked`: without a server, or with one that has exited, it raises and no id is used
        up; else a new id and a new response queue, registered. `alive` is what polling the process says. */
    method OpenRequest(alive: bool, ghost s: State, ghost t: Tid, ghost rpc: Rpc, ghost c: Choice) returns (id: Option<int>)
      requires Matches(s) && t in s.threads && s.threads[t] == Requesting(rpc) && c.ok == alive
      modifies this
      ensures id.Some? <==> old(proc).Some? && alive
      ensures id.None? ==> Matches(Step(s, t, c)) && Step(s, t, c).threads[t] == Returned(rpc, false) && nextId == old(nextId)
      ensures id.Some? ==>
                && id.value == nextId > old(nextId) && id.value in pending && id.value in slots && slots[id.value] == []
                && Matches(Step(Step(s, t, c), t, c))
                && Step(Step(s, t, c), t, c).threads[t] == Registered(id.value, rpc)
    {
      if proc.None? || !alive { return None; }
      nextId := nextId + 1;
      slots := slots[nextId := []];
      pending := pending + [nextId];
      id := Some(nextId);
    }

    /** The `finally` of `_rpc_request_locked` */
    method CloseRequest(id: int, ghost s: State, ghost t: Tid, ghost c: Choice)
      requires Matches(s) && t in s.threads && (s.threads[t].Got? || s.threads[t].Failed?) && s.threads[t].id == id
      modifies this
      ensures Matches(Step(s, t, c))
    {
      pending := Without(pending, id);
    }

    /** `_notify_eof_locked`. The response queues of the copied requests have room for the marker. */
    method NotifyEof(ghost s: State, ghost t: Tid, ghost after: After, ghost c: Choice) returns (ghost steps: Schedule)
      requires Matches(s) && t in s.threads && s.threads[t] == Copying(after)
      requires forall id | id in pending :: id in slots ==> slots[id] == []
      requires forall i, j | 0 <= i < j < |pending| :: pending[i] != pending[j]
      modifies this
      ensures Matches(Run(s, steps)) && forall i | 0 <= i < |steps| :: steps[i] == (t, c)
      ensures pending == [] && notifications == old(notifications) + [Marker]
      ensures forall id | id in old(pending) :: id in slots && slots[id] == [Marker]
    {
      hide Run, Step, Marked;
      var queues := pending;
      ghost var before := slots;
      forall k | 0 <= k < |queues| ensures queues[k] in before ==> before[queues[k]] == [] {
        var id := pending[k];
        assert id in pending;
        assert id in slots ==> slots[id] == [];
      }
      pending := [];
      steps := Start(s, t, c);
      CopyStep(s, t, after, c);
      assert queues[0..] == queues && queues[..0] == [];
      assert slots == Marked(before, []) by { NoneMarked(before); }
      var i := 0;
      while i < |queues|
        invariant 0 <= i <= |queues|
        invariant Matches(Run(s, steps)) && t in Run(s, steps).threads
        invariant Run(s, steps).threads[t] == Marking(queues[i..], after)
        invariant forall k | 0 <= k < |steps| :: steps[k] == (t, c)
        invariant pending == [] && notifications == old(notifications) && slots == Marked(before, queues[..i])
      {
        MarkedNext(before, queues, i);
        MarkStep(Run(s, steps), t, queues[i..], after, c);
        assert queues[i..][1..] == queues[i + 1..];
        slots := slots[queues[i] := [Marker]];
        steps := Extend(s, steps, t, c);
        i := i + 1;
      }
      assert queues[..i] == queues;
      forall id | id in queues ensures id in slots && slots[id] == [Marker] { MarkedAt(before, queues, id); }
      MarkStep(Run(s, steps), t, [], after, c) by { assert queues[i..] == []; }
      notifications := notifications + [Marker];
      steps := Extend(s, steps, t, c);
    }

    /** `_drain_notifications_locked`: as many machine steps as there were notifications, then the turn goes on */
    method DrainNotifications(ghost s: State, ghost t: Tid, ghost c: Choice) returns (ghost steps: Schedule)
      requires Matches(s) && t in s.threads && s.threads[t] == Draining
      modifies this
      ensures notifications == [] && Matches(Run(s, steps)) && Run(s, steps).threads == s.threads
      ensures |steps| == |old(notifications)| && forall i | 0 <= i < |steps| :: steps[i] == (t, c)
    {
      steps := [];
      while notifications != []
        invariant Matches(Run(s, steps)) && Run(s, steps).threads == s.threads
        invariant |steps| + |notifications| == |old(notifications)|
        invariant forall i | 0 <= i < |steps| :: steps[i] == (t, c)
        decreases |notifications|
      {
        notifications := notifications[1..];
        steps := Extend(s, steps, t, c);
      }
    }

    /** What `_stdout_reader` does with one JSON object: into the response queue of a pending request, or
        among the notifications, or dropped. While the response queue is full, the put waits and nothing changes. */
    method Deliver(id: Option<int>, hasMethod: bool, eof: bool, body: nat, process: nat, ghost s: State, ghost t: Tid, ghost c: Choice)
      returns (waits: bool)
      requires Matches(s) && t in s.threads && s.threads[t] == Reading(process)
      requires c.line == Json(id, hasMethod, eof, body)
      modifies this
      ensures waits <==> id.Some? && id.value in pending && !HasRoom(old(slots), id.value)
      ensures waits ==> slots == old(slots) && notifications == old(notifications)
      ensures var u := Step(s, t, c); Matches(if u == s then s else Step(u, t, c))
      ensures id.Some? && id.value in old(pending) ==> notifications == old(notifications)
    {
      hide Step;
      var m := Message(id, hasMethod, eof, body, process);
      DeliverSteps(s, t, c, m);
      waits := false;
      if id.Some? && id.value in pending {
        if !HasRoom(slots, id.value) { return true; }
        slots := slots[id.value := [Msg(m)]];
      } else if hasMethod {
        notifications := notifications + [Msg(m)];
      }
    }
  }
}
