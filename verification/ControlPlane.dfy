/** At-most-once execution of operator commands (src/flow_healer/control_plane.py over the command records
    of src/flow_healer/store.py). Each repository has its own database; calls run one after another. */
module ControlPlane {
  import opened Wrappers
  import opened Text

  datatype Status = Received | Succeeded | Failed

  datatype Record = Record(id: nat, command: string, status: Status, error: string)

  datatype Key = Key(source: string, external: string)

  type Store = map<Key, Record>

  /** The command tables of all repositories; `nextId` stands for the random command ids, which never repeat. */
  datatype Books = Books(stores: map<string, Store>, nextId: nat)

  /** `failure` is what the dispatched action raises, if it does. */
  datatype Request = Request(command: string, repo: string, source: string, external: string, failure: Option<string>)

  datatype Reply = Refused(message: string) | Duplicate(repo: string) | Done(failure: Option<string>)

  function Cut(s: string, n: nat): string { if |s| <= n then s else s[..n] }

  function KeyOf(q: Request): Key
  {
    var source := Cut(Lower(Trim(if q.source == "" then "unknown" else q.source)), 40);
    Key(if source == "" then "unknown" else source, Cut(Trim(q.external), 200))
  }

  function Matching(repos: seq<string>, name: string): seq<string>
  {
    if repos == [] then []
    else
      var front, last := Matching(repos[..|repos| - 1], name), repos[|repos| - 1];
      if last == name then front + [last] else front
  }

  /** `_target_repos` */
  function Targets(repos: seq<string>, q: Request): seq<string>
  {
    if q.repo == "" then repos else Matching(repos, Trim(q.repo))
  }

  function StoreOf(b: Books, repo: string): Store { if repo in b.stores then b.stores[repo] else map[] }

  /** `create_control_command` */
  function Create(b: Books, repo: string, key: Key, command: string): Books
  {
    Books(b.stores[repo := StoreOf(b, repo)[key := Record(b.nextId, command, Received, "")]], b.nextId + 1)
  }

  /** The UPDATE of `update_control_command`: every record with the id */
  function Settle(s: Store, id: nat, status: Status, error: string): Store
  {
    map k | k in s :: if s[k].id == id then s[k].(status := status, error := error) else s[k]
  }

  function Update(b: Books, repo: string, id: nat, status: Status, error: string): Books
  {
    b.(stores := b.stores[repo := Settle(StoreOf(b, repo), id, status, error)])
  }

  /** How far the registration loop came: the ids it made, and the repository where it met a duplicate */
  datatype Registration = Registration(books: Books, ids: seq<(string, nat)>, duplicate: Option<string>)

  function Register(b: Books, key: Key, command: string, targets: seq<string>): Registration
  {
    if targets == [] then Registration(b, [], None)
    else
      var r, repo := Register(b, key, command, targets[..|targets| - 1]), targets[|targets| - 1];
      if r.duplicate.Some? then r
      else if key in StoreOf(r.books, repo) then r.(duplicate := Some(repo))
      else Registration(Create(r.books, repo, key, command), r.ids + [(repo, r.books.nextId)], None)
  }

  function SettleAll(b: Books, ids: seq<(string, nat)>, status: Status, error: string): Books
  {
    if ids == [] then b
    else
      var last := ids[|ids| - 1];
      Update(SettleAll(b, ids[..|ids| - 1], status, error), last.0, last.1, status, error)
  }

  const NO_ID := "external_id is required for command dedupe."
  const NO_REPOS := "No repositories configured for this command."
  const UNKNOWN := "Unknown repo."

  /** The status and error text that a dispatched command ends with */
  function EndStatus(q: Request): Status { if q.failure.Some? then Failed else Succeeded }

  function EndError(q: Request): string { Cut(q.failure.GetOr(""), 500) }

  datatype Executed = Executed(books: Books, reply: Reply)

  function Effect(b: Books, repos: seq<string>, q: Request): Executed
  {
    var key, targets := KeyOf(q), Targets(repos, q);
    if key.external == "" then Executed(b, Refused(NO_ID))
    else if targets == [] then Executed(b, Refused(if q.repo != "" then UNKNOWN else NO_REPOS))
    else
      var r := Register(b, key, q.command, targets);
      if r.duplicate.Some? then Executed(r.books, Duplicate(r.duplicate.value))
      else Executed(SettleAll(r.books, r.ids, EndStatus(q), EndError(q)), Done(q.failure))
  }

  // ---------- the class of the source ----------

  class ControlRouter {
    const repos: seq<string>
    var stores: map<string, Store>
    var nextId: nat

    constructor (repos: seq<string>)
      ensures this.repos == repos && Contents() == Books(map[], 0)
    {
      this.repos := repos;
      stores, nextId := map[], 0;
    }

    function Contents(): Books
      reads this
    {
      Books(stores, nextId)
    }

    predicate HasControlCommand(repo: string, key: Key)
      reads this
    {
      key in StoreOf(Contents(), repo)
    }

    method CreateControlCommand(repo: string, key: Key, command: string) returns (id: nat)
      modifies this
      ensures id == old(nextId) && Contents() == Create(old(Contents()), repo, key, command)
    {
      id := nextId;
      stores := stores[repo := StoreOf(Contents(), repo)[key := Record(id, command, Received, "")]];
      nextId := nextId + 1;
    }

    method UpdateControlCommand(repo: string, id: nat, status: Status, error: string)
      modifies this
      ensures Contents() == Update(old(Contents()), repo, id, status, error)
    {
      stores := stores[repo := Settle(StoreOf(Contents(), repo), id, status, error)];
    }

    /** `execute` */
    method Execute(q: Request) returns (reply: Reply)
      modifies this
      ensures Executed(Contents(), reply) == Effect(old(Contents()), repos, q)
    {
      hide KeyOf, Targets, Create, Update, Register, SettleAll;
      var key, targets := KeyOf(q), Targets(repos, q);
      if key.external == "" { return Refused(NO_ID); }
      if targets == [] { return Refused(if q.repo != "" then UNKNOWN else NO_REPOS); }
      var ids: seq<(string, nat)> := [];
      RegisterNone(Contents(), key, q.command);
      assert targets[..0] == [];
      for i := 0 to |targets|
        invariant Registration(Contents(), ids, None) == Register(old(Contents()), key, q.command, targets[..i])
      {
        RegisterStep(old(Contents()), key, q.command, targets, i);
        if HasControlCommand(targets[i], key) {
          RegisterStuck(old(Contents()), key, q.command, targets, i + 1);
          return Duplicate(targets[i]);
        }
        var id := CreateControlCommand(targets[i], key, q.command);
        ids := ids + [(targets[i], id)];
      }
      assert targets[..|targets|] == targets;
      ghost var registered := Contents();
      SettleNone(registered, EndStatus(q), EndError(q));
      assert ids[..0] == [];
      for i := 0 to |ids|
        invariant Contents() == SettleAll(registered, ids[..i], EndStatus(q), EndError(q))
      {
        SettleStep(registered, ids, EndStatus(q), EndError(q), i);
        UpdateControlCommand(ids[i].0, ids[i].1, EndStatus(q), EndError(q));
      }
      assert ids[..|ids|] == ids;
      reply := Done(q.failure);
    }
  }

  lemma {:induction false} RegisterNone(b: Books, key: Key, command: string)
    ensures Register(b, key, command, []) == Registration(b, [], None)
  {
  }

  lemma {:induction false} RegisterStep(b: Books, key: Key, command: string, targets: seq<string>, i: nat)
    requires i < |targets|
    ensures var r := Register(b, key, command, targets[..i]);
            Register(b, key, command, targets[..i + 1]) ==
            if r.duplicate.Some? then r
            else if key in StoreOf(r.books, targets[i]) then r.(duplicate := Some(targets[i]))
            else Registration(Create(r.books, targets[i], key, command), r.ids + [(targets[i], r.books.nextId)], None)
  {
    assert targets[..i + 1][..i] == targets[..i];
  }

  /** After a duplicate the loop does nothing more. */
  lemma {:induction false} RegisterStuck(b: Books, key: Key, command: string, targets: seq<string>, i: nat)
    requires i <= |targets| && Register(b, key, command, targets[..i]).duplicate.Some?
    ensures Register(b, key, command, targets) == Register(b, key, command, targets[..i])
    decreases |targets|
  {
    hide Create;
    if i < |targets| {
      var front := targets[..|targets| - 1];
      assert front[..i] == targets[..i];
      RegisterStuck(b, key, command, front, i);
    } else {
      assert targets[..i] == targets;
    }
  }

  lemma {:induction false} SettleNone(b: Books, status: Status, error: string)
    ensures SettleAll(b, [], status, error) == b
  {
  }

  lemma {:induction false} SettleStep(b: Books, ids: seq<(string, nat)>, status: Status, error: string, i: nat)
    requires i < |ids|
    ensures SettleAll(b, ids[..i + 1], status, error)
         == Update(SettleAll(b, ids[..i], status, error), ids[i].0, ids[i].1, status, error)
  {
    hide Update;
    assert ids[..i + 1][..i] == ids[..i];
  }

  // ---------- what one call does ----------

  /** Command ids are below the next one. */
  ghost predicate Fresh(b: Books)
  {
    forall repo, key | key in StoreOf(b, repo) :: StoreOf(b, repo)[key].id < b.nextId
  }

  function New(b: Books, i: nat, command: string, status: Status, error: string): Record
  {
    Record(b.nextId + i, command, status, error)
  }

  /** The first `n` targets, all different and without the key before, have got the record; nothing else changed. */
  ghost predicate Written(b: Books, after: Books, key: Key, command: string, targets: seq<string>, n: nat, status: Status, error: string)
    requires n <= |targets|
  {
    && after.nextId == b.nextId + n
    && (forall i | 0 <= i < n :: key !in StoreOf(b, targets[i])
                                 && StoreOf(after, targets[i]) == StoreOf(b, targets[i])[key := New(b, i, command, status, error)])
    && (forall i, j | 0 <= i < j < n :: targets[i] != targets[j])
    && (forall repo | repo !in targets[..n] :: StoreOf(after, repo) == StoreOf(b, repo))
  }

  /** The key is taken in the target, or the target was named before. */
  predicate Clash(b: Books, key: Key, targets: seq<string>, i: nat)
    requires i < |targets|
  {
    key in StoreOf(b, targets[i]) || targets[i] in targets[..i]
  }

  lemma {:induction false} WrittenStep(b: Books, after: Books, key: Key, command: string, targets: seq<string>, n: nat)
    requires n < |targets| && Written(b, after, key, command, targets, n, Received, "")
    ensures key in StoreOf(after, targets[n]) <==> Clash(b, key, targets, n)
    ensures !Clash(b, key, targets, n) ==>
              Written(b, Create(after, targets[n], key, command), key, command, targets, n + 1, Received, "")
  {
    var repo := targets[n];
    assert targets[..n + 1] == targets[..n] + [repo];
    if repo in targets[..n] {
      var i :| 0 <= i < n && targets[i] == repo;
      assert key in StoreOf(after, targets[i]);
    } else {
      assert StoreOf(after, repo) == StoreOf(b, repo);
      var more := Create(after, repo, key, command);
      forall other | other != repo ensures StoreOf(more, other) == StoreOf(after, other) {
      }
      assert StoreOf(more, repo) == StoreOf(b, repo)[key := New(b, n, command, Received, "")];
    }
  }

  /** Where the registration loop stops, and what it has written by then */
  ghost predicate Registered(b: Books, r: Registration, key: Key, command: string, targets: seq<string>, m: nat)
  {
    var n := |r.ids|;
    && n <= m <= |targets| && Written(b, r.books, key, command, targets, n, Received, "")
    && (forall i | 0 <= i < n :: r.ids[i] == (targets[i], b.nextId + i))
    && (forall i | 0 <= i < n :: !Clash(b, key, targets, i))
    && (if r.duplicate.Some? then n < m && r.duplicate.value == targets[n] && Clash(b, key, targets, n) else n == m)
  }

  lemma {:induction false} RegisteredStuck(b: Books, r: Registration, key: Key, command: string, targets: seq<string>, m: nat)
    requires m < |targets| && Registered(b, r, key, command, targets, m) && r.duplicate.Some?
    ensures Registered(b, r, key, command, targets, m + 1)
  {
    hide Written, Clash;
  }

  lemma {:induction false} RegisteredClash(b: Books, r: Registration, key: Key, command: string, targets: seq<string>, m: nat)
    requires m < |targets| && Registered(b, r, key, command, targets, m) && r.duplicate.None?
    requires key in StoreOf(r.books, targets[m])
    ensures Registered(b, r.(duplicate := Some(targets[m])), key, command, targets, m + 1)
  {
    hide Written, Clash, StoreOf;
    WrittenStep(b, r.books, key, command, targets, m);
  }

  lemma {:induction false} RegisteredMore(b: Books, r: Registration, key: Key, command: string, targets: seq<string>, m: nat)
    requires m < |targets| && Registered(b, r, key, command, targets, m) && r.duplicate.None?
    requires key !in StoreOf(r.books, targets[m])
    ensures var more := Registration(Create(r.books, targets[m], key, command), r.ids + [(targets[m], r.books.nextId)], None);
            Registered(b, more, key, command, targets, m + 1)
  {
    assert r.books.nextId == b.nextId + m;
    hide Written, Clash, StoreOf, Create;
    WrittenStep(b, r.books, key, command, targets, m);
  }

  lemma {:induction false} RegisteredNone(b: Books, key: Key, command: string, targets: seq<string>)
    ensures Registered(b, Register(b, key, command, []), key, command, targets, 0)
  {
    hide StoreOf, Clash;
  }

  lemma {:induction false} RegisterIs(b: Books, key: Key, command: string, targets: seq<string>, m: nat)
    requires m <= |targets|
    ensures Registered(b, Register(b, key, command, targets[..m]), key, command, targets, m)
  {
    hide *;
    if m == 0 {
      assert targets[..0] == [];
      RegisteredNone(b, key, command, targets);
    } else {
      RegisterIs(b, key, command, targets, m - 1);
      var r := Register(b, key, command, targets[..m - 1]);
      RegisterStep(b, key, command, targets, m - 1);
      if r.duplicate.Some? {
        RegisteredStuck(b, r, key, command, targets, m - 1);
      } else if key in StoreOf(r.books, targets[m - 1]) {
        RegisteredClash(b, r, key, command, targets, m - 1);
      } else {
        RegisteredMore(b, r, key, command, targets, m - 1);
      }
    }
  }

  lemma {:induction false} SettleOne(s: Store, key: Key, id: nat, status: Status, error: string)
    requires key in s && s[key].id == id && forall k | k in s && k != key :: s[k].id != id
    ensures Settle(s, id, status, error) == s[key := s[key].(status := status, error := error)]
  {
  }

  /** The first `n` registered records are settled, the others not yet. */
  ghost predicate SettledSo(b: Books, r: Books, after: Books, key: Key, command: string, targets: seq<string>, n: nat, status: Status, error: string)
    requires n <= |targets|
  {
    && after.nextId == r.nextId
    && (forall i | 0 <= i < n :: StoreOf(after, targets[i]) == StoreOf(b, targets[i])[key := New(b, i, command, status, error)])
    && (forall i | n <= i < |targets| :: StoreOf(after, targets[i]) == StoreOf(r, targets[i]))
    && (forall repo | repo !in targets :: StoreOf(after, repo) == StoreOf(r, repo))
  }

  lemma {:induction false} UpdateOne(b: Books, before: Books, repo: string, key: Key, i: nat, command: string, status: Status, error: string)
    requires Fresh(b) && StoreOf(before, repo) == StoreOf(b, repo)[key := New(b, i, command, Received, "")]
    ensures var after := Update(before, repo, b.nextId + i, status, error);
            && after.nextId == before.nextId
            && StoreOf(after, repo) == StoreOf(b, repo)[key := New(b, i, command, status, error)]
            && forall other | other != repo :: StoreOf(after, other) == StoreOf(before, other)
  {
    hide Settle;
    var s := StoreOf(before, repo);
    SettleOne(s, key, b.nextId + i, status, error);
    assert StoreOf(b, repo)[key := New(b, i, command, Received, "")][key := New(b, i, command, status, error)]
        == StoreOf(b, repo)[key := New(b, i, command, status, error)];
  }

  lemma {:induction false} SettledStep(b: Books, r: Books, after: Books, key: Key, command: string, targets: seq<string>, n: nat, status: Status, error: string)
    requires n < |targets| && SettledSo(b, r, after, key, command, targets, n, status, error)
    requires Fresh(b) && Written(b, r, key, command, targets, |targets|, Received, "")
    ensures SettledSo(b, r, Update(after, targets[n], b.nextId + n, status, error), key, command, targets, n + 1, status, error)
  {
    hide Fresh, Update, StoreOf;
    UpdateOne(b, after, targets[n], key, n, command, status, error);
  }

  lemma {:induction false} SettledNone(b: Books, r: Books, key: Key, command: string, targets: seq<string>, status: Status, error: string)
    ensures SettledSo(b, r, SettleAll(r, [], status, error), key, command, targets, 0, status, error)
  {
    hide StoreOf;
  }

  lemma {:induction false} SettleAllIs(b: Books, r: Books, ids: seq<(string, nat)>, key: Key, command: string, targets: seq<string>, n: nat, status: Status, error: string)
    requires Fresh(b) && Written(b, r, key, command, targets, |targets|, Received, "")
    requires |ids| == |targets| && n <= |targets| && forall i | 0 <= i < |ids| :: ids[i] == (targets[i], b.nextId + i)
    ensures SettledSo(b, r, SettleAll(r, ids[..n], status, error), key, command, targets, n, status, error)
  {
    hide *;
    if n == 0 {
      assert ids[..0] == [];
      SettledNone(b, r, key, command, targets, status, error);
    } else {
      SettleAllIs(b, r, ids, key, command, targets, n - 1, status, error);
      SettledStep(b, r, SettleAll(r, ids[..n - 1], status, error), key, command, targets, n - 1, status, error);
      SettleStep(r, ids, status, error, n - 1);
    }
  }

  lemma {:induction false} AllSettled(b: Books, r: Books, after: Books, key: Key, command: string, targets: seq<string>, status: Status, error: string)
    requires Written(b, r, key, command, targets, |targets|, Received, "")
    requires SettledSo(b, r, after, key, command, targets, |targets|, status, error)
    ensures Written(b, after, key, command, targets, |targets|, status, error)
  {
    hide StoreOf;
    assert targets[..|targets|] == targets;
  }

  /** What a call does, in full: it is dispatched exactly when no target clashes, and then every target has one
      more record with the common end status; on a clash the targets before it keep an open record and nothing is
      dispatched; a refused call changes nothing. */
  lemma {:induction false} EffectIs(b: Books, repos: seq<string>, q: Request)
    requires Fresh(b)
    ensures var e, key, targets := Effect(b, repos, q), KeyOf(q), Targets(repos, q);
            && (e.reply.Done? <==> key.external != "" && targets != [] && forall i | 0 <= i < |targets| :: !Clash(b, key, targets, i))
            && (e.reply.Done? ==> Written(b, e.books, key, q.command, targets, |targets|, EndStatus(q), EndError(q)))
            && (e.reply.Duplicate? ==>
                  exists n :: 0 <= n < |targets| && targets[n] == e.reply.repo && Clash(b, key, targets, n)
                              && Written(b, e.books, key, q.command, targets, n, Received, ""))
            && (e.reply.Refused? ==> e.books == b)
  {
    hide KeyOf, Targets, Clash, Register, Create, SettleAll, Written, SettledSo, EndStatus, EndError, Fresh;
    var key, targets := KeyOf(q), Targets(repos, q);
    RegisterIs(b, key, q.command, targets, |targets|);
    assert targets[..|targets|] == targets;
    var r := Register(b, key, q.command, targets);
    if key.external != "" && targets != [] && r.duplicate.None? {
      SettleAllIs(b, r.books, r.ids, key, q.command, targets, |targets|, EndStatus(q), EndError(q));
      assert r.ids[..|targets|] == r.ids;
      AllSettled(b, r.books, SettleAll(r.books, r.ids, EndStatus(q), EndError(q)), key, q.command, targets, EndStatus(q), EndError(q));
    }
  }

  // ---------- whole histories ----------

  /** Calls in the order they are executed, each with the repositories configured at its time */
  datatype Call = Call(repos: seq<string>, request: Request)

  datatype Dispatch = Dispatch(key: Key, targets: seq<string>, status: Status, error: string)

  datatype World = World(books: Books, dispatches: seq<Dispatch>)

  /** One more call; only `Done` has run the action. */
  function After(w: World, c: Call): World
  {
    var e := Effect(w.books, c.repos, c.request);
    World(e.books,
          if e.reply.Done?
          then w.dispatches + [Dispatch(KeyOf(c.request), Targets(c.repos, c.request), EndStatus(c.request), EndError(c.request))]
          else w.dispatches)
  }

  function Play(w: World, calls: seq<Call>): World
  {
    if calls == [] then w else After(Play(w, calls[..|calls| - 1]), calls[|calls| - 1])
  }

  const START := World(Books(map[], 0), [])

  /** Every record of the dispatched call is there, with the end status of the call. */
  ghost predicate Settled(b: Books, d: Dispatch)
  {
    forall repo | repo in d.targets :: d.key in StoreOf(b, repo)
                                       && StoreOf(b, repo)[d.key].status == d.status && StoreOf(b, repo)[d.key].error == d.error
  }

  predicate Disjoint(a: seq<string>, b: seq<string>) { forall x | x in a :: x !in b }

  ghost predicate Consistent(w: World)
  {
    && Fresh(w.books)
    && (forall i | 0 <= i < |w.dispatches| :: Settled(w.books, w.dispatches[i]) && w.dispatches[i].status != Received)
    && (forall i, j | 0 <= i < j < |w.dispatches| && w.dispatches[i].key == w.dispatches[j].key ::
          Disjoint(w.dispatches[i].targets, w.dispatches[j].targets))
  }

  /** No record that is there is ever changed or taken away. */
  ghost predicate Extends(b: Books, after: Books)
  {
    forall repo, key | key in StoreOf(b, repo) :: key in StoreOf(after, repo) && StoreOf(after, repo)[key] == StoreOf(b, repo)[key]
  }

  lemma {:induction false} WrittenExtends(b: Books, after: Books, key: Key, command: string, targets: seq<string>, n: nat, status: Status, error: string)
    requires Fresh(b) && n <= |targets| && Written(b, after, key, command, targets, n, status, error)
    ensures Extends(b, after) && Fresh(after)
  {
    hide StoreOf;
    forall repo, k | k in StoreOf(b, repo)
      ensures k in StoreOf(after, repo) && StoreOf(after, repo)[k] == StoreOf(b, repo)[k]
    {
      if repo in targets[..n] { var i :| 0 <= i < n && targets[i] == repo; }
    }
    forall repo, k | k in StoreOf(after, repo) ensures StoreOf(after, repo)[k].id < after.nextId {
      if repo in targets[..n] { var i :| 0 <= i < n && targets[i] == repo; }
    }
  }

  lemma {:induction false} CallExtends(b: Books, c: Call)
    requires Fresh(b)
    ensures Extends(b, Effect(b, c.repos, c.request).books) && Fresh(Effect(b, c.repos, c.request).books)
  {
    hide Written, Clash, Effect, Fresh;
    var e, key, targets, q := Effect(b, c.repos, c.request), KeyOf(c.request), Targets(c.repos, c.request), c.request;
    EffectIs(b, c.repos, q);
    match e.reply
    case Done(_) => WrittenExtends(b, e.books, key, q.command, targets, |targets|, EndStatus(q), EndError(q));
    case Duplicate(repo) =>
      var n :| 0 <= n < |targets| && targets[n] == repo && Clash(b, key, targets, n)
               && Written(b, e.books, key, q.command, targets, n, Received, "");
      WrittenExtends(b, e.books, key, q.command, targets, n, Received, "");
    case Refused(_) =>
  }

  lemma {:induction false} SettledStays(b: Books, after: Books, d: Dispatch)
    requires Settled(b, d) && Extends(b, after)
    ensures Settled(after, d)
  {
    hide StoreOf;
  }

  lemma {:induction false} NewIsSettled(b: Books, after: Books, key: Key, command: string, targets: seq<string>, status: Status, error: string)
    requires Written(b, after, key, command, targets, |targets|, status, error)
    ensures Settled(after, Dispatch(key, targets, status, error))
    ensures forall repo | repo in targets :: key !in StoreOf(b, repo)
  {
    hide StoreOf;
  }

  lemma {:induction false} CallKeeps(w: World, c: Call)
    requires Consistent(w)
    ensures Consistent(After(w, c))
  {
    hide StoreOf, KeyOf, Targets, Written, Clash, Effect, EndError, Fresh, Settled, Extends;
    var e, key, targets, q := Effect(w.books, c.repos, c.request), KeyOf(c.request), Targets(c.repos, c.request), c.request;
    var v := After(w, c);
    CallExtends(w.books, c);
    forall i | 0 <= i < |w.dispatches| ensures Settled(v.books, w.dispatches[i]) {
      SettledStays(w.books, v.books, w.dispatches[i]);
    }
    if e.reply.Done? {
      EffectIs(w.books, c.repos, q);
      NewIsSettled(w.books, e.books, key, q.command, targets, EndStatus(q), EndError(q));
      forall i | 0 <= i < |w.dispatches| && w.dispatches[i].key == key
        ensures Disjoint(w.dispatches[i].targets, targets)
      {
        KeyTaken(w.books, w.dispatches[i], targets);
      }
    }
  }

  lemma {:induction false} KeyTaken(b: Books, d: Dispatch, targets: seq<string>)
    requires Settled(b, d) && forall repo | repo in targets :: d.key !in StoreOf(b, repo)
    ensures Disjoint(d.targets, targets)
  {
    hide StoreOf;
  }

  lemma {:induction false} PlayKeeps(w: World, calls: seq<Call>)
    requires Consistent(w)
    ensures Consistent(Play(w, calls))
    ensures Extends(w.books, Play(w, calls).books)
  {
    hide Consistent, Extends, Effect, StoreOf;
    if calls == [] {
      ExtendsItself(w.books);
    } else {
      var front := Play(w, calls[..|calls| - 1]);
      PlayKeeps(w, calls[..|calls| - 1]);
      CallKeeps(front, calls[|calls| - 1]);
      ConsistentFresh(front);
      CallExtends(front.books, calls[|calls| - 1]);
      ExtendsChain(w.books, front.books, Play(w, calls).books);
    }
  }

  lemma {:induction false} ExtendsItself(b: Books)
    ensures Extends(b, b)
  {
  }

  lemma {:induction false} ConsistentFresh(w: World)
    requires Consistent(w)
    ensures Fresh(w.books)
  {
  }

  lemma {:induction false} ExtendsChain(a: Books, b: Books, c: Books)
    requires Extends(a, b) && Extends(b, c)
    ensures Extends(a, c)
  {
    hide StoreOf;
  }

  lemma {:induction false} StartConsistent()
    ensures Consistent(START)
  {
  }

  /** Over every history: two dispatches of one key have no repository in common, and all the records of a
      dispatched call have one common final status. */
  lemma {:induction false} AtMostOnce(calls: seq<Call>, i: nat, j: nat)
    ensures var w := Play(START, calls);
            && (i < j < |w.dispatches| && w.dispatches[i].key == w.dispatches[j].key ==>
                  Disjoint(w.dispatches[i].targets, w.dispatches[j].targets))
            && (i < |w.dispatches| ==> Settled(w.books, w.dispatches[i]) && w.dispatches[i].status != Received)
  {
    hide Play, Settled, Disjoint, Fresh;
    StartConsistent();
    PlayKeeps(START, calls);
  }

  /** No later call changes a record, whether final or still open. */
  lemma {:induction false} RecordsAreFinal(calls: seq<Call>, later: seq<Call>)
    ensures Extends(Play(START, calls).books, Play(Play(START, calls), later).books)
  {
    hide Play, Consistent, Extends;
    StartConsistent();
    PlayKeeps(START, calls);
    PlayKeeps(Play(START, calls), later);
  }

  /** A call that meets a duplicate dispatches nothing; the targets before the duplicate keep an open record
      of it through every later history, so none of them ever dispatches the key. */
  lemma {:induction false} DuplicateStrands(calls: seq<Call>, c: Call, later: seq<Call>)
    ensures var before := Play(START, calls);
            var w := After(before, c);
            var e, key, targets := Effect(before.books, c.repos, c.request), KeyOf(c.request), Targets(c.repos, c.request);
            e.reply.Duplicate? ==>
              && w.dispatches == before.dispatches
              && exists n :: 0 <= n < |targets| && targets[n] == e.reply.repo && Clash(before.books, key, targets, n)
                             && forall i | 0 <= i < n ::
                               && key !in StoreOf(before.books, targets[i])
                               && key in StoreOf(Play(w, later).books, targets[i])
                               && StoreOf(Play(w, later).books, targets[i])[key].status == Received
  {
    hide Play, Consistent, Effect, Clash, KeyOf, Targets, StoreOf;
    var before := Play(START, calls);
    var w := After(before, c);
    StartConsistent();
    PlayKeeps(START, calls);
    CallKeeps(before, c);
    ConsistentFresh(before);
    EffectIs(before.books, c.repos, c.request);
    PlayKeeps(w, later);
  }

  // ---------- the records themselves ----------

  /** No two records of any repositories have one id. */
  ghost predicate UniqueIds(b: Books)
  {
    forall r, k, q, l | k in StoreOf(b, r) && l in StoreOf(b, q) && StoreOf(b, r)[k].id == StoreOf(b, q)[l].id :: r == q && k == l
  }

  /** Creating a record adds one key in one repository and gives it an id that no record has. */
  lemma {:induction false} CreateAddsOne(b: Books, repo: string, key: Key, command: string)
    requires Fresh(b) && UniqueIds(b) && key !in StoreOf(b, repo)
    ensures var after := Create(b, repo, key, command);
            && (forall r, k :: k in StoreOf(after, r) <==> k in StoreOf(b, r) || (r == repo && k == key))
            && Extends(b, after) && Fresh(after) && UniqueIds(after)
  {
    var after := Create(b, repo, key, command);
    assert StoreOf(after, repo) == StoreOf(b, repo)[key := Record(b.nextId, command, Received, "")];
    forall r | r != repo ensures StoreOf(after, r) == StoreOf(b, r) {
    }
    hide StoreOf;
  }

  /** An UPDATE by the id of a record changes the status and error text of that record and nothing else. */
  lemma {:induction false} UpdateHitsOne(b: Books, repo: string, key: Key, status: Status, error: string)
    requires UniqueIds(b) && key in StoreOf(b, repo)
    ensures var after := Update(b, repo, StoreOf(b, repo)[key].id, status, error);
            && StoreOf(after, repo) == StoreOf(b, repo)[key := StoreOf(b, repo)[key].(status := status, error := error)]
            && (forall r | r != repo :: StoreOf(after, r) == StoreOf(b, r))
            && UniqueIds(after)
  {
    hide Settle;
    var s, id := StoreOf(b, repo), StoreOf(b, repo)[key].id;
    forall k | k in s && k != key ensures s[k].id != id {
      assert k in StoreOf(b, repo);
    }
    SettleOne(s, key, id, status, error);
    var after := Update(b, repo, id, status, error);
    forall r, k | k in StoreOf(after, r) ensures k in StoreOf(b, r) && StoreOf(after, r)[k].id == StoreOf(b, r)[k].id {
    }
  }

  /** So the registrations of a call, open or settled, keep the ids apart. */
  lemma {:induction false} WrittenUnique(b: Books, after: Books, key: Key, command: string, targets: seq<string>, n: nat, status: Status, error: string)
    requires Fresh(b) && UniqueIds(b) && n <= |targets| && Written(b, after, key, command, targets, n, status, error)
    ensures UniqueIds(after)
  {
    hide StoreOf;
    forall r, k | k in StoreOf(after, r)
      ensures (k in StoreOf(b, r) && StoreOf(after, r)[k] == StoreOf(b, r)[k])
              || (k == key && exists i :: 0 <= i < n && targets[i] == r && StoreOf(after, r)[k].id == b.nextId + i)
    {
      if r in targets[..n] { var i :| 0 <= i < n && targets[i] == r; }
    }
  }

  lemma {:induction false} CallUnique(b: Books, c: Call)
    requires Fresh(b) && UniqueIds(b)
    ensures UniqueIds(Effect(b, c.repos, c.request).books)
  {
    hide Written, Clash, Effect, Fresh, UniqueIds;
    var e, key, targets, q := Effect(b, c.repos, c.request), KeyOf(c.request), Targets(c.repos, c.request), c.request;
    EffectIs(b, c.repos, q);
    match e.reply
    case Done(_) => WrittenUnique(b, e.books, key, q.command, targets, |targets|, EndStatus(q), EndError(q));
    case Duplicate(repo) =>
      var n :| 0 <= n < |targets| && targets[n] == repo && Clash(b, key, targets, n)
               && Written(b, e.books, key, q.command, targets, n, Received, "");
      WrittenUnique(b, e.books, key, q.command, targets, n, Received, "");
    case Refused(_) =>
  }

  /** Over every history no two records have one id: each UPDATE means one record. */
  lemma {:induction false} IdsNeverRepeat(calls: seq<Call>)
    ensures UniqueIds(Play(START, calls).books)
  {
    hide UniqueIds, Consistent, Effect;
    if calls == [] {
      NoIds();
    } else {
      var front := calls[..|calls| - 1];
      IdsNeverRepeat(front);
      StartConsistent();
      PlayKeeps(START, front);
      ConsistentFresh(Play(START, front));
      CallUnique(Play(START, front).books, calls[|calls| - 1]);
    }
  }

  lemma {:induction false} NoIds()
    ensures UniqueIds(START.books)
  {
  }

  // ---------- keys, targets and ends ----------

  /** Every record of a dispatched call ends as failed, with the first 500 characters of the exception's text, exactly when
      the action raised, and else as succeeded without one. */
  lemma {:induction false} DispatchEnds(b: Books, repos: seq<string>, q: Request, repo: string)
    requires Fresh(b) && Effect(b, repos, q).reply.Done? && repo in Targets(repos, q)
    ensures var s := StoreOf(Effect(b, repos, q).books, repo);
            && KeyOf(q) in s && s[KeyOf(q)].command == q.command
            && (q.failure.None? ==> s[KeyOf(q)].status == Succeeded && s[KeyOf(q)].error == "")
            && (q.failure.Some? ==> s[KeyOf(q)].status == Failed && s[KeyOf(q)].error <= q.failure.value
                                    && (|q.failure.value| <= 500 ==> s[KeyOf(q)].error == q.failure.value)
                                    && (|q.failure.value| > 500 ==> |s[KeyOf(q)].error| == 500))
    ensures Effect(b, repos, q).reply.failure == q.failure
  {
    hide KeyOf, Targets, Clash, Fresh, StoreOf;
    EffectIs(b, repos, q);
    var targets := Targets(repos, q);
    var i :| 0 <= i < |targets| && targets[i] == repo;
    ReplyTells(b, repos, q);
  }

  lemma {:induction false} ReplyTells(b: Books, repos: seq<string>, q: Request)
    ensures Effect(b, repos, q).reply.Done? ==> Effect(b, repos, q).reply.failure == q.failure
  {
    hide KeyOf, Targets, Register, SettleAll;
  }

  /** The key of a call: its source in lower case and stripped, `unknown` for a blank one, and its stripped id, of at most
      40 and 200 characters. Sources that differ only in case or in white space around them give one key. */
  lemma {:induction false} KeyIs(q: Request, p: Request)
    ensures Trim(q.source) != "" && |Trim(q.source)| <= 40 ==> KeyOf(q).source == Lower(Trim(q.source))
    ensures Trim(q.source) == "" ==> KeyOf(q).source == "unknown"
    ensures 0 < |KeyOf(q).source| <= 40 && |KeyOf(q).external| <= 200
    ensures |Trim(q.external)| <= 200 ==> KeyOf(q).external == Trim(q.external)
    ensures KeyOf(q).external <= Trim(q.external)
    ensures Trim(q.external) != "" ==> KeyOf(q).external != ""
    ensures Lower(Trim(q.source)) == Lower(Trim(p.source)) && Trim(q.external) == Trim(p.external) ==> KeyOf(q) == KeyOf(p)
  {
    hide Trim, Lower;
    UnknownStays("unknown", q);
    UnknownStays("unknown", p);
  }

  lemma {:induction false} UnknownStays(u: string, q: Request)
    requires u == "unknown"
    ensures Lower(Trim(u)) == u && Trim("") == ""
  {
    hide Lower;
    TrimFixed(u);
    LowerFixed(u);
    TrimFixed("");
  }

  /** A call without a repository targets all that are configured; a call with one targets every configured repository of
      exactly that name, stripped, and no other. */
  lemma {:induction false} TargetsAre(repos: seq<string>, q: Request)
    ensures q.repo == "" ==> Targets(repos, q) == repos
    ensures q.repo != "" ==> forall t :: multiset(Targets(repos, q))[t] == if t == Trim(q.repo) then multiset(repos)[t] else 0
  {
    hide Trim;
    MatchingIs(repos, Trim(q.repo));
  }

  lemma {:induction false} MatchingIs(repos: seq<string>, name: string)
    ensures forall t :: multiset(Matching(repos, name))[t] == if t == name then multiset(repos)[t] else 0
  {
    if repos != [] {
      var n := |repos| - 1;
      assert repos == repos[..n] + [repos[n]];
      MatchingIs(repos[..n], name);
    }
  }
}
