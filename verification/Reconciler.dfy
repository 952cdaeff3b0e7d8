/** One reconcile pass over the issue rows and the workspace directories
    (src/flow_healer/healer_reconciler.py, with the store and workspace operations it calls). The clock stands
    still during a pass; which rows a limited listing returns and what becomes of each removal are free choices.
    Paths are absolute, lease owners are stripped, and time stamps are whole seconds. */
module Reconciler {
  import opened Wrappers

  /** A workspace path: none, a child of the healer root, or anywhere else */
  datatype Path = NoPath | Under(name: string) | Outside(text: string)

  datatype Row = Row(state: string, workspace: Path, owner: string, expires: Option<int>)

  type Rows = map<string, Row>

  datatype World = World(rows: Rows, dirs: set<string>)

  /** What removing an existing directory does: it goes, the removal raises, or it quietly stays. */
  datatype Fate = Goes | Raises | Stays

  datatype Env = Env(now: int, worker: string, fates: map<string, Fate>)

  const LIMIT: nat := 2000

  function FateOf(env: Env, name: string): Fate { if name in env.fates then env.fates[name] else Goes }

  const WORKING: set<string> := {"claimed", "running", "verify_pending"}
  const INACTIVE: set<string> := {"queued", "failed", "resolved", "archived", "blocked", "pr_pending_approval", "pr_open"}
  const ACTIVE: set<string> := {"claimed", "running", "verify_pending", "pr_pending_approval", "pr_open", "blocked"}
  const SWEPT: set<string> := {"queued"} + ACTIVE

  // ---------- the rules for one row ----------

  /** `requeue_expired_healer_issue_leases` */
  function Requeue(r: Row, env: Env): Row
  {
    if r.state in WORKING && (if r.expires.Some? then r.expires.value <= env.now else r.owner == "")
    then r.(state := "queued", owner := "", expires := None) else r
  }

  /** A row of another worker session, with a workspace */
  predicate Stale(r: Row, env: Env)
  {
    env.worker != "" && r.state in WORKING && r.workspace != NoPath && r.owner != "" && r.owner != env.worker
  }

  function Recover(r: Row): Row { r.(state := "queued", workspace := NoPath, owner := "", expires := None) }

  /** `_workspace_ref_has_active_lease` */
  predicate Leased(r: Row, now: int)
  {
    if r.expires.None? then r.owner != "" else r.expires.value > now
  }

  /** The cleanup of inactive issues takes the row's workspace. */
  predicate Cleans(r: Row, env: Env) { r.state in INACTIVE && r.workspace != NoPath && !Leased(r, env.now) }

  /** `_workspace_ref_should_be_preserved` */
  predicate Preserved(r: Row, env: Env) { r.state in ACTIVE || (r.state == "queued" && Leased(r, env.now)) }

  /** `remove_workspace` comes back without an exception. */
  predicate Removable(p: Path, dirs: set<string>, env: Env)
  {
    p.Under? && !(p.name in dirs && FateOf(env, p.name).Raises?)
  }

  function Removed(p: Path, dirs: set<string>, env: Env): set<string>
  {
    if p.Under? && FateOf(env, p.name).Goes? then dirs - {p.name} else dirs
  }

  // ---------- the steps over all rows ----------

  /** The rows that `list_healer_issue_workspace_refs` can return */
  function Refs(rows: Rows, states: set<string>): set<string>
  {
    set id | id in rows && rows[id].state in states && rows[id].workspace != NoPath
  }

  function Requeued(w: World, env: Env): World { w.(rows := map id | id in w.rows :: Requeue(w.rows[id], env)) }

  function Recovered(w: World, listed: set<string>, env: Env): World
  {
    w.(rows := map id | id in w.rows :: if id in listed && Stale(w.rows[id], env) then Recover(w.rows[id]) else w.rows[id])
  }

  /** Some listed row that the cleanup takes points to the directory. */
  predicate TakenAt(rows: Rows, listed: set<string>, env: Env, name: string)
  {
    exists id :: id in listed && id in rows && Cleans(rows[id], env) && rows[id].workspace == Under(name)
  }

  function CleanedRow(r: Row, dirs: set<string>, env: Env): Row
  {
    if Cleans(r, env) && Removable(r.workspace, dirs, env) then r.(workspace := NoPath) else r
  }

  function Cleaned(w: World, listed: set<string>, env: Env): World
  {
    World(map id | id in w.rows :: if id in listed then CleanedRow(w.rows[id], w.dirs, env) else w.rows[id],
          set n | n in w.dirs && !(FateOf(env, n).Goes? && TakenAt(w.rows, listed, env, n)))
  }

  /** Some listed row that is to be preserved points to the directory. */
  predicate KeptAt(rows: Rows, listed: set<string>, env: Env, name: string)
  {
    exists id :: id in listed && id in rows && Preserved(rows[id], env) && rows[id].workspace == Under(name)
  }

  function Swept(w: World, listed: set<string>, env: Env): World
  {
    w.(dirs := set n | n in w.dirs && (KeptAt(w.rows, listed, env, n) || !FateOf(env, n).Goes?))
  }

  // ---------- the class of the source ----------

  lemma {:induction false} SubsetOfSize(s: set<string>, n: nat)
    requires n <= |s|
    ensures exists t :: t <= s && |t| == n
    decreases |s|
  {
    if n == |s| {
      assert s <= s;
    } else {
      var x :| x in s;
      SubsetOfSize(s - {x}, n);
      var t :| t <= s - {x} && |t| == n;
      assert t <= s;
    }
  }

  lemma {:induction false} SameSize(s: set<string>, t: set<string>)
    requires t <= s && |t| == |s|
    ensures t == s
    decreases |s|
  {
    if x :| x in s && x !in t {
      assert t <= s - {x};
      SizeBelow(t, s - {x});
    }
  }

  lemma {:induction false} SizeBelow(t: set<string>, s: set<string>)
    requires t <= s
    ensures |t| <= |s|
    decreases |t|
  {
    if x :| x in t { SizeBelow(t - {x}, s - {x}); }
  }

  lemma {:induction false} RefsBound(rows: Rows, states: set<string>)
    ensures |Refs(rows, states)| <= |rows|
  {
    assert Refs(rows, states) <= rows.Keys;
    SizeBelow(Refs(rows, states), rows.Keys);
  }

  class HealerReconciler {
    var rows: Rows
    var dirs: set<string>

    constructor (rows: Rows, dirs: set<string>)
      ensures Contents() == World(rows, dirs)
    {
      this.rows, this.dirs := rows, dirs;
    }

    function Contents(): World
      reads this
    {
      World(rows, dirs)
    }

    method ListWorkspaceRefs(states: set<string>) returns (refs: set<string>)
      ensures refs <= Refs(rows, states)
      ensures |refs| == if |Refs(rows, states)| <= 2000 then |Refs(rows, states)| else 2000
      ensures |rows| <= 2000 ==> refs == Refs(rows, states)
    {
      var all := Refs(rows, states);
      var n := if |all| <= LIMIT then |all| else LIMIT;
      SubsetOfSize(all, n);
      refs :| refs <= all && |refs| == n;
      RefsBound(rows, states);
      if |rows| <= LIMIT { SameSize(all, refs); }
    }

    method RequeueExpiredLeases(env: Env)
      modifies this`rows
      ensures Contents() == Requeued(old(Contents()), env)
    {
      rows := map id | id in rows :: Requeue(rows[id], env);
    }

    /** `_recover_stale_active_issues` */
    method RecoverStaleActiveIssues(env: Env) returns (recovered: nat, ghost listed: set<string>)
      modifies this`rows
      ensures Contents() == Recovered(old(Contents()), listed, env)
      ensures |old(rows)| <= 2000 ==> listed == Refs(old(rows), WORKING)
    {
      hide Refs, Stale, Recover, Recovered, RecoverOne, Cleans, Cleaned, CleanOne, Removable, TakenAt, KeptAt, Swept, SweptAmong, Preserved;
      var refs := ListWorkspaceRefs(WORKING);
      RefsAreRows(rows, WORKING);
      listed, recovered := refs, 0;
      ghost var start := Contents();
      RecoverNone(start, env);
      Rest(listed, refs);
      while refs != {}
        invariant refs <= listed <= start.rows.Keys
        invariant Contents() == Recovered(start, listed - refs, env)
        decreases |refs|
      {
        var id :| id in refs;
        RecoverStep(start, listed - refs, id, env);
        RestStep(listed, refs, id);
        var stale := RecoverRow(id, env);
        if stale { recovered := recovered + 1; }
        refs := refs - {id};
      }
      Rest(listed, {});
    }

    method RecoverRow(id: string, env: Env) returns (stale: bool)
      requires id in rows
      modifies this`rows
      ensures Contents() == RecoverOne(old(Contents()), id, env) && stale == Stale(old(rows)[id], env)
    {
      stale := Stale(rows[id], env);
      if stale { rows := rows[id := Recover(rows[id])]; }
    }

    /** `_cleanup_inactive_issue_workspaces` */
    method CleanupInactiveIssueWorkspaces(env: Env) returns (cleaned: nat, ghost listed: set<string>)
      modifies this
      ensures Contents() == Cleaned(old(Contents()), listed, env)
      ensures |old(rows)| <= 2000 ==> listed == Refs(old(rows), INACTIVE)
    {
      hide Refs, Stale, Recover, Recovered, RecoverOne, Cleans, Cleaned, CleanOne, Removable, TakenAt, KeptAt, Swept, SweptAmong, Preserved;
      var refs := ListWorkspaceRefs(INACTIVE);
      RefsAreRows(rows, INACTIVE);
      listed, cleaned := refs, 0;
      ghost var start := Contents();
      CleanNone(start, env);
      Rest(listed, refs);
      while refs != {}
        invariant refs <= listed <= start.rows.Keys
        invariant Contents() == Cleaned(start, listed - refs, env)
        decreases |refs|
      {
        var id :| id in refs;
        CleanStep(start, listed - refs, id, env);
        RestStep(listed, refs, id);
        var gone := CleanRow(id, env);
        if gone { cleaned := cleaned + 1; }
        refs := refs - {id};
      }
      Rest(listed, {});
    }

    /** One round: leased rows are skipped, a removal that raises leaves the row as it is. */
    method CleanRow(id: string, env: Env) returns (gone: bool)
      requires id in rows
      modifies this
      ensures Contents() == CleanOne(old(Contents()), id, env)
    {
      var row := rows[id];
      gone := Cleans(row, env) && Removable(row.workspace, dirs, env);
      if gone {
        dirs := Removed(row.workspace, dirs, env);
        rows := rows[id := row.(workspace := NoPath)];
      }
    }

    /** `_sweep_orphan_workspaces` */
    method SweepOrphanWorkspaces(env: Env) returns (removed: nat, ghost listed: set<string>)
      modifies this`dirs
      ensures Contents() == Swept(old(Contents()), listed, env)
      ensures |rows| <= 2000 ==> listed == Refs(rows, SWEPT)
    {
      hide Refs, Stale, Recover, Recovered, RecoverOne, Cleans, Cleaned, CleanOne, Removable, TakenAt, KeptAt, Swept, SweptAmong, Preserved;
      var refs := ListWorkspaceRefs(SWEPT);
      RefsAreRows(rows, SWEPT);
      listed, removed := refs, 0;
      var kept := set id | id in refs && Preserved(rows[id], env) :: rows[id].workspace;
      KeptIs(rows, refs, env);
      ghost var start := Contents();
      var left := dirs;
      SweepNone(start, listed, env);
      Rest(dirs, left);
      while left != {}
        invariant left <= start.dirs
        invariant Contents() == SweptAmong(start, listed, start.dirs - left, env)
        decreases |left|
      {
        var name :| name in left;
        SweepStep(start, listed, start.dirs - left, name, env);
        RestStep(start.dirs, left, name);
        if Under(name) !in kept && !FateOf(env, name).Raises? {
          dirs := Removed(Under(name), dirs, env);
          removed := removed + 1;
        }
        left := left - {name};
      }
      Rest(start.dirs, {});
      SweepAll(start, listed, env);
    }

    /** `reconcile`, the part that touches rows and workspaces. `Pass` says what it does when no listing is cut off. */
    method Reconcile(env: Env) returns (recovered: nat, cleaned: nat, removed: nat, ghost cleanup: set<string>, ghost sweep: set<string>)
      modifies this
      ensures |old(rows)| <= 2000 ==> Contents() == Pass(old(Contents()), env)
      ensures exists recovery ::
                Contents() == Swept(Cleaned(Recovered(Requeued(old(Contents()), env), recovery, env), cleanup, env), sweep, env)
    {
      hide Refs, Requeued, Recovered, Cleaned, Swept;
      ghost var start := Contents();
      RequeueExpiredLeases(env);
      ghost var recovery;
      recovered, recovery := RecoverStaleActiveIssues(env);
      SameKeys(start, recovery, {}, env);
      cleaned, cleanup := CleanupInactiveIssueWorkspaces(env);
      SameKeys(start, recovery, cleanup, env);
      removed, sweep := SweepOrphanWorkspaces(env);
    }
  }

  lemma {:induction false} SameKeys(w: World, recovery: set<string>, cleanup: set<string>, env: Env)
    ensures var v := Requeued(w, env); |v.rows| == |w.rows|
    ensures var v := Recovered(Requeued(w, env), recovery, env); |v.rows| == |w.rows|
    ensures var v := Cleaned(Recovered(Requeued(w, env), recovery, env), cleanup, env); |v.rows| == |w.rows|
  {
    hide Requeue, Stale, Recover, CleanedRow, TakenAt;
    assert Requeued(w, env).rows.Keys == w.rows.Keys;
    assert Recovered(Requeued(w, env), recovery, env).rows.Keys == w.rows.Keys;
    assert Cleaned(Recovered(Requeued(w, env), recovery, env), cleanup, env).rows.Keys == w.rows.Keys;
  }

  function Pass(w: World, env: Env): World
  {
    var requeued := Requeued(w, env);
    var recovered := Recovered(requeued, Refs(requeued.rows, WORKING), env);
    var cleaned := Cleaned(recovered, Refs(recovered.rows, INACTIVE), env);
    Swept(cleaned, Refs(cleaned.rows, SWEPT), env)
  }

  // ---------- one round of each loop ----------

  lemma {:induction false} RefsAreRows(rows: Rows, states: set<string>)
    ensures Refs(rows, states) <= rows.Keys
  {
  }

  lemma {:induction false} Rest(all: set<string>, left: set<string>)
    ensures left == all ==> all - left == {}
    ensures left == {} ==> all - left == all
  {
  }

  lemma {:induction false} RestStep(all: set<string>, left: set<string>, x: string)
    requires left <= all && x in left
    ensures all - left + {x} == all - (left - {x}) && x !in all - left
  {
  }

  function RecoverOne(v: World, id: string, env: Env): World
    requires id in v.rows
  {
    if Stale(v.rows[id], env) then v.(rows := v.rows[id := Recover(v.rows[id])]) else v
  }

  lemma {:induction false} RecoverNone(w: World, env: Env)
    ensures Recovered(w, {}, env) == w
  {
  }

  lemma {:induction false} RecoverStep(w: World, done: set<string>, id: string, env: Env)
    requires id in w.rows && id !in done
    ensures id in Recovered(w, done, env).rows
    ensures Recovered(w, done + {id}, env) == RecoverOne(Recovered(w, done, env), id, env)
  {
    hide Stale, Recover;
  }

  function CleanOne(v: World, id: string, env: Env): World
    requires id in v.rows
  {
    var row := v.rows[id];
    if Cleans(row, env) && Removable(row.workspace, v.dirs, env)
    then World(v.rows[id := row.(workspace := NoPath)], Removed(row.workspace, v.dirs, env)) else v
  }

  lemma {:induction false} CleanNone(w: World, env: Env)
    ensures Cleaned(w, {}, env) == w
  {
  }

  /** The rows of one directory do not get in each other's way: who comes first does not matter. */
  lemma {:induction false} CleanStep(w: World, done: set<string>, id: string, env: Env)
    requires id in w.rows && id !in done
    ensures id in Cleaned(w, done, env).rows
    ensures Cleaned(w, done + {id}, env) == CleanOne(Cleaned(w, done, env), id, env)
  {
    hide Cleans;
    forall n ensures TakenAt(w.rows, done + {id}, env, n)
                <==> TakenAt(w.rows, done, env, n) || (Cleans(w.rows[id], env) && w.rows[id].workspace == Under(n))
    {
    }
  }

  /** The sweep so far: only the directories in `done` have been looked at. */
  function SweptAmong(w: World, listed: set<string>, done: set<string>, env: Env): World
  {
    w.(dirs := set n | n in w.dirs && (n in done ==> KeptAt(w.rows, listed, env, n) || !FateOf(env, n).Goes?))
  }

  lemma {:induction false} SweepNone(w: World, listed: set<string>, env: Env)
    ensures SweptAmong(w, listed, {}, env) == w
  {
  }

  lemma {:induction false} SweepAll(w: World, listed: set<string>, env: Env)
    ensures SweptAmong(w, listed, w.dirs, env) == Swept(w, listed, env)
  {
    hide KeptAt, FateOf;
  }

  lemma {:induction false} SweepStep(w: World, listed: set<string>, done: set<string>, name: string, env: Env)
    requires name in w.dirs && name !in done
    ensures var v := SweptAmong(w, listed, done, env);
            SweptAmong(w, listed, done + {name}, env) ==
            if !KeptAt(w.rows, listed, env, name) && !FateOf(env, name).Raises?
            then v.(dirs := Removed(Under(name), v.dirs, env)) else v
  {
    hide KeptAt, FateOf;
  }

  lemma {:induction false} KeptIs(rows: Rows, listed: set<string>, env: Env)
    requires listed <= rows.Keys
    ensures var kept := set id | id in listed && Preserved(rows[id], env) :: rows[id].workspace;
            forall name :: Under(name) in kept <==> KeptAt(rows, listed, env, name)
  {
    hide Preserved;
  }

  // ---------- what a pass does ----------

  /** A row after the first two steps */
  function AfterRecovery(r: Row, env: Env): Row
  {
    var q := Requeue(r, env);
    if Stale(q, env) then Recover(q) else q
  }

  /** The row is preserved and the cleanup leaves it alone: at work, or leased while queued, blocked or with a
      pull request. */
  predicate Keeps(r: Row, env: Env)
  {
    r.state in WORKING || (r.state in {"queued", "blocked", "pr_pending_approval", "pr_open"} && Leased(r, env.now))
  }

  predicate Taken(w: World, env: Env, name: string)
  {
    exists id :: id in w.rows && Cleans(AfterRecovery(w.rows[id], env), env) && AfterRecovery(w.rows[id], env).workspace == Under(name)
  }

  predicate Kept(w: World, env: Env, name: string)
  {
    exists id :: id in w.rows && Keeps(AfterRecovery(w.rows[id], env), env) && AfterRecovery(w.rows[id], env).workspace == Under(name)
  }

  /** A row at work whose lease has lapsed, or that nobody owns */
  predicate Abandoned(r: Row, env: Env)
  {
    r.state in WORKING && !Leased(r, env.now)
  }

  /** After requeueing every row still at work has a live lease; the abandoned rows are queued, unleased and still have
      their workspace; all other rows are as before. Doing it twice does nothing more. */
  lemma {:induction false} RequeuedIs(w: World, env: Env)
    ensures var v := Requeued(w, env);
            && v.rows.Keys == w.rows.Keys && v.dirs == w.dirs
            && (forall id | id in v.rows && v.rows[id].state in WORKING :: Leased(v.rows[id], env.now))
            && (forall id | id in w.rows && Abandoned(w.rows[id], env) ::
                  v.rows[id].state == "queued" && !Leased(v.rows[id], env.now) && v.rows[id].workspace == w.rows[id].workspace)
            && (forall id | id in w.rows && !Abandoned(w.rows[id], env) :: v.rows[id] == w.rows[id])
            && Requeued(v, env) == v
  {
    var v := Requeued(w, env);
    assert forall id | id in v.rows :: Requeue(v.rows[id], env) == v.rows[id];
  }

  lemma {:induction false} RecoveredIs(w: World, env: Env)
    ensures var q := Requeued(w, env);
            var v := Recovered(q, Refs(q.rows, WORKING), env);
            && v.rows.Keys == w.rows.Keys && v.dirs == w.dirs
            && forall id | id in w.rows :: v.rows[id] == AfterRecovery(w.rows[id], env)
  {
    hide Requeue, Recover;
  }

  lemma {:induction false} CleanedIs(w: World, env: Env)
    ensures var listed := Refs(w.rows, INACTIVE);
            var v := Cleaned(w, listed, env);
            && v.rows.Keys == w.rows.Keys
            && (forall id | id in w.rows :: v.rows[id] == CleanedRow(w.rows[id], w.dirs, env))
            && (forall n :: n in v.dirs <==> n in w.dirs && !(FateOf(env, n).Goes? && TakenAt(w.rows, w.rows.Keys, env, n)))
  {
    hide FateOf, Removable, Leased;
    var listed := Refs(w.rows, INACTIVE);
    forall n ensures TakenAt(w.rows, listed, env, n) <==> TakenAt(w.rows, w.rows.Keys, env, n) {
    }
  }

  lemma {:induction false} SweptIs(w: World, env: Env)
    ensures var v := Swept(w, Refs(w.rows, SWEPT), env);
            && v.rows == w.rows
            && forall n :: n in v.dirs <==> n in w.dirs && (KeptAt(w.rows, w.rows.Keys, env, n) || !FateOf(env, n).Goes?)
  {
    hide FateOf, Leased;
    var listed := Refs(w.rows, SWEPT);
    forall n ensures KeptAt(w.rows, listed, env, n) <==> KeptAt(w.rows, w.rows.Keys, env, n) {
    }
  }

  /** A row is preserved after the cleanup exactly when it keeps its workspace, where directories can go. */
  lemma {:induction false} KeepsIs(r: Row, dirs: set<string>, env: Env, name: string)
    requires name in dirs && FateOf(env, name).Goes?
    ensures var c := CleanedRow(r, dirs, env);
            Preserved(c, env) && c.workspace == Under(name) <==> Keeps(r, env) && r.workspace == Under(name)
  {
    hide FateOf;
  }

  /** A pass in full: what becomes of every row and of every directory. */
  lemma {:induction false} PassIs(w: World, env: Env)
    ensures var v := Pass(w, env);
            && v.rows.Keys == w.rows.Keys
            && (forall id | id in w.rows :: v.rows[id] == CleanedRow(AfterRecovery(w.rows[id], env), w.dirs, env))
            && (forall n :: n in v.dirs <==> n in w.dirs && (!FateOf(env, n).Goes? || (!Taken(w, env, n) && Kept(w, env, n))))
  {
    hide Requeued, Recovered, Cleaned, Swept, Refs, Cleans, Preserved, Keeps, Removable, FateOf, AfterRecovery, CleanedRow;
    var requeued := Requeued(w, env);
    var recovered := Recovered(requeued, Refs(requeued.rows, WORKING), env);
    var cleaned := Cleaned(recovered, Refs(recovered.rows, INACTIVE), env);
    RecoveredIs(w, env);
    CleanedIs(recovered, env);
    SweptIs(cleaned, env);
    forall n | n in w.dirs && FateOf(env, n).Goes?
      ensures TakenAt(recovered.rows, recovered.rows.Keys, env, n) <==> Taken(w, env, n)
      ensures KeptAt(cleaned.rows, cleaned.rows.Keys, env, n) <==> Kept(w, env, n)
    {
      forall id | id in w.rows
        ensures Preserved(cleaned.rows[id], env) && cleaned.rows[id].workspace == Under(n)
           <==> Keeps(AfterRecovery(w.rows[id], env), env) && AfterRecovery(w.rows[id], env).workspace == Under(n)
      {
        KeepsIs(AfterRecovery(w.rows[id], env), w.dirs, env, n);
      }
    }
  }

  /** A row is left pointing to a directory that the pass removed exactly when it is not itself cleaned, and another
      row of that directory is, or no row keeps the directory. */
  lemma {:induction false} DanglesIff(w: World, env: Env, id: string, name: string)
    requires id in w.rows && name in w.dirs
    ensures var v, r := Pass(w, env), AfterRecovery(w.rows[id], env);
            id in v.rows && (v.rows[id].workspace == Under(name) && name !in v.dirs <==>
                             r.workspace == Under(name) && FateOf(env, name).Goes? && !Cleans(r, env) && (Taken(w, env, name) || !Kept(w, env, name)))
  {
    hide Pass, AfterRecovery, Cleans, Taken, Kept, FateOf;
    PassIs(w, env);
  }

  /** Every state is in one of the two lists, failed, resolved and archived rows hold no lease, and no two rows
      share a workspace. */
  ghost predicate Orderly(w: World, env: Env)
  {
    && (forall id | id in w.rows :: w.rows[id].state in INACTIVE + ACTIVE)
    && (forall id | id in w.rows && w.rows[id].state in {"failed", "resolved", "archived"} :: !Leased(w.rows[id], env.now))
    && (forall a, b | a in w.rows && b in w.rows && a != b && w.rows[a].workspace != NoPath :: w.rows[a].workspace != w.rows[b].workspace)
  }

  lemma {:induction false} OrderlyRow(r: Row, env: Env)
    requires r.state in INACTIVE + ACTIVE
    requires r.state in {"failed", "resolved", "archived"} ==> !Leased(r, env.now)
    ensures var a := AfterRecovery(r, env); a.workspace != NoPath ==> a.workspace == r.workspace && (Keeps(a, env) <==> !Cleans(a, env))
  {
  }

  /** After a pass over an orderly table no row points to a directory the pass removed; and of the directories that
      can be removed those remain that an active row or a queued row with a live lease points to. */
  lemma {:induction false} NoDanglingRows(w: World, env: Env)
    requires Orderly(w, env)
    ensures var v := Pass(w, env);
            && (forall id | id in v.rows && v.rows[id].workspace.Under? && v.rows[id].workspace.name in w.dirs ::
                  v.rows[id].workspace.name in v.dirs)
            && (forall n | n in v.dirs && FateOf(env, n).Goes? ::
                  exists id :: id in v.rows && v.rows[id].workspace == Under(n) && Preserved(v.rows[id], env))
  {
    hide Pass, AfterRecovery, Cleans, Keeps, FateOf, Leased, Preserved, CleanedRow;
    var v := Pass(w, env);
    PassIs(w, env);
    forall id | id in v.rows && v.rows[id].workspace.Under? && v.rows[id].workspace.name in w.dirs
      ensures v.rows[id].workspace.name in v.dirs
    {
      var n := v.rows[id].workspace.name;
      DanglesIff(w, env, id, n);
      OrderlyRow(w.rows[id], env);
      CleanedPath(AfterRecovery(w.rows[id], env), w.dirs, env);
      forall other | other in w.rows && other != id
        ensures AfterRecovery(w.rows[other], env).workspace != Under(n)
      {
        OrderlyRow(w.rows[other], env);
      }
    }
    forall n | n in v.dirs && FateOf(env, n).Goes?
      ensures exists id :: id in v.rows && v.rows[id].workspace == Under(n) && Preserved(v.rows[id], env)
    {
      StillKept(w, env, n);
    }
  }

  /** A row with a state outside both lists, or final and leased: neither cleaned nor kept */
  predicate Overlooked(r: Row, env: Env)
  {
    r.state !in INACTIVE + ACTIVE || (r.state in {"failed", "resolved", "archived"} && Leased(r, env.now))
  }

  lemma {:induction false} OverlookedIs(r: Row, env: Env)
    requires r.workspace != NoPath
    ensures var a := AfterRecovery(r, env);
            Overlooked(r, env) <==> a.workspace == r.workspace && !Cleans(a, env) && !Keeps(a, env)
  {
  }

  /** A row that has a workspace to itself is left pointing nowhere exactly when it is overlooked. */
  lemma {:induction false} LoneRowDanglesIff(w: World, env: Env, id: string, name: string)
    requires id in w.rows && name in w.dirs && FateOf(env, name).Goes? && w.rows[id].workspace == Under(name)
    requires forall other | other in w.rows && other != id :: w.rows[other].workspace != Under(name)
    ensures var v := Pass(w, env);
            id in v.rows && (v.rows[id].workspace == Under(name) && name !in v.dirs <==> Overlooked(w.rows[id], env))
  {
    hide Pass, AfterRecovery, Cleans, Keeps, FateOf, Overlooked;
    DanglesIff(w, env, id, name);
    OverlookedIs(w.rows[id], env);
    RecoveryMovesNothing(w.rows[id], env);
    forall other | other in w.rows && other != id ensures AfterRecovery(w.rows[other], env).workspace != Under(name) {
      RecoveryMovesNothing(w.rows[other], env);
    }
  }

  lemma {:induction false} RecoveryMovesNothing(r: Row, env: Env)
    ensures AfterRecovery(r, env).workspace == NoPath || AfterRecovery(r, env).workspace == r.workspace
  {
  }

  lemma {:induction false} CleanedPath(r: Row, dirs: set<string>, env: Env)
    ensures var c := CleanedRow(r, dirs, env); c.workspace != NoPath ==> c == r
  {
  }

  /** Whatever else is in the table, a directory that remains though it could go is kept by some row. */
  lemma {:induction false} StillKept(w: World, env: Env, name: string)
    requires name in Pass(w, env).dirs && FateOf(env, name).Goes?
    ensures var v := Pass(w, env); exists id :: id in v.rows && v.rows[id].workspace == Under(name) && Preserved(v.rows[id], env)
  {
    hide Pass, AfterRecovery, Cleans, Keeps, FateOf, Leased, Preserved, CleanedRow;
    PassIs(w, env);
    var id :| id in w.rows && Keeps(AfterRecovery(w.rows[id], env), env) && AfterRecovery(w.rows[id], env).workspace == Under(name);
    KeepsIs(AfterRecovery(w.rows[id], env), w.dirs, env, name);
  }

  lemma {:induction false} AgainRow(r: Row, dirs: set<string>, later: set<string>, env: Env)
    requires forall n | n in dirs && !FateOf(env, n).Goes? :: n in later
    ensures var c := CleanedRow(AfterRecovery(r, env), dirs, env);
            AfterRecovery(c, env) == c && CleanedRow(c, later, env) == c
            && (Cleans(c, env) ==> c == AfterRecovery(r, env))
  {
    hide FateOf;
  }

  lemma {:induction false} SecondPassDirs(w: World, env: Env, n: string)
    requires n in Pass(w, env).dirs && FateOf(env, n).Goes?
    ensures !Taken(Pass(w, env), env, n) && Kept(Pass(w, env), env, n)
  {
    hide Pass, AfterRecovery, Cleans, Keeps, FateOf, Leased, Preserved, CleanedRow;
    var v := Pass(w, env);
    PassIs(w, env);
    forall id | id in w.rows
      ensures AfterRecovery(v.rows[id], env) == v.rows[id]
      ensures Cleans(v.rows[id], env) ==> v.rows[id] == AfterRecovery(w.rows[id], env)
      ensures Keeps(AfterRecovery(w.rows[id], env), env) && AfterRecovery(w.rows[id], env).workspace == Under(n) ==>
                v.rows[id] == AfterRecovery(w.rows[id], env)
    {
      AgainRow(w.rows[id], w.dirs, v.dirs, env);
      KeepsIs(AfterRecovery(w.rows[id], env), w.dirs, env, n);
      CleanedPath(AfterRecovery(w.rows[id], env), w.dirs, env);
    }
  }

  /** A second pass at the same time changes nothing. */
  lemma {:induction false} SecondPassIsIdle(w: World, env: Env)
    ensures Pass(Pass(w, env), env) == Pass(w, env)
  {
    hide Pass, AfterRecovery, Cleans, Keeps, FateOf, Leased, Preserved, CleanedRow, Taken, Kept;
    var v := Pass(w, env);
    PassIs(w, env);
    PassIs(v, env);
    forall id | id in w.rows ensures CleanedRow(AfterRecovery(v.rows[id], env), v.dirs, env) == v.rows[id] {
      AgainRow(w.rows[id], w.dirs, v.dirs, env);
    }
    forall n | n in v.dirs && FateOf(env, n).Goes? ensures !Taken(v, env, n) && Kept(v, env, n) {
      SecondPassDirs(w, env, n);
    }
  }

  // ---------- single rows ----------

  /** The lease of a row: live while its expiry lies ahead; without an expiry, as long as it has an owner. */
  lemma {:induction false} LeasedIs(r: Row, now: int)
    ensures r.expires.Some? ==> (Leased(r, now) <==> now < r.expires.value)
    ensures r.expires.None? ==> (Leased(r, now) <==> r.owner != "")
  {
  }

  /** A row at work with a live lease that belongs to the current worker session, or to nobody, is left alone. */
  lemma {:induction false} OwnRowIsLeftAlone(w: World, env: Env, id: string)
    requires id in w.rows && w.rows[id].state in {"claimed", "running", "verify_pending"} && Leased(w.rows[id], env.now)
    requires w.rows[id].owner == env.worker || w.rows[id].owner == "" || env.worker == ""
    ensures id in Pass(w, env).rows && Pass(w, env).rows[id] == w.rows[id]
  {
    hide Pass, FateOf, Removable;
    PassIs(w, env);
  }

  /** A row at work of another worker session, with a workspace and a live lease, is queued without workspace and lease. */
  lemma {:induction false} StaleRowIsQueued(w: World, env: Env, id: string)
    requires id in w.rows && w.rows[id].state in {"claimed", "running", "verify_pending"} && Leased(w.rows[id], env.now)
    requires env.worker != "" && w.rows[id].owner != "" && w.rows[id].owner != env.worker && w.rows[id].workspace != NoPath
    ensures id in Pass(w, env).rows && Pass(w, env).rows[id] == Row("queued", NoPath, "", None)
  {
    hide Pass, FateOf, Removable;
    PassIs(w, env);
  }

  /** A row in one of the seven inactive states keeps everything while it is leased; without a lease it loses its workspace,
      and nothing else, exactly when the removal comes back without an exception. */
  lemma {:induction false} InactiveRowIs(w: World, env: Env, id: string)
    requires id in w.rows
    requires w.rows[id].state in {"queued", "failed", "resolved", "archived", "blocked", "pr_pending_approval", "pr_open"}
    ensures var r, v := w.rows[id], Pass(w, env);
            && id in v.rows
            && (Leased(r, env.now) ==> v.rows[id] == r)
            && (!Leased(r, env.now) ==>
                  v.rows[id] == if r.workspace.Under? && !(r.workspace.name in w.dirs && FateOf(env, r.workspace.name) == Raises)
                  then r.(workspace := NoPath) else r)
  {
    hide Pass, FateOf, Leased;
    PassIs(w, env);
  }

  /** A row in any other state is left alone. */
  lemma {:induction false} OtherRowIsLeftAlone(w: World, env: Env, id: string)
    requires id in w.rows && w.rows[id].state !in {"claimed", "running", "verify_pending"}
    requires w.rows[id].state !in {"queued", "failed", "resolved", "archived", "blocked", "pr_pending_approval", "pr_open"}
    ensures id in Pass(w, env).rows && Pass(w, env).rows[id] == w.rows[id]
  {
    hide Pass, FateOf, Leased;
    PassIs(w, env);
  }

  /** A directory that some row keeps, and no other row of it loses, is there after the pass. */
  lemma {:induction false} KeptDirectoryStays(w: World, env: Env, id: string, name: string)
    requires id in w.rows && w.rows[id].workspace == Under(name) && name in w.dirs
    requires forall other | other in w.rows && other != id :: w.rows[other].workspace != Under(name)
    requires Leased(w.rows[id], env.now)
    requires w.rows[id].state in {"queued", "blocked", "pr_pending_approval", "pr_open"}
             || (w.rows[id].state in {"claimed", "running", "verify_pending"} && (w.rows[id].owner == env.worker || w.rows[id].owner == "" || env.worker == ""))
    ensures name in Pass(w, env).dirs
  {
    hide Pass, FateOf;
    PassIs(w, env);
    var a := AfterRecovery(w.rows[id], env);
    assert a == w.rows[id] && Keeps(a, env) && !Cleans(a, env);
    forall other | other in w.rows && other != id ensures AfterRecovery(w.rows[other], env).workspace != Under(name) {
      RecoveryMovesNothing(w.rows[other], env);
    }
    assert Kept(w, env, name);
  }
}
