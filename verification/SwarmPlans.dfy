/** What the plans and outcomes of a recovery are made of, field by field (src/flow_healer/healer_swarm.py). */
module SwarmPlans {
  import opened Wrappers
  import opened Text
  import opened SwarmBackend
  import opened SwarmRecovery

  // ---------- the manager's plan ----------

  lemma {:induction false} CleanListMembers(values: seq<string>, x: string)
    ensures x in CleanList(values) <==> x != "" && exists i :: 0 <= i < |values| && Trim(values[i]) == x
  {
    hide Trim;
    if values != [] {
      var n := |values| - 1;
      CleanListMembers(values[..n], x);
      if i :| 0 <= i < n && Trim(values[..n][i]) == x { assert Trim(values[i]) == x; }
      if i :| 0 <= i < |values| && Trim(values[i]) == x {
        if i < n { assert values[..n][i] == values[i]; }
      }
    }
  }

  /** The order of the texts is kept. */
  lemma {:induction false} CleanListConcat(a: seq<string>, b: seq<string>)
    ensures CleanList(a + b) == CleanList(a) + CleanList(b)
  {
    hide Trim;
    if b == [] {
      assert a + b == a;
    } else {
      var n := |b| - 1;
      assert (a + b)[..|a + b| - 1] == a + b[..n];
      CleanListConcat(a, b[..n]);
    }
  }

  /** A usable reply of the manager is the plan: the strategy it names, stripped and in lower case, where it is one of the
      four, and else repair; its summary or a default; its cause and lists, stripped. */
  lemma {:induction false} ManagerPlanIs(manager: SubagentResult, analyzers: seq<SubagentResult>)
    requires manager.success && manager.parsed.Some?
    ensures var plan, reply := PlanFor(manager, analyzers), manager.parsed.value;
            && (var named := Lower(Trim(reply.strategy));
                plan.strategy == if named in {"retry_prompt_only", "quarantine", "infra_pause"} then named else "repair")
            && (Trim(reply.summary) != "" ==> plan.summary == Trim(reply.summary))
            && plan.rootCause == Trim(reply.rootCause)
            && plan.editScope == CleanList(reply.editScope) && plan.targetedTests == CleanList(reply.targetedTests)
            && plan.validationFocus == CleanList(reply.validationFocus)
  {
    hide Trim, Lower, CleanList;
  }

  // ---------- the fallback plan ----------

  /** Without a usable reply the analyzers' findings are the plan. */
  lemma {:induction false} FallbackIsThePlan(manager: SubagentResult, analyzers: seq<SubagentResult>)
    requires !(manager.success && manager.parsed.Some?)
    ensures PlanFor(manager, analyzers) == Fallback(analyzers)
  {
    hide Fallback, CoercePlan;
  }

  /** For every list of results: the fallback quarantines exactly when some scope guard asks for quarantine or disallows
      repair, and repairs otherwise. */
  lemma {:induction false} FallbackStrategyIff(results: seq<SubagentResult>)
    ensures Fallback(results).strategy == "quarantine" <==>
            exists i :: 0 <= i < |results| && results[i].role == "scope-guard" && results[i].parsed.Some?
                        && (results[i].parsed.value.shouldQuarantine || results[i].parsed.value.allowRepair == Some(false))
    ensures Fallback(results).strategy in {"quarantine", "repair"}
  {
    hide Vetoed, All, Unique, FirstTwo;
    VetoedIff(results);
  }

  lemma {:induction false} AllMembers(results: seq<SubagentResult>, part: SubagentResult -> seq<string>, x: string)
    ensures x in All(results, part) <==> exists i :: 0 <= i < |results| && x in part(results[i])
  {
    if results != [] {
      var n := |results| - 1;
      AllMembers(results[..n], part, x);
      if i :| 0 <= i < n && x in part(results[..n][i]) { assert x in part(results[i]); }
      if i :| 0 <= i < |results| && x in part(results[i]) {
        if i < n { assert results[..n][i] == results[i]; }
      }
    }
  }

  lemma {:induction false} UniqueMembers(values: seq<string>, x: string)
    requires Clean(values)
    ensures x in Unique(values) <==> x in values
  {
    hide Trim, Trimmed, Unique;
    UniqueIs(values);
    forall i | 0 <= i < |values| ensures Trim(values[i]) == values[i] && values[i] != "" {
      assert values[i] in values;
      TrimFixed(values[i]);
    }
  }

  /** The first appearance decides the order: more values only add at the end. */
  lemma {:induction false} UniqueInOrder(a: seq<string>, b: seq<string>)
    ensures Unique(a) <= Unique(a + b)
  {
    hide Trim;
    if b == [] {
      assert a + b == a;
    } else {
      var n := |b| - 1;
      assert (a + b)[..|a + b| - 1] == a + b[..n];
      UniqueInOrder(a, b[..n]);
    }
  }

  lemma {:induction false} PartClean(r: SubagentResult)
    ensures Clean(Scope(r)) && Clean(Tests(r)) && Clean(Surfaces(r))
  {
    hide Trim, Trimmed, CleanList, Clean;
    if r.parsed.Some? {
      CleanListIs(r.parsed.value.editScope);
      CleanListIs(r.parsed.value.likelyPaths);
      CleanListIs(r.parsed.value.targetedTests);
      CleanListIs(r.parsed.value.failingSurfaces);
    } else {
      NothingClean();
    }
  }

  lemma {:induction false} NothingClean()
    ensures Clean([])
  {
  }

  lemma {:induction false} AllClean(results: seq<SubagentResult>, part: SubagentResult -> seq<string>)
    requires forall r :: Clean(part(r))
    ensures Clean(All(results, part))
  {
    hide Trimmed;
    forall x | x in All(results, part) ensures x != "" && Trimmed(x) {
      AllMembers(results, part, x);
      var i :| 0 <= i < |results| && x in part(results[i]);
      assert Clean(part(results[i]));
    }
  }

  lemma {:induction false} PartsClean(results: seq<SubagentResult>)
    ensures Clean(All(results, Scope)) && Clean(All(results, Tests)) && Clean(All(results, Surfaces))
  {
    hide Clean, All, Scope, Tests, Surfaces;
    forall r ensures Clean(Scope(r)) && Clean(Tests(r)) && Clean(Surfaces(r)) { PartClean(r); }
    AllClean(results, Scope);
    AllClean(results, Tests);
    AllClean(results, Surfaces);
  }

  /** Some value of the list is `x`, once stripped. */
  predicate Names(values: seq<string>, x: string) { exists i :: 0 <= i < |values| && Trim(values[i]) == x }

  /** The lists of the fallback hold exactly the stripped texts, other than blank ones, of these fields of the replies:
      scope from the scope guard's `edit_scope` and everybody else's `likely_paths`, tests from `targeted_tests`, focus
      from `failing_surfaces`. */
  lemma {:induction false} FallbackListsAre(results: seq<SubagentResult>, x: string)
    requires x != ""
    ensures x in Fallback(results).editScope <==>
            exists i :: 0 <= i < |results| && results[i].parsed.Some?
                        && Names(if results[i].role == "scope-guard" then results[i].parsed.value.editScope
                                 else results[i].parsed.value.likelyPaths, x)
    ensures x in Fallback(results).targetedTests <==>
            exists i :: 0 <= i < |results| && results[i].parsed.Some? && Names(results[i].parsed.value.targetedTests, x)
    ensures x in Fallback(results).validationFocus <==>
            exists i :: 0 <= i < |results| && results[i].parsed.Some? && Names(results[i].parsed.value.failingSurfaces, x)
    ensures "" !in Fallback(results).editScope && "" !in Fallback(results).targetedTests && "" !in Fallback(results).validationFocus
  {
    hide Vetoed, All, Unique, FirstTwo, Trim, Trimmed, CleanList, Clean, Names, Scope, Tests, Surfaces;
    ScopeIs(results, x);
    TestsAre(results, x);
    FocusIs(results, x);
    PartsClean(results);
    NoBlank(All(results, Scope));
    NoBlank(All(results, Tests));
    NoBlank(All(results, Surfaces));
    UniqueMembers(All(results, Scope), x);
    UniqueMembers(All(results, Tests), x);
    UniqueMembers(All(results, Surfaces), x);
  }

  lemma {:induction false} NoBlank(values: seq<string>)
    ensures "" !in Unique(values)
  {
    hide Trim;
    UniqueIs(values);
  }

  lemma {:induction false} ScopeIs(results: seq<SubagentResult>, x: string)
    requires x != ""
    ensures x in All(results, Scope) <==>
            exists i :: 0 <= i < |results| && results[i].parsed.Some?
                        && Names(if results[i].role == "scope-guard" then results[i].parsed.value.editScope
                                 else results[i].parsed.value.likelyPaths, x)
  {
    hide Trim, CleanList;
    AllMembers(results, Scope, x);
    forall i | 0 <= i < |results| && results[i].parsed.Some?
      ensures x in Scope(results[i]) <==>
              Names(if results[i].role == "scope-guard" then results[i].parsed.value.editScope else results[i].parsed.value.likelyPaths, x)
    {
      CleanListMembers(results[i].parsed.value.editScope, x);
      CleanListMembers(results[i].parsed.value.likelyPaths, x);
    }
  }

  lemma {:induction false} TestsAre(results: seq<SubagentResult>, x: string)
    requires x != ""
    ensures x in All(results, Tests) <==>
            exists i :: 0 <= i < |results| && results[i].parsed.Some? && Names(results[i].parsed.value.targetedTests, x)
  {
    hide Trim, CleanList;
    AllMembers(results, Tests, x);
    forall i | 0 <= i < |results| && results[i].parsed.Some?
      ensures x in Tests(results[i]) <==> Names(results[i].parsed.value.targetedTests, x)
    {
      CleanListMembers(results[i].parsed.value.targetedTests, x);
    }
  }

  lemma {:induction false} FocusIs(results: seq<SubagentResult>, x: string)
    requires x != ""
    ensures x in All(results, Surfaces) <==>
            exists i :: 0 <= i < |results| && results[i].parsed.Some? && Names(results[i].parsed.value.failingSurfaces, x)
  {
    hide Trim, CleanList;
    AllMembers(results, Surfaces, x);
    forall i | 0 <= i < |results| && results[i].parsed.Some?
      ensures x in Surfaces(results[i]) <==> Names(results[i].parsed.value.failingSurfaces, x)
    {
      CleanListMembers(results[i].parsed.value.failingSurfaces, x);
    }
  }

  /** What a result gives as its cause: the stripped reason or, where there is none, the missed root cause */
  function Reason(r: SubagentResult): string
  {
    if r.parsed.None? then "" else if r.parsed.value.reason != "" then Trim(r.parsed.value.reason) else Trim(r.parsed.value.missedRootCause)
  }

  lemma {:induction false} NoCauses(results: seq<SubagentResult>)
    requires forall i | 0 <= i < |results| :: Reason(results[i]) == ""
    ensures All(results, Causes) == []
  {
    hide Trim;
    if results != [] { NoCauses(results[..|results| - 1]); }
  }

  lemma {:induction false} AllConcat(a: seq<SubagentResult>, b: seq<SubagentResult>, part: SubagentResult -> seq<string>)
    ensures All(a + b, part) == All(a, part) + All(b, part)
  {
    if b == [] {
      assert a + b == a;
    } else {
      var n := |b| - 1;
      assert (a + b)[..|a + b| - 1] == a + b[..n];
      AllConcat(a, b[..n], part);
    }
  }

  lemma {:induction false} OneCause(r: SubagentResult)
    ensures All([r], Causes) == if Reason(r) == "" then [] else [Reason(r)]
  {
    hide Trim;
    assert [r][..0] == [];
  }

  /** The root cause of the fallback: nothing without a cause, the only cause, or the first two with a blank between. */
  lemma {:induction false} FallbackCauseIs(a: seq<SubagentResult>, r: SubagentResult, b: seq<SubagentResult>, q: SubagentResult, c: seq<SubagentResult>)
    requires Reason(r) != "" && Reason(q) != ""
    requires (forall i | 0 <= i < |a| :: Reason(a[i]) == "") && (forall i | 0 <= i < |b| :: Reason(b[i]) == "")
    ensures Fallback(a).rootCause == ""
    ensures Fallback(a + [r] + b).rootCause == Reason(r)
    ensures Fallback(a + [r] + b + [q] + c).rootCause == Reason(r) + " " + Reason(q)
  {
    hide Trim, Trimmed, Vetoed, Unique, Reason, Causes, All;
    NoCauses(a);
    NoCauses(b);
    OneCause(r);
    OneCause(q);
    AllConcat(a, [r], Causes);
    AllConcat(a + [r], b, Causes);
    AllConcat(a + [r] + b, [q], Causes);
    AllConcat(a + [r] + b + [q], c, Causes);
    ReasonTrimmed(r);
    ReasonTrimmed(q);
    var x, y := Reason(r), Reason(q);
    assert All(a + [r] + b, Causes) == [x];
    assert All(a + [r] + b + [q] + c, Causes) == [x, y] + All(c, Causes);
    FirstTwoIs(x, y, All(c, Causes));
  }

  lemma {:induction false} ReasonTrimmed(r: SubagentResult)
    ensures Trimmed(Reason(r))
  {
    hide Trim, Trimmed;
    if r.parsed.Some? {
      TrimTrimmed(r.parsed.value.reason);
      TrimTrimmed(r.parsed.value.missedRootCause);
    } else {
      EmptyTrimmed();
    }
  }

  lemma {:induction false} EmptyTrimmed()
    ensures Trimmed("")
  {
  }

  lemma {:induction false} FirstTwoIs(x: string, y: string, rest: seq<string>)
    requires x != "" && y != "" && Trimmed(x) && Trimmed(y)
    ensures FirstTwo([]) == "" && FirstTwo([x]) == x && FirstTwo([x, y] + rest) == x + " " + y
  {
    hide Trim;
    var both := x + " " + y;
    assert both[0] == x[0] && both[|both| - 1] == y[|y| - 1];
    TrimFixed(both);
    TrimFixed(x);
    TrimFixed("");
    assert [x, y][1..] == [y] && Join([y], " ") == y;
    assert Join([x, y], " ") == x + " " + y;
    if rest == [] { assert [x, y] + rest == [x, y]; } else { assert ([x, y] + rest)[..2] == [x, y]; }
  }

  // ---------- outcomes ----------

  /** What the manager and the repair turn gave is what is used: a usable reply of the manager is the plan, the repair's
      raw output is the repair output, and the evaluation decides the rest. */
  lemma {:induction false} OutcomeTells(o: Outcome, trace: seq<Event>, clock: Clock, turns: Turns)
    requires Agrees(o, trace, clock, turns)
    ensures Count(trace).recoveryTimeouts == 0 ==>
              && turns.manager.Returned?
              && o.plan == PlanFor(SubagentResult("recovery-manager", turns.manager.raw, turns.manager.parsed, turns.manager.success, turns.manager.error), o.analyzers)
    ensures Count(trace).evaluations > 0 ==>
              && turns.repair.Returned? && o.repairOutput == turns.repair.raw
              && turns.evaluation.Ok? && o.recovered == turns.evaluation.value.success
              && (if o.recovered then o.failureClass == "" && o.failureReason == ""
                  else o.failureClass == turns.evaluation.value.failureClass && o.failureReason == turns.evaluation.value.failureReason)
    ensures Count(trace).recoveryTimeouts > 0 ==>
              && o.failureClass == "swarm_timeout" && o.strategy == "quarantine" && o.repairOutput == "" && !o.recovered
              && o.plan == Fallback(o.analyzers).(strategy := "quarantine", summary := o.failureReason) && o.summary == o.failureReason
  {
    hide Drive, Count, Fallback, PlanFor, AnyTimeout, IsTimeout;
  }

  /** Recovery, spelled out: every deadline is kept, no result is a time-out, the manager and the repair turn return, the plan
      is to repair, and the evaluation comes back with success. */
  lemma {:induction false} RecoversIff(clock: Clock, analyzers: seq<SubagentResult>, turns: Turns)
    ensures Recovers(clock, analyzers, turns) <==>
            && !clock.beforeFanout && !clock.afterAnalysis && !clock.beforePlanning && !clock.beforeRepair && !clock.afterRepair
            && (forall i | 0 <= i < |analyzers| :: !IsTimeout(analyzers[i]))
            && turns.manager.Returned? && !IsTimeout(ManagerResult(turns))
            && PlanFor(ManagerResult(turns), analyzers).strategy == "repair"
            && turns.repair.Returned? && !IsTimeout(RepairResult(turns))
            && turns.evaluation.Ok? && turns.evaluation.value.success
  {
    hide IsTimeout, PlanFor, ResultOf;
  }

  /** Where a run can raise, spelled out: a turn raises only if every deadline before it is kept and no result before it is a
      time-out; the repair turn and the evaluation only under a plan to repair. */
  lemma {:induction false} CrashesIff(clock: Clock, analyzers: seq<SubagentResult>, turns: Turns)
    ensures var reached := !clock.beforeFanout && !clock.afterAnalysis && !clock.beforePlanning
                           && forall i | 0 <= i < |analyzers| :: !IsTimeout(analyzers[i]);
            var repairs := reached && turns.manager.Returned? && !IsTimeout(ManagerResult(turns))
                           && PlanFor(ManagerResult(turns), analyzers).strategy == "repair" && !clock.beforeRepair;
            && (CrashesIn(ManagerTurn, clock, analyzers, turns) <==> reached && turns.manager.Crashed?)
            && (CrashesIn(RepairTurn, clock, analyzers, turns) <==> repairs && turns.repair.Crashed?)
            && (CrashesIn(EvaluationTurn, clock, analyzers, turns) <==>
                repairs && turns.repair.Returned? && !IsTimeout(RepairResult(turns)) && !clock.afterRepair && turns.evaluation.Raised?)
  {
    hide IsTimeout, PlanFor, ResultOf;
  }

  /** The results of the two later turns carry what the turns gave. */
  lemma {:induction false} TurnResultsAre(turns: Turns)
    ensures ManagerResult(turns).role == "recovery-manager" && RepairResult(turns).role == "repair-executor"
    ensures turns.manager.Returned? ==> Gives(turns.manager, ManagerResult(turns))
    ensures turns.repair.Returned? ==> Gives(turns.repair, RepairResult(turns))
  {
  }
}
