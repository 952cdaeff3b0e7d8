/** The staged recovery of src/flow_healer/healer_swarm.py: analysis, planning, repair, evaluation.
    Whether a deadline has passed at each place that looks at it is a free choice, as are the replies. */
module SwarmRecovery {
  import opened Wrappers
  import opened Text
  import opened SwarmBackend

  datatype Plan = Plan(strategy: string, summary: string, rootCause: string,
                       editScope: seq<string>, targetedTests: seq<string>, validationFocus: seq<string>)

  datatype Outcome = Outcome(recovered: bool, strategy: string, summary: string, analyzers: seq<SubagentResult>, plan: Plan,
                             repairOutput: string, failureClass: string, failureReason: string)

  datatype Evaluation = Evaluation(success: bool, failureClass: string, failureReason: string)

  /** Whether the recovery deadline has passed (before the repair: less than 30 seconds are left) */
  datatype Clock = Clock(beforeFanout: bool, afterAnalysis: bool, beforePlanning: bool, beforeRepair: bool, afterRepair: bool)

  datatype Stage = Analysis | Planning | Repair

  /** The telemetry events, and the two actions they frame: a repair turn that has run and an evaluation that has
      come back */
  datatype Event =
    | Started
    | RoleCompleted(stage: Stage, role: string)
    | RoleTimeout(stage: Stage, role: string)
    | PlanReady(strategy: string)
    | RepairRun
    | Evaluated(success: bool)
    | RecoveryTimeout(stage: Stage)
    | Finished(recovered: bool)

  // ---------- plans ----------

  const REPAIR := "repair"
  const QUARANTINE := "quarantine"
  const SCOPE_GUARD := "scope-guard"
  const MANAGER := "recovery-manager"
  const EXECUTOR := "repair-executor"
  const GO_AHEAD := "Swarm synthesized a conservative repair plan."
  const OBJECTION := "Swarm found scope or safety evidence that argues against direct repair."

  /** `_coerce_str_list` */
  function CleanList(values: seq<string>): seq<string>
  {
    if values == [] then []
    else
      var last, front := Trim(values[|values| - 1]), CleanList(values[..|values| - 1]);
      if last == "" then front else front + [last]
  }

  function KnownStrategy(s: string): string
  {
    if s == "retry_prompt_only" || s == QUARANTINE || s == "infra_pause" then s else REPAIR
  }

  /** `_coerce_recovery_plan` */
  function CoercePlan(reply: Reply): Plan
  {
    Plan(KnownStrategy(Lower(Trim(reply.strategy))),
         if Trim(reply.summary) == "" then "Swarm recovery plan generated." else Trim(reply.summary),
         Trim(reply.rootCause),
         CleanList(reply.editScope), CleanList(reply.targetedTests), CleanList(reply.validationFocus))
  }

  /** Every value once, stripped, without blanks, in the order of first appearance */
  function Unique(values: seq<string>): seq<string>
  {
    if values == [] then []
    else
      var last, front := Trim(values[|values| - 1]), Unique(values[..|values| - 1]);
      if last == "" || last in front then front else front + [last]
  }

  lemma {:induction false} UniqueIs(values: seq<string>)
    ensures forall i, j | 0 <= i < j < |Unique(values)| :: Unique(values)[i] != Unique(values)[j]
    ensures forall x :: x in Unique(values) <==> x != "" && exists i :: 0 <= i < |values| && Trim(values[i]) == x
  {
    hide Trim;
    if values != [] {
      var front, last := values[..|values| - 1], Trim(values[|values| - 1]);
      UniqueIs(front);
      forall x ensures x in Unique(values) <==> x != "" && exists i :: 0 <= i < |values| && Trim(values[i]) == x {
        if x != "" && x in Unique(front) {
          var i :| 0 <= i < |front| && Trim(front[i]) == x;
          assert values[i] == front[i];
        }
        if i :| 0 <= i < |values| && Trim(values[i]) == x {
          if i < |values| - 1 { assert front[i] == values[i]; }
        }
      }
    }
  }

  /** `_unique_preserve_order` */
  method UniquePreserveOrder(values: seq<string>) returns (unique: seq<string>)
    ensures unique == Unique(values)
  {
    hide Trim;
    var seen: set<string> := {};
    unique := [];
    for i := 0 to |values|
      invariant unique == Unique(values[..i])
      invariant forall x :: x in seen <==> x in unique
    {
      var cleaned := Trim(values[i]);
      assert values[..i + 1][..i] == values[..i];
      if cleaned == "" || cleaned in seen { continue; }
      seen := seen + {cleaned};
      unique := unique + [cleaned];
    }
    assert values[..|values|] == values;
  }

  predicate Vetoes(r: SubagentResult)
  {
    r.role == SCOPE_GUARD && r.parsed.Some? && (r.parsed.value.shouldQuarantine || r.parsed.value.allowRepair == Some(false))
  }

  predicate Vetoed(results: seq<SubagentResult>) { exists i :: 0 <= i < |results| && Vetoes(results[i]) }

  /** The scope, tests, surfaces and causes that one analyzer contributes */
  function Scope(r: SubagentResult): seq<string>
  {
    if r.parsed.None? then []
    else CleanList(if r.role == SCOPE_GUARD then r.parsed.value.editScope else r.parsed.value.likelyPaths)
  }

  function Tests(r: SubagentResult): seq<string> { if r.parsed.None? then [] else CleanList(r.parsed.value.targetedTests) }

  function Surfaces(r: SubagentResult): seq<string> { if r.parsed.None? then [] else CleanList(r.parsed.value.failingSurfaces) }

  function Cause(r: SubagentResult): string
  {
    if r.parsed.None? then ""
    else Trim(if r.parsed.value.reason != "" then r.parsed.value.reason else r.parsed.value.missedRootCause)
  }

  function Causes(r: SubagentResult): seq<string> { if Cause(r) == "" then [] else [Cause(r)] }

  function All(results: seq<SubagentResult>, part: SubagentResult -> seq<string>): seq<string>
  {
    if results == [] then [] else All(results[..|results| - 1], part) + part(results[|results| - 1])
  }

  function FirstTwo(causes: seq<string>): string { Trim(Join(if |causes| <= 2 then causes else causes[..2], " ")) }

  /** What `_fallback_recovery_plan` gives: repair unless the scope guard objects */
  function Fallback(results: seq<SubagentResult>): Plan
  {
    Plan(if Vetoed(results) then QUARANTINE else REPAIR,
         if Vetoed(results) then OBJECTION
         else GO_AHEAD,
         FirstTwo(All(results, Causes)),
         Unique(All(results, Scope)), Unique(All(results, Tests)), Unique(All(results, Surfaces)))
  }

  lemma {:induction false} VetoedStep(results: seq<SubagentResult>, i: nat)
    requires i < |results|
    ensures Vetoed(results[..i + 1]) <==> Vetoed(results[..i]) || Vetoes(results[i])
  {
    hide Vetoes;
    assert results[..i + 1] == results[..i] + [results[i]];
    if Vetoes(results[i]) { assert Vetoes(results[..i + 1][i]); }
    if Vetoed(results[..i]) {
      var j :| 0 <= j < i && Vetoes(results[..i][j]);
      assert Vetoes(results[..i + 1][j]);
    }
  }

  lemma {:induction false} AllStep(results: seq<SubagentResult>, i: nat, part: SubagentResult -> seq<string>)
    requires i < |results|
    ensures All(results[..i + 1], part) == All(results[..i], part) + part(results[i])
  {
    assert results[..i + 1][..i] == results[..i];
  }

  /** `_fallback_recovery_plan` */
  method FallbackRecoveryPlan(results: seq<SubagentResult>) returns (plan: Plan)
    ensures plan == Fallback(results)
  {
    hide Vetoed, All, Unique, FirstTwo, Trim, CleanList;
    var strategy := REPAIR;
    var editScope, targetedTests, validationFocus, causes := [], [], [], [];
    assert results[..0] == [];
    NothingYet();
    for i := 0 to |results|
      invariant strategy == if Vetoed(results[..i]) then QUARANTINE else REPAIR
      invariant editScope == All(results[..i], Scope) && targetedTests == All(results[..i], Tests)
      invariant validationFocus == All(results[..i], Surfaces) && causes == All(results[..i], Causes)
    {
      var r := results[i];
      VetoedStep(results, i);
      AllStep(results, i, Scope);
      AllStep(results, i, Tests);
      AllStep(results, i, Surfaces);
      AllStep(results, i, Causes);
      if Vetoes(r) { strategy := QUARANTINE; }
      editScope := editScope + Scope(r);
      targetedTests := targetedTests + Tests(r);
      validationFocus := validationFocus + Surfaces(r);
      causes := causes + Causes(r);
    }
    assert results[..|results|] == results;
    var summary := if strategy == REPAIR then GO_AHEAD
    else OBJECTION;
    editScope := UniquePreserveOrder(editScope);
    targetedTests := UniquePreserveOrder(targetedTests);
    validationFocus := UniquePreserveOrder(validationFocus);
    plan := Plan(strategy, summary, FirstTwo(causes), editScope, targetedTests, validationFocus);
  }

  lemma {:induction false} NothingYet()
    ensures !Vetoed([]) && All([], Scope) == All([], Tests) == All([], Surfaces) == All([], Causes) == []
  {
  }

  /** The manager's reply is used when the run succeeded with a reply that is not empty. */
  predicate Usable(manager: SubagentResult) { manager.success && manager.parsed.Some? }

  function PlanFor(manager: SubagentResult, analyzers: seq<SubagentResult>): Plan
  {
    if Usable(manager) then CoercePlan(manager.parsed.value) else Fallback(analyzers)
  }

  /** A list of results is vetoed exactly when some scope guard among them asks for quarantine or disallows repair. */
  lemma {:induction false} VetoedIff(results: seq<SubagentResult>)
    ensures Vetoed(results) <==>
            exists i :: 0 <= i < |results| && results[i].role == "scope-guard" && results[i].parsed.Some?
                        && (results[i].parsed.value.shouldQuarantine || results[i].parsed.value.allowRepair == Some(false))
  {
    assert forall i | 0 <= i < |results| :: Vetoes(results[i]) <==>
                                            results[i].role == "scope-guard" && results[i].parsed.Some?
                                            && (results[i].parsed.value.shouldQuarantine || results[i].parsed.value.allowRepair == Some(false));
  }

  /** A plan names one of the four strategies, whatever the reply says; anything unknown means repair. */
  lemma {:induction false} StrategyIsKnown(manager: SubagentResult, analyzers: seq<SubagentResult>)
    ensures PlanFor(manager, analyzers).strategy in {REPAIR, "retry_prompt_only", QUARANTINE, "infra_pause"}
    ensures !(manager.success && manager.parsed.Some?) ==>
              (PlanFor(manager, analyzers).strategy == "quarantine" <==>
               exists i :: 0 <= i < |analyzers| && analyzers[i].role == "scope-guard" && analyzers[i].parsed.Some?
                           && (analyzers[i].parsed.value.shouldQuarantine || analyzers[i].parsed.value.allowRepair == Some(false)))
    ensures !(manager.success && manager.parsed.Some?) ==> PlanFor(manager, analyzers).strategy in {"repair", "quarantine"}
  {
    hide Trim, Lower, CleanList, Unique, All, FirstTwo, Vetoes;
    VetoedIff(analyzers);
  }

  /** Only stripped texts that are not blank */
  predicate Clean(values: seq<string>) { forall x | x in values :: x != "" && Trimmed(x) }

  lemma {:induction false} CleanListIs(values: seq<string>)
    ensures Clean(CleanList(values))
    ensures forall i | 0 <= i < |values| && Trim(values[i]) != "" :: Trim(values[i]) in CleanList(values)
  {
    hide Trim, Trimmed;
    if values != [] {
      var n := |values| - 1;
      CleanListIs(values[..n]);
      TrimTrimmed(values[n]);
    }
  }

  lemma {:induction false} UniqueIsClean(values: seq<string>)
    ensures Clean(Unique(values))
  {
    hide Trim, Trimmed, Unique;
    UniqueIs(values);
    forall x | x in Unique(values) ensures x != "" && Trimmed(x) {
      var i :| 0 <= i < |values| && Trim(values[i]) == x;
      TrimTrimmed(values[i]);
    }
  }

  /** A plan, whether the manager's or the fallback, can be shown and used as it is: its summary is never blank, so
      the default texts for blank summaries are never used, and its lists hold only stripped texts. */
  lemma {:induction false} PlanIsClean(manager: SubagentResult, analyzers: seq<SubagentResult>)
    ensures var plan := PlanFor(manager, analyzers);
            && plan.summary != ""
            && Clean(plan.editScope) && Clean(plan.targetedTests) && Clean(plan.validationFocus)
  {
    hide Trim, CleanList, Unique, All, FirstTwo, Vetoed, Clean, KnownStrategy, Lower;
    if Usable(manager) {
      var reply := manager.parsed.value;
      CleanListIs(reply.editScope);
      CleanListIs(reply.targetedTests);
      CleanListIs(reply.validationFocus);
    } else {
      UniqueIsClean(All(analyzers, Scope));
      UniqueIsClean(All(analyzers, Tests));
      UniqueIsClean(All(analyzers, Surfaces));
    }
  }

  // ---------- the protocol of a recovery run ----------

  datatype Phase =
    | Fresh
    | Analysing(late: bool)
    | Planned
    | Late(stage: Stage)
    | Ready(strategy: string)
    | Repairing
    | Repaired
    | Checked(success: bool)
    | TimedOut
    | Over(recovered: bool)
    | Broken

  /** Which event may follow in which phase */
  function Next(p: Phase, e: Event): Phase
  {
    match e
    case Started => if p.Fresh? then Analysing(false) else Broken
    case RoleCompleted(stage, role) =>
      if p.Analysing? && stage == Analysis then p
      else if p == Analysing(false) && stage == Planning && role == MANAGER then Planned
      else if p.Repairing? && stage == Repair && role == EXECUTOR then Repaired
      else Broken
    case RoleTimeout(stage, role) =>
      if p.Analysing? && stage == Analysis then Analysing(true)
      else if (p.Planned? && stage == Planning && role == MANAGER) || (p.Repaired? && stage == Repair && role == EXECUTOR) then Late(stage)
      else Broken
    case PlanReady(strategy) => if p.Planned? then Ready(strategy) else Broken
    case RepairRun => if p == Ready(REPAIR) then Repairing else Broken
    case Evaluated(success) => if p.Repaired? then Checked(success) else Broken
    case RecoveryTimeout(stage) =>
      if p == Late(stage) || (p.Analysing? && stage == Analysis) || (p == Analysing(false) && stage == Planning)
         || ((p == Ready(REPAIR) || p.Repaired?) && stage == Repair)
      then TimedOut else Broken
    case Finished(recovered) =>
      if (p.TimedOut? && !recovered) || (p.Ready? && p.strategy != REPAIR && !recovered) || p == Checked(recovered)
      then Over(recovered) else Broken
  }

  function Drive(trace: seq<Event>): Phase
  {
    if trace == [] then Fresh else Next(Drive(trace[..|trace| - 1]), trace[|trace| - 1])
  }

  /** What a trace has had so far */
  datatype Tally = Tally(started: nat, completed: nat, repairs: nat, evaluations: nat, timeouts: nat, recoveryTimeouts: nat, finished: nat)

  function Count(trace: seq<Event>): Tally
  {
    if trace == [] then Tally(0, 0, 0, 0, 0, 0, 0)
    else
      var c := Count(trace[..|trace| - 1]);
      match trace[|trace| - 1]
      case Started => c.(started := c.started + 1)
      case RoleCompleted(_, _) => c.(completed := c.completed + 1)
      case RepairRun => c.(repairs := c.repairs + 1)
      case Evaluated(_) => c.(evaluations := c.evaluations + 1)
      case RoleTimeout(_, _) => c.(timeouts := c.timeouts + 1)
      case RecoveryTimeout(_) => c.(recoveryTimeouts := c.recoveryTimeouts + 1)
      case Finished(_) => c.(finished := c.finished + 1)
      case PlanReady(_) => c
  }

  lemma {:induction false} EmitCount(trace: seq<Event>, e: Event)
    ensures Drive(trace + [e]) == Next(Drive(trace), e)
    ensures var c, d := Count(trace), Count(trace + [e]);
            && d.completed == (if e.RoleCompleted? then c.completed + 1 else c.completed)
            && d.repairs == (if e.RepairRun? then c.repairs + 1 else c.repairs)
            && d.evaluations == (if e.Evaluated? then c.evaluations + 1 else c.evaluations)
            && d.recoveryTimeouts == (if e.RecoveryTimeout? then c.recoveryTimeouts + 1 else c.recoveryTimeouts)
  {
    assert (trace + [e])[..|trace|] == trace;
  }

  lemma {:induction false} Begun()
    ensures Drive([Started]) == Analysing(false) && Count([Started]) == Tally(1, 0, 0, 0, 0, 0, 0)
  {
    assert [Started][..0] == [];
  }

  /** What each phase says about the trace that led to it */
  lemma {:induction false} PhaseTells(trace: seq<Event>)
    requires !Drive(trace).Broken?
    ensures var c, p := Count(trace), Drive(trace);
            && c.started == (if p.Fresh? then 0 else 1) && c.finished == (if p.Over? then 1 else 0)
            && c.evaluations <= c.repairs <= 1
            && (p.Repairing? || p.Repaired? || p.Checked? || p == Over(true) ==> c.repairs == 1)
            && (p.Checked? || p == Over(true) ==> c.evaluations == 1)
            && (p.Fresh? || p.Analysing? || p.Planned? || p.Ready? ==> c.repairs == 0)
            && (p.Repairing? || p.Repaired? || p.Late? || p.TimedOut? ==> c.evaluations == 0)
            && (c.timeouts > 0 ==> p == Analysing(true) || p.Late? || ((p.TimedOut? || p == Over(false)) && c.recoveryTimeouts == 1))
            && c.recoveryTimeouts <= 1
            && (p.TimedOut? ==> c.recoveryTimeouts == 1)
            && (c.recoveryTimeouts == 1 ==> c.evaluations == 0 && (p.TimedOut? || p == Over(false)))
  {
    if trace != [] {
      var front := trace[..|trace| - 1];
      assert !Drive(front).Broken?;
      PhaseTells(front);
    }
  }

  lemma {:induction false} PrefixesDrive(trace: seq<Event>, i: nat)
    requires i <= |trace| && !Drive(trace).Broken?
    ensures !Drive(trace[..i]).Broken?
    ensures i < |trace| && Drive(trace[..i]).Over? ==> false
    decreases |trace|
  {
    hide Next;
    if i < |trace| {
      var front := trace[..|trace| - 1];
      NoWayOut(Drive(front), trace[|trace| - 1]);
      assert front[..i] == trace[..i];
      PrefixesDrive(front, i);
      assert i == |trace| - 1 ==> trace[..i] == front;
    } else {
      assert trace[..i] == trace;
    }
  }

  lemma {:induction false} NoWayOut(p: Phase, e: Event)
    ensures p.Broken? || p.Over? ==> Next(p, e).Broken?
  {
  }

  /** Every finished trace: `swarm_started` comes first and once, `swarm_finished` last and once; no prefix
      has more evaluations than repairs, and no trace more than one repair; any time-out rules out an
      evaluation and recovery; recovery needs an evaluation. */
  lemma {:induction false} FinishedTrace(trace: seq<Event>, recovered: bool)
    requires Drive(trace) == Over(recovered)
    ensures |trace| >= 2 && trace[0] == Started && trace[|trace| - 1] == Finished(recovered)
    ensures forall i | 0 <= i < |trace| :: (trace[i].Started? <==> i == 0) && (trace[i].Finished? <==> i == |trace| - 1)
    ensures forall i | 0 <= i <= |trace| :: Count(trace[..i]).evaluations <= Count(trace[..i]).repairs <= 1
    ensures Count(trace).timeouts > 0 ==> Count(trace).recoveryTimeouts == 1
    ensures Count(trace).recoveryTimeouts > 0 ==> !recovered && Count(trace).evaluations == 0
    ensures recovered ==> Count(trace).evaluations == 1
  {
    hide Count, Drive, Next;
    PhaseTells(trace);
    NotEmpty(trace);
    forall i | 0 <= i <= |trace|
      ensures Count(trace[..i]).evaluations <= Count(trace[..i]).repairs <= 1
    {
      EndsOnly(trace, i);
    }
    EndsOnly(trace, 1);
    EndsOnly(trace, |trace|);
    forall i | 0 <= i < |trace| ensures (trace[i].Started? <==> i == 0) && (trace[i].Finished? <==> i == |trace| - 1) {
      EndsOnly(trace, i + 1);
    }
  }

  lemma {:induction false} NotEmpty(trace: seq<Event>)
    requires Drive(trace).Over?
    ensures trace != [] && trace[|trace| - 1] == Finished(Drive(trace).recovered)
  {
  }

  lemma {:induction false} EventTells(p: Phase, e: Event)
    requires !Next(p, e).Broken?
    ensures (e.Started? <==> p.Fresh?) && (e.Finished? <==> Next(p, e).Over?)
  {
  }

  lemma {:induction false} DriveStep(trace: seq<Event>, i: nat)
    requires i < |trace|
    ensures Drive(trace[..i + 1]) == Next(Drive(trace[..i]), trace[i])
    ensures !Drive(trace[..i]).Broken? ==> (Drive(trace[..i]).Fresh? <==> i == 0)
  {
    assert trace[..i + 1][..i] == trace[..i];
    if i > 0 && !Drive(trace[..i]).Broken? { FirstStarts(trace[..i]); }
  }

  lemma {:induction false} EndsOnly(trace: seq<Event>, i: nat)
    requires i <= |trace| && Drive(trace).Over?
    ensures Count(trace[..i]).evaluations <= Count(trace[..i]).repairs <= 1
    ensures i > 0 ==> (trace[i - 1].Started? <==> i == 1) && (trace[i - 1].Finished? <==> i == |trace|)
  {
    hide Drive, Count, Next;
    PrefixesDrive(trace, i);
    PhaseTells(trace[..i]);
    if i > 0 {
      PrefixesDrive(trace, i - 1);
      DriveStep(trace, i - 1);
      EventTells(Drive(trace[..i - 1]), trace[i - 1]);
      assert i == |trace| ==> trace[..i] == trace;
    }
  }

  lemma {:induction false} FirstStarts(trace: seq<Event>)
    requires trace != [] && !Drive(trace).Broken?
    ensures !Drive(trace).Fresh?
  {
  }

  // ---------- recover ----------

  /** The events of the fan-out: each report, and after it its time-out */
  function AnalysisEvents(log: seq<Report>): seq<Event>
  {
    if log == [] then []
    else
      var r := log[|log| - 1].result;
      AnalysisEvents(log[..|log| - 1]) + [RoleCompleted(Analysis, r.role)]
      + if IsTimeout(r) then [RoleTimeout(Analysis, r.role)] else []
  }

  predicate AnyTimeout(results: seq<SubagentResult>) { exists i :: 0 <= i < |results| && IsTimeout(results[i]) }

  predicate AnyReportedTimeout(log: seq<Report>) { exists i :: 0 <= i < |log| && IsTimeout(log[i].result) }

  lemma {:induction false} NextAnalysis(p: Phase, role: string)
    requires p.Analysing?
    ensures Next(p, RoleCompleted(Analysis, role)) == p && Next(p, RoleTimeout(Analysis, role)) == Analysing(true)
  {
  }

  lemma {:induction false} AnalysisPhase(log: seq<Report>)
    ensures Drive([Started] + AnalysisEvents(log)) == Analysing(AnyReportedTimeout(log))
    ensures Count([Started] + AnalysisEvents(log)).completed == |log|
  {
    hide IsTimeout, Next, Drive, Count;
    if log == [] {
      assert [Started] + AnalysisEvents(log) == [Started];
      Begun();
    } else {
      var front, r := log[..|log| - 1], log[|log| - 1].result;
      AnalysisPhase(front);
      var before := [Started] + AnalysisEvents(front);
      var completed, late := RoleCompleted(Analysis, r.role), RoleTimeout(Analysis, r.role);
      EmitCount(before, completed);
      EmitCount(before + [completed], late);
      NextAnalysis(Drive(before), r.role);
      ReportedSnoc(log);
      if IsTimeout(r) {
        assert [Started] + AnalysisEvents(log) == before + [completed] + [late];
      } else {
        assert [Started] + AnalysisEvents(log) == before + [completed];
      }
    }
  }

  lemma {:induction false} ReportedSnoc(log: seq<Report>)
    requires log != []
    ensures AnyReportedTimeout(log) <==> AnyReportedTimeout(log[..|log| - 1]) || IsTimeout(log[|log| - 1].result)
  {
    hide IsTimeout;
    var front := log[..|log| - 1];
    if AnyReportedTimeout(front) {
      var i :| 0 <= i < |front| && IsTimeout(front[i].result);
      assert IsTimeout(log[i].result);
    }
    if AnyReportedTimeout(log) {
      var i :| 0 <= i < |log| && IsTimeout(log[i].result);
      assert i < |front| ==> IsTimeout(front[i].result);
    }
  }

  /** The returned list shows a time-out exactly when one was reported. */
  lemma {:induction false} ListedTimeouts(log: seq<Report>)
    ensures AnyTimeout(Listing(Table(log))) <==> AnyReportedTimeout(log)
  {
    hide IsTimeout, Table, Listing;
    ListingIs(log);
    var list := Listing(Table(log));
    if AnyTimeout(list) {
      var j :| 0 <= j < |list| && IsTimeout(list[j]);
      assert ReportedTimeout(log, list[j].role);
    }
    if AnyReportedTimeout(log) {
      var i :| 0 <= i < |log| && IsTimeout(log[i].result);
      var role := log[i].result.role;
      assert Reported(log, role) && Listed(list, role);
      var j :| 0 <= j < |list| && list[j].role == role;
      assert ReportedTimeout(log, role);
    }
  }

  function TimeoutOutcome(reason: string, analyzers: seq<SubagentResult>): Outcome
  {
    var plan := Fallback(analyzers);
    Outcome(false, QUARANTINE, reason, analyzers, plan.(strategy := QUARANTINE, summary := reason), "", "swarm_timeout", reason)
  }

  /** What the later turns do once they are reached: the manager's and the repair turn run or raise, the evaluation
      comes back or raises. */
  datatype Turns = Turns(manager: Ran, repair: Ran, evaluation: Result<Evaluation, string>)

  function ManagerResult(turns: Turns): SubagentResult
  {
    ResultOf(SubagentRequest(MANAGER, "", 0, true), turns.manager)
  }

  function RepairResult(turns: Turns): SubagentResult
  {
    ResultOf(SubagentRequest(EXECUTOR, "", 0, false), turns.repair)
  }

  lemma {:induction false} TurnRoles(turns: Turns)
    ensures ManagerResult(turns).role == MANAGER && RepairResult(turns).role == EXECUTOR
  {
  }

  // how far a run comes
  predicate ReachesManager(clock: Clock, analyzers: seq<SubagentResult>)
  {
    !clock.beforeFanout && !AnyTimeout(analyzers) && !clock.afterAnalysis && !clock.beforePlanning
  }

  predicate ReachesRepair(clock: Clock, analyzers: seq<SubagentResult>, turns: Turns)
  {
    && ReachesManager(clock, analyzers) && turns.manager.Returned? && !IsTimeout(ManagerResult(turns))
    && PlanFor(ManagerResult(turns), analyzers).strategy == REPAIR && !clock.beforeRepair
  }

  predicate ReachesEvaluation(clock: Clock, analyzers: seq<SubagentResult>, turns: Turns)
  {
    ReachesRepair(clock, analyzers, turns) && turns.repair.Returned? && !IsTimeout(RepairResult(turns)) && !clock.afterRepair
  }

  /** When a run reports recovery */
  predicate Recovers(clock: Clock, analyzers: seq<SubagentResult>, turns: Turns)
  {
    ReachesEvaluation(clock, analyzers, turns) && turns.evaluation.Ok? && turns.evaluation.value.success
  }

  /** The turn in which an exception leaves `recover` */
  datatype Turn = AnalyzerTurn(index: nat) | ManagerTurn | RepairTurn | EvaluationTurn

  datatype Crash = Crash(turn: Turn, message: string)

  /** A later turn is reached and raises. */
  predicate CrashesIn(turn: Turn, clock: Clock, analyzers: seq<SubagentResult>, turns: Turns)
  {
    match turn
    case AnalyzerTurn(_) => false
    case ManagerTurn => ReachesManager(clock, analyzers) && turns.manager.Crashed?
    case RepairTurn => ReachesRepair(clock, analyzers, turns) && turns.repair.Crashed?
    case EvaluationTurn => ReachesEvaluation(clock, analyzers, turns) && turns.evaluation.Raised?
  }

  predicate Crashes(clock: Clock, analyzers: seq<SubagentResult>, turns: Turns)
  {
    || CrashesIn(ManagerTurn, clock, analyzers, turns)
    || CrashesIn(RepairTurn, clock, analyzers, turns)
    || CrashesIn(EvaluationTurn, clock, analyzers, turns)
  }

  function CrashMessage(turn: Turn, turns: Turns): string
  {
    match turn
    case AnalyzerTurn(_) => ""
    case ManagerTurn => if turns.manager.Crashed? then turns.manager.message else ""
    case RepairTurn => if turns.repair.Crashed? then turns.repair.message else ""
    case EvaluationTurn => if turns.evaluation.Raised? then turns.evaluation.error else ""
  }

  /** The events that a run leaves behind when an exception ends it in the turn: no `swarm_finished`, no evaluation,
      and a repair that has run only when it was the evaluation that raised */
  ghost predicate LeftIn(turn: Turn, trace: seq<Event>)
  {
    match turn
    case AnalyzerTurn(i) => Drive(trace).Analysing? && Count(trace).completed == i
    case ManagerTurn => Drive(trace) == Analysing(false)
    case RepairTurn => Drive(trace) == Ready(REPAIR)
    case EvaluationTurn => Drive(trace) == Repaired
  }

  lemma {:induction false} CrashLeaves(turn: Turn, trace: seq<Event>)
    requires LeftIn(turn, trace)
    ensures Count(trace).started == 1 && Count(trace).finished == Count(trace).evaluations == 0
    ensures Count(trace).repairs == if turn.EvaluationTurn? then 1 else 0
  {
    hide Drive, Count;
    PhaseTells(trace);
  }

  /** What the outcome of a run says, in terms of the turns, the clock and the events emitted */
  ghost predicate Agrees(o: Outcome, trace: seq<Event>, clock: Clock, turns: Turns)
  {
    && Drive(trace) == Over(o.recovered)
    && (o.recovered <==> Recovers(clock, o.analyzers, turns))
    && (Count(trace).recoveryTimeouts > 0 ==> o == TimeoutOutcome(o.failureReason, o.analyzers))
    && (Count(trace).recoveryTimeouts == 0 ==>
          && turns.manager.Returned?
          && o.plan == PlanFor(ManagerResult(turns), o.analyzers) && o.strategy == o.plan.strategy && o.summary == o.plan.summary)
    && (Count(trace).repairs > 0 ==> ReachesRepair(clock, o.analyzers, turns) && turns.repair.Returned?)
    && (Count(trace).evaluations > 0 ==>
          && ReachesEvaluation(clock, o.analyzers, turns) && turns.evaluation.Ok? && o.repairOutput == RepairResult(turns).raw
          && (o.failureClass, o.failureReason)
             == var e := turns.evaluation.value; if e.success then ("", "") else (e.failureClass, e.failureReason))
  }

  /** What comes after the fan-out agrees with the turns: an outcome, or the exception of a turn that was reached. */
  ghost predicate Settles(r: Result<Outcome, Crash>, trace: seq<Event>, analyzers: seq<SubagentResult>, clock: Clock, turns: Turns)
  {
    match r
    case Ok(o) => o.analyzers == analyzers && Agrees(o, trace, clock, turns) && !Crashes(clock, analyzers, turns)
    case Raised(crash) =>
      && CrashesIn(crash.turn, clock, analyzers, turns) && crash.message == CrashMessage(crash.turn, turns)
      && LeftIn(crash.turn, trace)
  }

  /** `_timeout_outcome`, the end of every run that ran out of time */
  method TimeOut(before: seq<Event>, stage: Stage, reason: string, analyzers: seq<SubagentResult>, ghost clock: Clock, ghost turns: Turns)
    returns (outcome: Outcome, trace: seq<Event>)
    requires Next(Drive(before), RecoveryTimeout(stage)) == TimedOut
    requires Count(before).repairs > 0 ==> ReachesRepair(clock, analyzers, turns) && turns.repair.Returned?
    requires !Recovers(clock, analyzers, turns)
    ensures outcome == TimeoutOutcome(reason, analyzers)
    ensures Agrees(outcome, trace, clock, turns)
  {
    hide Drive, Count, Fallback, PlanFor, Recovers, ReachesRepair, ReachesEvaluation;
    var plan := FallbackRecoveryPlan(analyzers);
    outcome := Outcome(false, QUARANTINE, reason, analyzers, plan.(strategy := QUARANTINE, summary := reason), "", "swarm_timeout", reason);
    PhaseTells(before);
    var middle := before + [RecoveryTimeout(stage)];
    trace := middle + [Finished(false)];
    EmitCount(before, RecoveryTimeout(stage));
    EmitCount(middle, Finished(false));
  }

  /** From the evaluation to the end */
  method Evaluate(before: seq<Event>, plan: Plan, analyzers: seq<SubagentResult>, clock: Clock, turns: Turns)
    returns (r: Result<Outcome, Crash>, trace: seq<Event>)
    requires Drive(before) == Repaired && plan == PlanFor(ManagerResult(turns), analyzers)
    requires ReachesEvaluation(clock, analyzers, turns)
    ensures Settles(r, trace, analyzers, clock, turns)
  {
    hide Drive, Count, Fallback, PlanFor, AnyTimeout, IsTimeout, ResultOf;
    if turns.evaluation.Raised? { return Raised(Crash(EvaluationTurn, turns.evaluation.error)), before; }
    var evaluation := turns.evaluation.value;
    PhaseTells(before);
    EmitCount(before, Evaluated(evaluation.success));
    var checked := before + [Evaluated(evaluation.success)];
    PhaseTells(checked);
    EmitCount(checked, Finished(evaluation.success));
    trace := checked + [Finished(evaluation.success)];
    r := Ok(Outcome(evaluation.success, plan.strategy, plan.summary, analyzers, plan, RepairResult(turns).raw,
                    if evaluation.success then "" else evaluation.failureClass,
                    if evaluation.success then "" else evaluation.failureReason));
  }

  const REPAIR_TIMED_OUT := "Swarm recovery timed out during repair."

  /** From the repair turn to the end */
  method RepairAndEvaluate(before: seq<Event>, plan: Plan, analyzers: seq<SubagentResult>, clock: Clock, turns: Turns)
    returns (r: Result<Outcome, Crash>, trace: seq<Event>)
    requires Drive(before) == Ready(REPAIR) && plan == PlanFor(ManagerResult(turns), analyzers)
    requires ReachesRepair(clock, analyzers, turns)
    ensures Settles(r, trace, analyzers, clock, turns)
  {
    hide Drive, Count, Fallback, PlanFor, AnyTimeout, IsTimeout, ResultOf, Agrees, TimeoutOutcome;
    if turns.repair.Crashed? { return Raised(Crash(RepairTurn, turns.repair.message)), before; }
    var repair := RepairResult(turns);
    TurnRoles(turns);
    var completed, late := RoleCompleted(Repair, repair.role), RoleTimeout(Repair, repair.role);
    EmitCount(before, RepairRun);
    EmitCount(before + [RepairRun], completed);
    var repaired := before + [RepairRun] + [completed];
    EmitCount(repaired, late);
    if IsTimeout(repair) {
      var o;
      o, trace := TimeOut(repaired + [late], Repair, REPAIR_TIMED_OUT, analyzers, clock, turns);
      AnalyzersOf(o, REPAIR_TIMED_OUT, analyzers);
      r := Ok(o);
    } else if clock.afterRepair {
      var o;
      o, trace := TimeOut(repaired, Repair, REPAIR_TIMED_OUT, analyzers, clock, turns);
      AnalyzersOf(o, REPAIR_TIMED_OUT, analyzers);
      r := Ok(o);
    } else {
      r, trace := Evaluate(repaired, plan, analyzers, clock, turns);
    }
  }

  lemma {:induction false} AnalyzersOf(o: Outcome, reason: string, analyzers: seq<SubagentResult>)
    requires o == TimeoutOutcome(reason, analyzers)
    ensures o.analyzers == analyzers && !o.recovered
  {
  }

  /** `_build_recovery_plan`, after the manager's run */
  method BuildRecoveryPlan(manager: SubagentResult, analyzers: seq<SubagentResult>) returns (plan: Plan)
    ensures plan == PlanFor(manager, analyzers)
  {
    hide Fallback, CoercePlan;
    if Usable(manager) {
      plan := CoercePlan(manager.parsed.value);
    } else {
      plan := FallbackRecoveryPlan(analyzers);
    }
  }

  const PLANNING_TIMED_OUT := "Swarm recovery timed out during planning."
  const TOO_LATE_TO_REPAIR := "Swarm recovery timed out before repair execution started."

  /** From the manager's turn to the end */
  method PlanAndRepair(before: seq<Event>, analyzers: seq<SubagentResult>, clock: Clock, turns: Turns, failureClass: string)
    returns (r: Result<Outcome, Crash>, trace: seq<Event>)
    requires Drive(before) == Analysing(false) && ReachesManager(clock, analyzers)
    ensures Settles(r, trace, analyzers, clock, turns)
  {
    hide Drive, Count, Fallback, PlanFor, AnyTimeout, IsTimeout, ResultOf, TimeoutOutcome;
    if turns.manager.Crashed? { return Raised(Crash(ManagerTurn, turns.manager.message)), before; }
    var manager := ManagerResult(turns);
    TurnRoles(turns);
    var plan := BuildRecoveryPlan(manager, analyzers);
    var completed, late := RoleCompleted(Planning, manager.role), RoleTimeout(Planning, manager.role);
    PhaseTells(before);
    EmitCount(before, completed);
    var planned := before + [completed];
    EmitCount(planned, late);
    EmitCount(planned, PlanReady(plan.strategy));
    var ready := planned + [PlanReady(plan.strategy)];
    if IsTimeout(manager) {
      var o;
      o, trace := TimeOut(planned + [late], Planning, PLANNING_TIMED_OUT, analyzers, clock, turns);
      AnalyzersOf(o, PLANNING_TIMED_OUT, analyzers);
      r := Ok(o);
    } else if plan.strategy != REPAIR {
      PhaseTells(ready);
      EmitCount(ready, Finished(false));
      trace := ready + [Finished(false)];
      r := Ok(Outcome(false, plan.strategy, plan.summary, analyzers, plan, "", failureClass, plan.summary));
    } else if clock.beforeRepair {
      var o;
      o, trace := TimeOut(ready, Repair, TOO_LATE_TO_REPAIR, analyzers, clock, turns);
      AnalyzersOf(o, TOO_LATE_TO_REPAIR, analyzers);
      r := Ok(o);
    } else {
      r, trace := RepairAndEvaluate(ready, plan, analyzers, clock, turns);
    }
  }

  /** The fan-out of the analyzers, with its events */
  method Analyse(requests: seq<SubagentRequest>, rans: seq<Ran>, clones: bool, maxParallel: int, late: seq<bool>, seconds: string)
    returns (results: Result<seq<SubagentResult>, string>, trace: seq<Event>, log: seq<Report>)
    requires |rans| == |late| == |requests| && Runnable(rans, clones)
    ensures Drive(trace).Analysing? && Count(trace).completed == |log| && Count(trace).repairs == 0
    ensures results.Ok? ==>
              && results.value == Listing(Table(log)) && Logged(log, requests, rans, true, seconds, {})
              && Drive(trace) == Analysing(AnyTimeout(results.value))
    ensures results.Raised? <==> FanoutRaises(rans, clones, maxParallel, late)
    ensures results.Raised? ==> FanoutCrash(rans, late, |log|, results.error)
  {
    hide Drive, Count, AnyTimeout, IsTimeout, Table, Listing, Logged, InOrder, AnalysisEvents;
    results, log := RunParallel(requests, rans, clones, maxParallel, true, late, seconds);
    trace := [Started] + AnalysisEvents(log);
    AnalysisPhase(log);
    PhaseTells(trace);
    ListedTimeouts(log);
  }

  /** An analyzer's run raises in the sequential fan-out, before the deadline passes. */
  predicate FanoutRaises(rans: seq<Ran>, clones: bool, maxParallel: int, late: seq<bool>)
    requires |late| == |rans|
  {
    Sequential(clones, maxParallel, |rans|) && exists i :: 0 <= i < |rans| && Raises(rans, true, late, i)
  }

  /** Request `i` is the first whose run raises, with the message. */
  predicate FanoutCrash(rans: seq<Ran>, late: seq<bool>, i: nat, message: string)
    requires |late| == |rans|
  {
    i < |rans| && Raises(rans, true, late, i) && rans[i] == Crashed(message) && forall k | 0 <= k < i :: !Raises(rans, true, late, k)
  }

  const FANOUT_NOT_STARTED := "Swarm recovery timed out before analyzer fanout started."
  const ANALYSIS_LATE := "Swarm analysis exceeded its timeout budget; quarantining recovery for this issue."
  const ANALYSIS_TIMED_OUT := "Swarm recovery timed out during analysis."

  /** `recover`. An exception leaves it, and `swarm_finished` is missing, exactly when a turn that is reached raises:
      an analyzer in the sequential fan-out, the manager, the repair turn, or the evaluation. */
  method Recover(requests: seq<SubagentRequest>, rans: seq<Ran>, clones: bool, maxParallel: int, late: seq<bool>, seconds: string,
                 turns: Turns, clock: Clock, failureClass: string)
    returns (r: Result<Outcome, Crash>, trace: seq<Event>, ghost analyzers: seq<SubagentResult>, log: seq<Report>)
    requires |rans| == |late| == |requests|
    requires Runnable(rans, clones) && Runnable([turns.manager, turns.repair], clones)
    ensures r.Raised? <==>
            (!clock.beforeFanout && FanoutRaises(rans, clones, maxParallel, late)) || Crashes(clock, analyzers, turns)
    ensures r.Raised? && r.error.turn.AnalyzerTurn? ==>
              FanoutCrash(rans, late, r.error.turn.index, r.error.message) && LeftIn(r.error.turn, trace)
    ensures r.Ok? || !r.error.turn.AnalyzerTurn? ==> Settles(r, trace, analyzers, clock, turns)
    ensures r.Ok? || !r.error.turn.AnalyzerTurn? ==>
              clock.beforeFanout || (analyzers == Listing(Table(log)) && Logged(log, requests, rans, true, seconds, {}))
  {
    hide Drive, Count, Fallback, PlanFor, AnyTimeout, IsTimeout, Table, Listing, Logged, FanoutRaises, FanoutCrash, TimeoutOutcome, Agrees;
    Begun();
    trace := [Started];
    analyzers, log := [], [];
    var o, found;
    if clock.beforeFanout {
      o, trace := TimeOut(trace, Analysis, FANOUT_NOT_STARTED, [], clock, turns);
      AnalyzersOf(o, FANOUT_NOT_STARTED, []);
      return Ok(o), trace, analyzers, log;
    }
    found, trace, log := Analyse(requests, rans, clones, maxParallel, late, seconds);
    if found.Raised? {
      // the pool never raises, so exactly the reports before this one have been made
      return Raised(Crash(AnalyzerTurn(|log|), found.error)), trace, [], log;
    }
    var results := found.value;
    analyzers := results;
    if AnyTimeout(results) {
      o, trace := TimeOut(trace, Analysis, ANALYSIS_LATE, results, clock, turns);
      AnalyzersOf(o, ANALYSIS_LATE, results);
      r := Ok(o);
    } else if clock.afterAnalysis {
      o, trace := TimeOut(trace, Analysis, ANALYSIS_TIMED_OUT, results, clock, turns);
      AnalyzersOf(o, ANALYSIS_TIMED_OUT, results);
      r := Ok(o);
    } else if clock.beforePlanning {
      o, trace := TimeOut(trace, Planning, PLANNING_TIMED_OUT, results, clock, turns);
      AnalyzersOf(o, PLANNING_TIMED_OUT, results);
      r := Ok(o);
    } else {
      r, trace := PlanAndRepair(trace, results, clock, turns, failureClass);
    }
  }

  /** When the manager's reply is unusable, a veto of the scope guard rules out repair and evaluation. */
  lemma {:induction false} VetoPreventsRepair(o: Outcome, trace: seq<Event>, clock: Clock, turns: Turns)
    requires Agrees(o, trace, clock, turns)
    requires !(turns.manager.Returned? && turns.manager.success && turns.manager.parsed.Some?)
    requires exists i :: 0 <= i < |o.analyzers| && o.analyzers[i].role == "scope-guard" && o.analyzers[i].parsed.Some?
                         && (o.analyzers[i].parsed.value.shouldQuarantine || o.analyzers[i].parsed.value.allowRepair == Some(false))
    ensures Count(trace).repairs == Count(trace).evaluations == 0 && !o.recovered && o.strategy == QUARANTINE
  {
    hide Count, Drive, Vetoed, AnyTimeout, IsTimeout, PlanFor, Fallback;
    PhaseTells(trace);
    StrategyIsKnown(ManagerResult(turns), o.analyzers);
  }

  /** Nor does such a run raise in the repair turn or in the evaluation. */
  lemma {:induction false} VetoPreventsLateCrash(clock: Clock, analyzers: seq<SubagentResult>, turns: Turns)
    requires !(turns.manager.Returned? && turns.manager.success && turns.manager.parsed.Some?)
    requires exists i :: 0 <= i < |analyzers| && analyzers[i].role == "scope-guard" && analyzers[i].parsed.Some?
                         && (analyzers[i].parsed.value.shouldQuarantine || analyzers[i].parsed.value.allowRepair == Some(false))
    ensures Crashes(clock, analyzers, turns) <==> CrashesIn(ManagerTurn, clock, analyzers, turns)
  {
    hide Vetoed, AnyTimeout, IsTimeout, PlanFor;
    StrategyIsKnown(ManagerResult(turns), analyzers);
  }

  /** A time-out of any role ends in the quarantine outcome and is never evaluated. */
  lemma {:induction false} TimeoutQuarantines(o: Outcome, trace: seq<Event>, clock: Clock, turns: Turns)
    requires Agrees(o, trace, clock, turns)
    requires Count(trace).timeouts > 0 || Count(trace).recoveryTimeouts > 0
    ensures !o.recovered && Count(trace).evaluations == 0
    ensures o.strategy == QUARANTINE && o.plan.strategy == QUARANTINE && o.failureClass == "swarm_timeout"
  {
    hide Count, Drive, AnyTimeout, IsTimeout, Recovers, Fallback;
    FinishedTrace(trace, o.recovered);
  }
}
