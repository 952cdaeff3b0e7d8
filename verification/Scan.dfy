/** The repository scan: which findings open an issue (src/flow_healer/healer_scan.py), over the finding
    records of src/flow_healer/store.py and the issue search of src/flow_healer/healer_tracker.py. */
module Scan {
  import opened Wrappers
  import opened Text

  predicate Hex(c: char) { '0' <= c <= '9' || 'a' <= c <= 'f' }

  /** What `_fingerprint` makes of any finding: the first 24 digits of a SHA-256 digest in lower-case hexadecimal.
      The digest itself is free. */
  type Fingerprint = s: string | |s| == 24 && forall i | 0 <= i < |s| :: Hex(s[i])
    witness "000000000000000000000000"

  datatype Finding = Finding(fingerprint: Fingerprint, scanType: string, severity: string, selector: string, selectors: seq<string>)

  /** `tracker`: there is a tracker and it is enabled. */
  datatype Config = Config(threshold: string, maxIssues: int, tracker: bool, creates: bool)

  /** An issue; its body carries the fingerprint. */
  datatype Issue = Issue(number: nat, fingerprint: Fingerprint, open: bool)

  datatype Stored = Stored(status: string, issue: Option<nat>)

  datatype Ledger = Ledger(stored: map<Fingerprint, Stored>, issues: seq<Issue>)

  datatype Verdict = Created(number: nat) | Deduped(number: nat) | NonSandbox | OverBudget | Recorded

  function Rank(severity: string): nat
  {
    var s := Lower(Trim(severity));
    if s == "low" then 10 else if s == "high" then 30 else if s == "critical" then 40 else 20
  }

  /** `_passes_threshold`; a blank threshold means medium. */
  predicate Passes(f: Finding, c: Config) { Rank(f.severity) >= Rank(c.threshold) }

  function Included(findings: seq<Finding>, c: Config): seq<Finding>
  {
    if findings == [] then []
    else
      var front, last := Included(findings[..|findings| - 1], c), findings[|findings| - 1];
      if Passes(last, c) then front + [last] else front
  }

  // ---------- sandbox targets ----------

  function Target(selector: string): string
  {
    var s := Trim(selector);
    StripLeft(Trim(s[..Find(s, "::")]), {'.', '/'})
  }

  function LowerAll(targets: seq<string>): set<string>
  {
    if targets == [] then {} else {Lower(targets[|targets| - 1])} + LowerAll(targets[..|targets| - 1])
  }

  /** `_candidate_targets_for_finding`: the targets that are not blank, once each up to case */
  function Candidates(selectors: seq<string>): seq<string>
  {
    if selectors == [] then []
    else
      var front, t := Candidates(selectors[..|selectors| - 1]), Target(selectors[|selectors| - 1]);
      if t == "" || Lower(t) in LowerAll(front) then front else front + [t]
  }

  predicate InSandbox(target: string)
  {
    var s := Lower(StripLeft(Trim(target), {'.', '/'}));
    "e2e-smoke/" <= s || "e2e-apps/" <= s
  }

  predicate Scoped(f: Finding)
  {
    var targets := Candidates([f.selector] + f.selectors);
    targets != [] && forall i | 0 <= i < |targets| :: InSandbox(targets[i])
  }

  // ---------- one finding ----------

  /** `find_open_issue_by_fingerprint`: the tracker finds what it has created, by the stripped fingerprint. */
  function FindOpen(issues: seq<Issue>, fingerprint: Fingerprint): Option<nat>
  {
    if Trim(fingerprint) == "" || issues == [] then None
    else
      var last := issues[|issues| - 1];
      if last.open && last.fingerprint == Trim(fingerprint) then Some(last.number)
      else FindOpen(issues[..|issues| - 1], fingerprint)
  }

  function Known(l: Ledger, fingerprint: Fingerprint): Option<nat>
  {
    if fingerprint in l.stored then l.stored[fingerprint].issue else None
  }

  /** What becomes of a finding; `ok` says whether the tracker would create an issue for it. */
  function Judge(l: Ledger, f: Finding, c: Config, dry: bool, created: nat, ok: bool): Verdict
  {
    if c.tracker && FindOpen(l.issues, f.fingerprint).Some? then Deduped(FindOpen(l.issues, f.fingerprint).value)
    else if !c.tracker && Known(l, f.fingerprint).Some? then Deduped(Known(l, f.fingerprint).value)
    else if dry || !c.creates then Recorded
    else if f.scanType == "pytest" && !Scoped(f) then NonSandbox
    else if created >= Budget(c) then OverBudget
    else if c.tracker && ok then Created(|l.issues| + 1)
    else Recorded
  }

  function Budget(c: Config): nat { if c.maxIssues < 1 then 1 else c.maxIssues }

  function StatusOf(v: Verdict, c: Config, dry: bool): string
  {
    match v
    case Created(_) => "open"
    case Deduped(_) => if c.tracker then "deduped_open" else "deduped_record"
    case NonSandbox => "skipped_non_sandbox"
    case OverBudget => "skipped_budget"
    case Recorded => if dry then "detected" else "queued_manual"
  }

  /** `upsert_scan_finding`: a known issue number is kept where no new one comes. */
  function Upsert(l: Ledger, fingerprint: Fingerprint, status: string, issue: Option<nat>): Ledger
  {
    l.(stored := l.stored[fingerprint := Stored(status, if issue.Some? then issue else Known(l, fingerprint))])
  }

  function Settle(l: Ledger, f: Finding, v: Verdict, c: Config, dry: bool): Ledger
  {
    var issue := if v.Created? || v.Deduped? then Some(v.number) else None;
    var after := Upsert(l, f.fingerprint, StatusOf(v, c, dry), issue);
    if v.Created? then after.(issues := l.issues + [Issue(v.number, f.fingerprint, true)]) else after
  }

  // ---------- one run ----------

  datatype Scanned = Scanned(ledger: Ledger, verdicts: seq<Verdict>)

  function CreatedIn(verdicts: seq<Verdict>): nat
  {
    if verdicts == [] then 0
    else CreatedIn(verdicts[..|verdicts| - 1]) + if verdicts[|verdicts| - 1].Created? then 1 else 0
  }

  function ScanAll(l: Ledger, findings: seq<Finding>, c: Config, dry: bool, oks: seq<bool>): Scanned
    requires |oks| == |findings|
  {
    if findings == [] then Scanned(l, [])
    else
      var n := |findings| - 1;
      var before := ScanAll(l, findings[..n], c, dry, oks[..n]);
      var v := Judge(before.ledger, findings[n], c, dry, CreatedIn(before.verdicts), oks[n]);
      Scanned(Settle(before.ledger, findings[n], v, c, dry), before.verdicts + [v])
  }

  lemma {:induction false} ScanStep(l: Ledger, findings: seq<Finding>, c: Config, dry: bool, oks: seq<bool>, i: nat)
    requires |oks| == |findings| && i < |findings|
    ensures var before := ScanAll(l, findings[..i], c, dry, oks[..i]);
            var v := Judge(before.ledger, findings[i], c, dry, CreatedIn(before.verdicts), oks[i]);
            ScanAll(l, findings[..i + 1], c, dry, oks[..i + 1]) == Scanned(Settle(before.ledger, findings[i], v, c, dry), before.verdicts + [v])
  {
    hide Judge, Settle;
    assert findings[..i + 1][..i] == findings[..i] && oks[..i + 1][..i] == oks[..i];
  }

  datatype Summary = Summary(total: nat, included: nat, created: seq<nat>, deduped: nat, overBudget: nat, nonSandbox: nat)

  /** How many verdicts of each kind there are: created, deduped, over budget, non-sandbox, recorded only */
  datatype Tally = Tally(created: seq<nat>, deduped: nat, overBudget: nat, nonSandbox: nat, recorded: nat)

  function Count(verdicts: seq<Verdict>): Tally
  {
    if verdicts == [] then Tally([], 0, 0, 0, 0)
    else
      var t := Count(verdicts[..|verdicts| - 1]);
      match verdicts[|verdicts| - 1]
      case Created(number) => t.(created := t.created + [number])
      case Deduped(_) => t.(deduped := t.deduped + 1)
      case OverBudget => t.(overBudget := t.overBudget + 1)
      case NonSandbox => t.(nonSandbox := t.nonSandbox + 1)
      case Recorded => t.(recorded := t.recorded + 1)
  }

  lemma {:induction false} CountStep(verdicts: seq<Verdict>, v: Verdict)
    ensures Count(verdicts + [v]) ==
            var t := Count(verdicts);
            match v
            case Created(number) => t.(created := t.created + [number])
            case Deduped(_) => t.(deduped := t.deduped + 1)
            case OverBudget => t.(overBudget := t.overBudget + 1)
            case NonSandbox => t.(nonSandbox := t.nonSandbox + 1)
            case Recorded => t.(recorded := t.recorded + 1)
    ensures CreatedIn(verdicts + [v]) == CreatedIn(verdicts) + if v.Created? then 1 else 0
  {
    assert (verdicts + [v])[..|verdicts|] == verdicts;
  }

  lemma {:induction false} CreatedCounts(verdicts: seq<Verdict>)
    ensures |Count(verdicts).created| == CreatedIn(verdicts)
  {
    if verdicts != [] { CreatedCounts(verdicts[..|verdicts| - 1]); }
  }

  class FlowHealerScanner {
    var stored: map<Fingerprint, Stored>
    var issues: seq<Issue>
    const config: Config

    constructor (config: Config)
      ensures this.config == config && Contents() == Ledger(map[], [])
    {
      this.config := config;
      stored, issues := map[], [];
    }

    function Contents(): Ledger
      reads this
    {
      Ledger(stored, issues)
    }

    method UpsertScanFinding(fingerprint: Fingerprint, status: string, issue: Option<nat>)
      modifies this`stored
      ensures Contents() == Upsert(old(Contents()), fingerprint, status, issue)
    {
      stored := stored[fingerprint := Stored(status, if issue.Some? then issue else Known(Contents(), fingerprint))];
    }

    /** `create_issue`: the tracker numbers its issues one after another. */
    method CreateIssue(fingerprint: Fingerprint) returns (number: nat)
      modifies this`issues
      ensures number == |old(issues)| + 1 && issues == old(issues) + [Issue(number, fingerprint, true)]
    {
      number := |issues| + 1;
      issues := issues + [Issue(number, fingerprint, true)];
    }

    /** The body of the loop over the findings */
    method Handle(f: Finding, dry: bool, created: nat, ok: bool) returns (v: Verdict)
      modifies this
      ensures v == Judge(old(Contents()), f, config, dry, created, ok)
      ensures Contents() == Settle(old(Contents()), f, v, config, dry)
    {
      hide FindOpen, Scoped, Rank;
      var known := Known(Contents(), f.fingerprint);
      if config.tracker {
        var open := FindOpen(issues, f.fingerprint);
        if open.Some? {
          UpsertScanFinding(f.fingerprint, "deduped_open", open);
          return Deduped(open.value);
        }
      } else if known.Some? {
        UpsertScanFinding(f.fingerprint, "deduped_record", known);
        return Deduped(known.value);
      }
      if !dry && config.creates {
        if f.scanType == "pytest" && !Scoped(f) {
          UpsertScanFinding(f.fingerprint, "skipped_non_sandbox", None);
          return NonSandbox;
        }
        if created >= Budget(config) {
          UpsertScanFinding(f.fingerprint, "skipped_budget", None);
          return OverBudget;
        }
        if config.tracker && ok {
          var number := CreateIssue(f.fingerprint);
          UpsertScanFinding(f.fingerprint, "open", Some(number));
          return Created(number);
        }
      }
      UpsertScanFinding(f.fingerprint, if dry then "detected" else "queued_manual", None);
      v := Recorded;
    }

    /** `run_scan`, after the checks have produced the findings */
    method RunScan(findings: seq<Finding>, dry: bool, oks: seq<bool>) returns (summary: Summary, ghost verdicts: seq<Verdict>)
      requires |oks| == |Included(findings, config)|
      modifies this
      ensures Scanned(Contents(), verdicts) == ScanAll(old(Contents()), Included(findings, config), config, dry, oks)
      ensures var t := Count(verdicts);
              summary == Summary(|findings|, |Included(findings, config)|, t.created, t.deduped, t.overBudget, t.nonSandbox)
    {
      hide Judge, Settle, ScanAll, Included, Count, CreatedIn;
      var included := Included(findings, config);
      var created, deduped, overBudget, nonSandbox := [], 0, 0, 0;
      verdicts := [];
      NothingScanned(Contents(), config, dry);
      assert included[..0] == [] && oks[..0] == [];
      for i := 0 to |included|
        invariant Scanned(Contents(), verdicts) == ScanAll(old(Contents()), included[..i], config, dry, oks[..i])
        invariant Count(verdicts) == Tally(created, deduped, overBudget, nonSandbox, Count(verdicts).recorded)
      {
        CreatedCounts(verdicts);
        ScanStep(old(Contents()), included, config, dry, oks, i);
        var v := Handle(included[i], dry, |created|, oks[i]);
        CountStep(verdicts, v);
        verdicts := verdicts + [v];
        match v
        case Created(number) => created := created + [number];
        case Deduped(_) => deduped := deduped + 1;
        case OverBudget => overBudget := overBudget + 1;
        case NonSandbox => nonSandbox := nonSandbox + 1;
        case Recorded =>
      }
      assert included[..|included|] == included && oks[..|oks|] == oks;
      summary := Summary(|findings|, |included|, created, deduped, overBudget, nonSandbox);
    }
  }

  lemma {:induction false} NothingScanned(l: Ledger, c: Config, dry: bool)
    ensures ScanAll(l, [], c, dry, []) == Scanned(l, []) && Count([]) == Tally([], 0, 0, 0, 0)
  {
  }

  // ---------- what a run guarantees ----------

  lemma {:induction false} TallyAdds(verdicts: seq<Verdict>)
    ensures var t := Count(verdicts); |verdicts| == |t.created| + t.deduped + t.overBudget + t.nonSandbox + t.recorded
  {
    if verdicts != [] { TallyAdds(verdicts[..|verdicts| - 1]); }
  }

  lemma {:induction false} SettleBounds(l: Ledger, f: Finding, c: Config, dry: bool, created: nat, ok: bool)
    ensures var v := Judge(l, f, c, dry, created, ok);
            var after := Settle(l, f, v, c, dry);
            && (v.Created? ==> created < Budget(c) && !dry && c.creates && c.tracker)
            && l.issues <= after.issues && |after.issues| == |l.issues| + (if v.Created? then 1 else 0)
            && forall g | Known(l, g).Some? :: Known(after, g).Some?
  {
    hide FindOpen, Scoped, StatusOf;
  }

  lemma {:induction false} ScanBounds(l: Ledger, findings: seq<Finding>, c: Config, dry: bool, oks: seq<bool>)
    requires |oks| == |findings|
    ensures var r := ScanAll(l, findings, c, dry, oks);
            && |r.verdicts| == |findings|
            && CreatedIn(r.verdicts) <= Budget(c)
            && (dry || !c.creates || !c.tracker ==> CreatedIn(r.verdicts) == 0)
            && |r.ledger.issues| == |l.issues| + CreatedIn(r.verdicts)
            && l.issues <= r.ledger.issues
            && forall g | Known(l, g).Some? :: Known(r.ledger, g).Some?
  {
    if findings != [] {
      hide Judge, Settle, Known, CreatedIn, Count;
      var n := |findings| - 1;
      ScanBounds(l, findings[..n], c, dry, oks[..n]);
      var before := ScanAll(l, findings[..n], c, dry, oks[..n]);
      SettleBounds(before.ledger, findings[n], c, dry, CreatedIn(before.verdicts), oks[n]);
      CountStep(before.verdicts, Judge(before.ledger, findings[n], c, dry, CreatedIn(before.verdicts), oks[n]));
    } else {
      assert CreatedIn([]) == 0;
    }
  }

  /** Every finding over the threshold lands in exactly one of the five kinds; the created ones stay within the
      budget, and there are none in a dry run, without a tracker, or with creation switched off. A run closes no
      issue, forgets no known issue number, and adds exactly the created issues. */
  lemma {:induction false} Partition(l: Ledger, findings: seq<Finding>, c: Config, dry: bool, oks: seq<bool>)
    requires |oks| == |Included(findings, c)|
    ensures var included := Included(findings, c);
            var r := ScanAll(l, included, c, dry, oks);
            var t := Count(r.verdicts);
            && |included| == |t.created| + t.deduped + t.overBudget + t.nonSandbox + t.recorded
            && |t.created| <= Budget(c)
            && (dry || !c.creates || !c.tracker ==> t.created == [])
            && l.issues <= r.ledger.issues && |r.ledger.issues| == |l.issues| + |t.created|
            && forall g | Known(l, g).Some? :: Known(r.ledger, g).Some?
  {
    hide Judge, Settle, Included, Count, ScanAll, CreatedIn;
    var included := Included(findings, c);
    ScanBounds(l, included, c, dry, oks);
    TallyAdds(ScanAll(l, included, c, dry, oks).verdicts);
    CreatedCounts(ScanAll(l, included, c, dry, oks).verdicts);
  }

  // ---------- the sandbox test ----------

  method CandidateTargets(selectors: seq<string>) returns (deduped: seq<string>)
    ensures deduped == Candidates(selectors)
  {
    hide Target, Lower;
    deduped := [];
    var seen: set<string> := {};
    for i := 0 to |selectors|
      invariant deduped == Candidates(selectors[..i]) && seen == LowerAll(deduped)
    {
      assert selectors[..i + 1][..i] == selectors[..i];
      var t := Target(selectors[i]);
      if t == "" || Lower(t) in seen { continue; }
      assert (deduped + [t])[..|deduped|] == deduped;
      seen := seen + {Lower(t)};
      deduped := deduped + [t];
    }
    assert selectors[..|selectors|] == selectors;
  }

  ghost predicate CaseFree(cs: set<char>) { forall c: char :: c in cs <==> LowerChar(c) in cs }

  lemma {:induction false} StripLeftLower(s: string, cs: set<char>)
    requires CaseFree(cs)
    ensures StripLeft(Lower(s), cs) == Lower(StripLeft(s, cs))
  {
    if s != "" {
      LowerAt(s, 0);
      assert Lower(s)[1..] == Lower(s[1..]);
      StripLeftLower(s[1..], cs);
    }
  }

  lemma {:induction false} StripRightLower(s: string, cs: set<char>)
    requires CaseFree(cs)
    ensures StripRight(Lower(s), cs) == Lower(StripRight(s, cs))
  {
    if s != "" {
      var n := |s| - 1;
      assert s == s[..n] + [s[n]];
      LowerConcat(s[..n], [s[n]]);
      LowerAt(s, n);
      assert Lower(s)[..n] == Lower(s[..n]);
      StripRightLower(s[..n], cs);
    }
  }

  /** The sandbox test does not see case. */
  lemma {:induction false} InSandboxByCase(a: string, b: string)
    requires Lower(a) == Lower(b)
    ensures InSandbox(a) <==> InSandbox(b)
  {
    hide Lower, StripLeft, StripRight;
    assert CaseFree(SPACES) && CaseFree({'.', '/'});
    StripLeftLower(a, SPACES);
    StripLeftLower(b, SPACES);
    StripRightLower(StripLeft(a, SPACES), SPACES);
    StripRightLower(StripLeft(b, SPACES), SPACES);
    StripLeftLower(Trim(a), {'.', '/'});
    StripLeftLower(Trim(b), {'.', '/'});
  }

  /** The candidates are targets of selectors, and every target has its lower-case form among theirs. */
  lemma {:induction false} CandidatesAre(selectors: seq<string>)
    ensures forall t | t in Candidates(selectors) :: t != "" && exists i :: 0 <= i < |selectors| && Target(selectors[i]) == t
    ensures forall i | 0 <= i < |selectors| && Target(selectors[i]) != "" :: Lower(Target(selectors[i])) in LowerAll(Candidates(selectors))
  {
    hide Target, Lower;
    if selectors != [] {
      var front, t := selectors[..|selectors| - 1], Target(selectors[|selectors| - 1]);
      CandidatesAre(front);
      var c := Candidates(front);
      assert (c + [t])[..|c|] == c;
      forall u | u in Candidates(selectors) ensures u != "" && exists i :: 0 <= i < |selectors| && Target(selectors[i]) == u {
        if u in c {
          var i :| 0 <= i < |front| && Target(front[i]) == u;
          assert selectors[i] == front[i];
        }
      }
      forall i | 0 <= i < |selectors| && Target(selectors[i]) != ""
        ensures Lower(Target(selectors[i])) in LowerAll(Candidates(selectors))
      {
        if i < |front| { assert selectors[i] == front[i]; }
      }
    }
  }

  lemma {:induction false} LowerAllIs(targets: seq<string>, x: string)
    ensures x in LowerAll(targets) <==> exists t :: t in targets && Lower(t) == x
  {
    hide Lower;
    if targets != [] {
      var n := |targets| - 1;
      assert targets == targets[..n] + [targets[n]];
      LowerAllIs(targets[..n], x);
      assert targets[n] in targets;
      forall t | t in targets && Lower(t) == x ensures x in LowerAll(targets) {
        if t != targets[n] { assert t in targets[..n]; }
      }
      forall t | t in targets[..n] && Lower(t) == x ensures t in targets {
      }
    }
  }

  /** A finding is sandbox-scoped exactly when it names some target and every target it names, repeated up to case
      or not, is in the sandbox. */
  lemma {:induction false} ScopedIff(f: Finding)
    ensures var all := [f.selector] + f.selectors;
            Scoped(f) <==> && (exists i :: 0 <= i < |all| && Target(all[i]) != "")
                           && (forall i | 0 <= i < |all| && Target(all[i]) != "" :: InSandbox(Target(all[i])))
  {
    hide Target, Lower, InSandbox, Candidates;
    var all := [f.selector] + f.selectors;
    var c := Candidates(all);
    CandidatesAre(all);
    if Scoped(f) {
      assert c[0] in c;
      forall i | 0 <= i < |all| && Target(all[i]) != "" ensures InSandbox(Target(all[i])) {
        LowerAllIs(c, Lower(Target(all[i])));
        var t :| t in c && Lower(t) == Lower(Target(all[i]));
        InSandboxByCase(t, Target(all[i]));
      }
    }
    if i :| 0 <= i < |all| && Target(all[i]) != "" {
      LowerAllIs(c, Lower(Target(all[i])));
    }
    assert forall j | 0 <= j < |c| :: c[j] in c;
  }

  // ---------- no second open issue ----------

  /** The search strips the fingerprint it is given and gives up on a blank one; neither ever happens. */
  lemma {:induction false} FingerprintStripped(f: Fingerprint)
    ensures Trim(f) == f != ""
  {
    assert Hex(f[0]) && Hex(f[|f| - 1]);
    TrimFixed(f);
  }

  /** The search finds an issue exactly when an open one has the fingerprint, and what it finds is such an issue. */
  lemma {:induction false} FindOpenIs(issues: seq<Issue>, fingerprint: Fingerprint)
    ensures FindOpen(issues, fingerprint).Some? <==>
            exists i :: 0 <= i < |issues| && issues[i].open && issues[i].fingerprint == fingerprint
    ensures FindOpen(issues, fingerprint).Some? ==>
              exists i :: 0 <= i < |issues| && issues[i].number == FindOpen(issues, fingerprint).value
                          && issues[i].open && issues[i].fingerprint == fingerprint
  {
    hide Trim;
    FingerprintStripped(fingerprint);
    if issues != [] {
      var front := issues[..|issues| - 1];
      FindOpenIs(front, fingerprint);
      forall i | 0 <= i < |front| ensures front[i] == issues[i] {
      }
      if FindOpen(front, fingerprint).Some? {
        var i :| 0 <= i < |front| && front[i].number == FindOpen(front, fingerprint).value
                 && front[i].open && front[i].fingerprint == fingerprint;
        assert issues[i] == front[i];
      }
    }
  }

  /** No two open issues have one fingerprint. */
  ghost predicate OneOpen(issues: seq<Issue>)
  {
    forall i, j | 0 <= i < j < |issues| && issues[i].open && issues[j].open :: issues[i].fingerprint != issues[j].fingerprint
  }

  /** Issues are numbered in the order of their creation, and every issue number in the records is that of an issue
      with the fingerprint of the record. */
  ghost predicate Numbered(l: Ledger)
  {
    && (forall i | 0 <= i < |l.issues| :: l.issues[i].number == i + 1)
    && (forall f | Known(l, f).Some? :: 1 <= Known(l, f).value <= |l.issues| && l.issues[Known(l, f).value - 1].fingerprint == f)
  }

  ghost predicate Sound(l: Ledger) { OneOpen(l.issues) && Numbered(l) }

  /** A record keeps its issue number where no new one comes; all other records stay as they are. */
  lemma {:induction false} UpsertKnown(l: Ledger, f: Fingerprint, status: string, issue: Option<nat>, g: Fingerprint)
    ensures Known(Upsert(l, f, status, issue), g) == if g == f && issue.Some? then issue else Known(l, g)
  {
  }

  lemma {:induction false} SettleKeeps(l: Ledger, f: Finding, c: Config, dry: bool, created: nat, ok: bool)
    requires Sound(l)
    ensures Sound(Settle(l, f, Judge(l, f, c, dry, created, ok), c, dry))
  {
    hide Trim, Scoped, FindOpen, StatusOf, Known, Upsert;
    var v := Judge(l, f, c, dry, created, ok);
    var after := Settle(l, f, v, c, dry);
    var issue := if v.Created? || v.Deduped? then Some(v.number) else None;
    FindOpenIs(l.issues, f.fingerprint);
    UpsertIssues(l, f.fingerprint, StatusOf(v, c, dry), issue);
    forall g | Known(after, g).Some?
      ensures 1 <= Known(after, g).value <= |after.issues| && after.issues[Known(after, g).value - 1].fingerprint == g
    {
      UpsertKnown(l, f.fingerprint, StatusOf(v, c, dry), issue, g);
      SameKnown(Upsert(l, f.fingerprint, StatusOf(v, c, dry), issue), after, g);
    }
  }

  lemma {:induction false} UpsertIssues(l: Ledger, f: Fingerprint, status: string, issue: Option<nat>)
    ensures Upsert(l, f, status, issue).issues == l.issues
  {
  }

  lemma {:induction false} SameKnown(l: Ledger, m: Ledger, g: Fingerprint)
    requires l.stored == m.stored
    ensures Known(l, g) == Known(m, g)
  {
  }

  lemma {:induction false} ScanKeeps(l: Ledger, findings: seq<Finding>, c: Config, dry: bool, oks: seq<bool>)
    requires |oks| == |findings| && Sound(l)
    ensures Sound(ScanAll(l, findings, c, dry, oks).ledger)
  {
    hide Judge, Settle, Sound;
    if findings != [] {
      var n := |findings| - 1;
      ScanKeeps(l, findings[..n], c, dry, oks[..n]);
      var before := ScanAll(l, findings[..n], c, dry, oks[..n]);
      SettleKeeps(before.ledger, findings[n], c, dry, CreatedIn(before.verdicts), oks[n]);
    }
  }

  /** What happens to a repository: a scan under some configuration, or somebody closes an issue. */
  datatype Event = Run(findings: seq<Finding>, config: Config, dry: bool, oks: seq<bool>) | Close(number: nat)

  predicate Fits(e: Event) { e.Run? ==> |e.oks| == |Included(e.findings, e.config)| }

  function CloseIssue(issues: seq<Issue>, number: nat): (r: seq<Issue>)
    ensures |r| == |issues|
  {
    if issues == [] then []
    else
      var last := issues[|issues| - 1];
      CloseIssue(issues[..|issues| - 1], number) + [if last.number == number then last.(open := false) else last]
  }

  lemma {:induction false} CloseIssueAt(issues: seq<Issue>, number: nat, i: nat)
    requires i < |issues|
    ensures CloseIssue(issues, number)[i] == if issues[i].number == number then issues[i].(open := false) else issues[i]
  {
    if i < |issues| - 1 { CloseIssueAt(issues[..|issues| - 1], number, i); }
  }

  lemma {:induction false} CloseKeeps(l: Ledger, number: nat)
    requires Sound(l)
    ensures Sound(l.(issues := CloseIssue(l.issues, number)))
  {
    hide CloseIssue, Known;
    var closed := CloseIssue(l.issues, number);
    forall i | 0 <= i < |closed|
      ensures closed[i] == if l.issues[i].number == number then l.issues[i].(open := false) else l.issues[i]
    {
      CloseIssueAt(l.issues, number, i);
    }
    forall g ensures Known(l.(issues := closed), g) == Known(l, g) {
      SameKnown(l, l.(issues := closed), g);
    }
  }

  function Play(l: Ledger, events: seq<Event>): Ledger
    requires forall i | 0 <= i < |events| :: Fits(events[i])
  {
    if events == [] then l
    else
      var before := Play(l, events[..|events| - 1]);
      assert Fits(events[|events| - 1]);
      match events[|events| - 1]
      case Run(findings, config, dry, oks) => ScanAll(before, Included(findings, config), config, dry, oks).ledger
      case Close(number) => before.(issues := CloseIssue(before.issues, number))
  }

  lemma {:induction false} PlayKeeps(l: Ledger, events: seq<Event>)
    requires forall i | 0 <= i < |events| :: Fits(events[i])
    requires Sound(l)
    ensures Sound(Play(l, events))
  {
    hide Sound, ScanAll, Included, CloseIssue;
    if events != [] {
      var before := Play(l, events[..|events| - 1]);
      PlayKeeps(l, events[..|events| - 1]);
      assert Fits(events[|events| - 1]);
      match events[|events| - 1]
      case Run(findings, config, dry, oks) => ScanKeeps(before, Included(findings, config), config, dry, oks);
      case Close(number) => CloseKeeps(before, number);
    }
  }

  const EMPTY := Ledger(map[], [])

  lemma {:induction false} EmptySound()
    ensures Sound(EMPTY)
  {
  }

  /** Over all sequences of scans, under any configurations, and of closings, no fingerprint gets a second issue while
      one is open. */
  lemma {:induction false} NoSecondIssue(events: seq<Event>)
    requires forall i | 0 <= i < |events| :: Fits(events[i])
    ensures OneOpen(Play(EMPTY, events).issues)
  {
    hide Play, OneOpen, Numbered;
    EmptySound();
    PlayKeeps(EMPTY, events);
  }

  /** And every issue number in the records leads to an issue that was created for the record's fingerprint. */
  lemma {:induction false} RecordsPointHome(events: seq<Event>)
    requires forall i | 0 <= i < |events| :: Fits(events[i])
    ensures Numbered(Play(EMPTY, events))
  {
    hide Play, OneOpen, Numbered;
    EmptySound();
    PlayKeeps(EMPTY, events);
  }

  // ---------- thresholds and verdicts ----------

  /** Which findings pass: those at the threshold and above it, in the order low, medium, high, critical; any other word
      counts as medium, and neither case nor white space around a word counts. */
  lemma {:induction false} ThresholdIs(f: Finding, c: Config)
    ensures var severity, threshold := Lower(Trim(f.severity)), Lower(Trim(c.threshold));
            && (severity == threshold ==> Passes(f, c))
            && (threshold == "low" ==> Passes(f, c))
            && (threshold == "critical" ==> (Passes(f, c) <==> severity == "critical"))
            && (threshold == "high" ==> (Passes(f, c) <==> severity in {"high", "critical"}))
            && (threshold !in {"low", "high", "critical"} ==> (Passes(f, c) <==> severity != "low"))
  {
    hide Trim, Lower;
  }

  /** The findings over the threshold are kept, all of them and in order. */
  lemma {:induction false} IncludedIs(a: seq<Finding>, f: Finding, b: seq<Finding>, c: Config)
    ensures Included(a + b, c) == Included(a, c) + Included(b, c)
    ensures Included([f], c) == if Passes(f, c) then [f] else []
  {
    hide Passes;
    assert [f][..0] == [];
    if b == [] {
      assert a + b == a;
    } else {
      var n := |b| - 1;
      assert (a + b)[..|a + b| - 1] == a + b[..n];
      IncludedIs(a, f, b[..n], c);
    }
  }

  /** An issue for the fingerprint is open. */
  predicate IsOpen(l: Ledger, f: Fingerprint) { exists i :: 0 <= i < |l.issues| && l.issues[i].open && l.issues[i].fingerprint == f }

  /** When each verdict is given. */
  lemma {:induction false} VerdictIff(l: Ledger, f: Finding, c: Config, dry: bool, created: nat, ok: bool)
    ensures var v := Judge(l, f, c, dry, created, ok);
            var dedupes := if c.tracker then IsOpen(l, f.fingerprint)
                           else f.fingerprint in l.stored && l.stored[f.fingerprint].issue.Some?;
            var outside := f.scanType == "pytest" && !Scoped(f);
            var budget := if c.maxIssues > 1 then c.maxIssues else 1;
            && (v.Deduped? <==> dedupes)
            && (v.NonSandbox? <==> !dedupes && !dry && c.creates && outside)
            && (v.OverBudget? <==> !dedupes && !dry && c.creates && !outside && created >= budget)
            && (v.Created? <==> !dedupes && !dry && c.creates && !outside && created < budget && c.tracker && ok)
            && (v.Created? ==> v.number == |l.issues| + 1)
  {
    hide FindOpen, Scoped;
    FindOpenIs(l.issues, f.fingerprint);
  }

  /** What the records and the tracker hold afterwards. */
  lemma {:induction false} SettleIs(l: Ledger, f: Finding, v: Verdict, c: Config, dry: bool, g: Fingerprint)
    ensures var after := Settle(l, f, v, c, dry);
            && f.fingerprint in after.stored
            && after.stored[f.fingerprint].status
               == (match v
                   case Created(_) => "open"
                   case Deduped(_) => if c.tracker then "deduped_open" else "deduped_record"
                   case NonSandbox => "skipped_non_sandbox"
                   case OverBudget => "skipped_budget"
                   case Recorded => if dry then "detected" else "queued_manual")
            && (v.Created? || v.Deduped? ==> after.stored[f.fingerprint].issue == Some(v.number))
            && (g != f.fingerprint ==> (g in after.stored <==> g in l.stored) && (g in l.stored ==> after.stored[g] == l.stored[g]))
            && after.issues == if v.Created? then l.issues + [Issue(v.number, f.fingerprint, true)] else l.issues
  {
  }

  /** A target is in the sandbox exactly when it lies below one of the two sandbox directories, in capitals or not. */
  lemma {:induction false} InSandboxIff(target: string)
    requires target != "" && Trimmed(target) && target[0] != '.' && target[0] != '/'
    ensures InSandbox(target) <==> "e2e-smoke/" <= Lower(target) || "e2e-apps/" <= Lower(target)
  {
    hide Lower;
    TrimFixed(target);
  }

  lemma {:induction false} FindColons(path: string, rest: string)
    requires ':' !in path
    ensures Find(path + "::" + rest, "::") == |path|
  {
    var s := path + "::" + rest;
    if path == "" {
      assert s == "::" + rest;
    } else {
      assert s[0] == path[0] && s[1..] == path[1..] + "::" + rest;
      FindColons(path[1..], rest);
    }
  }

  lemma {:induction false} FindNoColons(path: string, sep: string)
    requires ':' !in path && sep == "::"
    ensures Find(path, sep) == |path|
  {
    if path != "" {
      assert path[0] in path && sep[0] == ':';
      FindNoColons(path[1..], sep);
    }
  }

  lemma {:induction false} DotSlashGoes(path: string)
    requires path != "" && path[0] != '.' && path[0] != '/'
    ensures StripLeft("./" + path, {'.', '/'}) == path == StripLeft(path, {'.', '/'})
  {
    assert ("./" + path)[1..] == "/" + path && ("/" + path)[1..] == path;
    assert StripLeft("/" + path, {'.', '/'}) == StripLeft(path, {'.', '/'});
  }

  /** The target of a selector is the path before its first `::`, without `./` before it. */
  lemma {:induction false} TargetIs(path: string, rest: string)
    requires path != "" && Trimmed(path) && ':' !in path && path[0] != '.' && path[0] != '/' && Trimmed(path + "::" + rest)
    ensures Target(path + "::" + rest) == path == Target(path) == Target("./" + path)
  {
    hide Find, Trim;
    var all, dotted := path + "::" + rest, "./" + path;
    TrimFixed(all);
    TrimFixed(path);
    FindColons(path, rest);
    FindNoColons(path, "::");
    assert all[..|path|] == path && path[..|path|] == path;
    assert dotted[0] == '.' && dotted[|dotted| - 1] == path[|path| - 1];
    TrimFixed(dotted);
    forall c | c in dotted ensures c != ':' { assert c == '.' || c == '/' || c in path; }
    FindNoColons(dotted, "::");
    assert dotted[..|dotted|] == dotted;
    DotSlashGoes(path);
  }
}
