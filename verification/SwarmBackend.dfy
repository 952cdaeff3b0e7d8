/** The parallel fan-out of subagents (src/flow_healer/healer_swarm.py, `ConnectorSubagentBackend`).
    `replies[i]` is what `run` does for request `i` if it is ever awaited to the end; which futures have
    finished at each wait, in which order, and when the deadline passes are free choices. */
module SwarmBackend {
  import opened Wrappers
  import opened Text

  /** The keys of a parsed reply that the swarm reads; an absent list or string is empty. */
  datatype Reply = Reply(
    strategy: string, summary: string, rootCause: string,
    shouldQuarantine: bool, allowRepair: Option<bool>,
    editScope: seq<string>, likelyPaths: seq<string>, targetedTests: seq<string>,
    validationFocus: seq<string>, failingSurfaces: seq<string>,
    reason: string, missedRootCause: string)

  datatype SubagentRequest = SubagentRequest(role: string, prompt: string, timeoutSeconds: int, expectJson: bool)

  /** `parsed` is None for the empty dictionary. */
  datatype SubagentResult = SubagentResult(role: string, raw: string, parsed: Option<Reply>, success: bool, error: string)

  /** What `run` does for a request: a result with the request's role, or an exception from the connector factory */
  datatype Ran = Returned(raw: string, parsed: Option<Reply>, success: bool, error: string) | Crashed(message: string)

  /** A result handed to `_record` and to the callback, with the request it is for */
  datatype Report = Report(index: nat, result: SubagentResult)

  const TIMED_OUT := "timed out"

  /** `_is_timeout_result` */
  predicate IsTimeout(r: SubagentResult) { Contains(Lower(Trim(r.error)), TIMED_OUT) }

  /** `_timed_out_result`; `seconds` is the rounded budget in decimal */
  function TimedOutResult(role: string, seconds: string): SubagentResult
  {
    SubagentResult(role, "", None, false, "Timed out waiting for subagent result after " + seconds + "s.")
  }

  lemma {:induction false} LowerPrefix(head: string, rest: string, pattern: string)
    requires |pattern| <= |head| && forall i | 0 <= i < |pattern| :: LowerChar(head[i]) == pattern[i]
    ensures pattern <= Lower(head + rest)[0..]
  {
    var low := Lower(head + rest);
    forall i | 0 <= i < |pattern| ensures low[i] == pattern[i] {
      LowerAt(head + rest, i);
    }
  }

  lemma {:induction false} TimedOutIsTimeout(role: string, seconds: string)
    ensures IsTimeout(TimedOutResult(role, seconds))
  {
    hide Lower, Trim;
    var head := "Timed out waiting for subagent result after ";
    var rest := seconds + "s.";
    var error := TimedOutResult(role, seconds).error;
    assert error == head + rest;
    LowerPrefix(head, rest, TIMED_OUT);
    assert error[0] == head[0] == 'T' && error[|error| - 1] == rest[|rest| - 1] == '.';
    TrimFixed(error);
  }

  function ResultOf(request: SubagentRequest, ran: Ran): SubagentResult
  {
    match ran
    case Returned(raw, parsed, success, error) => SubagentResult(request.role, raw, parsed, success, error)
    case Crashed(message) => SubagentResult(request.role, "", None, false, message)
  }

  // ---------- which result is kept ----------

  /** `_record`: the first result of a role is kept, unless it is no time-out and a later one is. */
  function Record(m: map<string, SubagentResult>, r: SubagentResult): map<string, SubagentResult>
  {
    if r.role !in m || (IsTimeout(r) && !IsTimeout(m[r.role])) then m[r.role := r] else m
  }

  /** `results_by_role` after a log of reports */
  function Table(log: seq<Report>): map<string, SubagentResult>
  {
    if log == [] then map[] else Record(Table(log[..|log| - 1]), log[|log| - 1].result)
  }

  /** The first result of the role in the log, among the time-outs only if asked so */
  function First(log: seq<Report>, role: string, timeoutsOnly: bool): Option<SubagentResult>
  {
    if log == [] then None
    else
      var before, r := First(log[..|log| - 1], role, timeoutsOnly), log[|log| - 1].result;
      if before.None? && r.role == role && (timeoutsOnly ==> IsTimeout(r)) then Some(r) else before
  }

  /** The first time-out of the role or, without one, its first result */
  function Winner(log: seq<Report>, role: string): Option<SubagentResult>
  {
    if First(log, role, true).Some? then First(log, role, true) else First(log, role, false)
  }

  lemma {:induction false} FirstIs(log: seq<Report>, role: string, timeoutsOnly: bool)
    ensures var f := First(log, role, timeoutsOnly);
            if f.Some? then
              exists i :: 0 <= i < |log| && log[i].result == f.value && log[i].result.role == role
                          && (timeoutsOnly ==> IsTimeout(log[i].result))
                          && forall j | 0 <= j < i :: log[j].result.role != role || (timeoutsOnly && !IsTimeout(log[j].result))
            else forall j | 0 <= j < |log| :: log[j].result.role != role || (timeoutsOnly && !IsTimeout(log[j].result))
  {
    hide IsTimeout;
    if log != [] {
      var front := log[..|log| - 1];
      FirstIs(front, role, timeoutsOnly);
      if First(front, role, timeoutsOnly).Some? {
        var i :| 0 <= i < |front| && front[i].result == First(front, role, timeoutsOnly).value && front[i].result.role == role
                 && (timeoutsOnly ==> IsTimeout(front[i].result))
                 && forall j | 0 <= j < i :: front[j].result.role != role || (timeoutsOnly && !IsTimeout(front[j].result));
        assert log[i] == front[i];
        forall j | 0 <= j < i ensures log[j].result.role != role || (timeoutsOnly && !IsTimeout(log[j].result)) {
          assert log[j] == front[j];
        }
      } else {
        forall j | 0 <= j < |front| ensures log[j].result.role != role || (timeoutsOnly && !IsTimeout(log[j].result)) {
          assert log[j] == front[j];
        }
      }
    }
  }

  /** The table holds the winner of every role that was reported. */
  lemma {:induction false} TableIsWinners(log: seq<Report>, role: string)
    ensures if role in Table(log) then Winner(log, role) == Some(Table(log)[role]) else Winner(log, role) == None
    ensures role in Table(log) && First(log, role, true).None? ==> !IsTimeout(Table(log)[role])
    ensures First(log, role, true).Some? ==> IsTimeout(First(log, role, true).value) && First(log, role, false).Some?
  {
    hide IsTimeout;
    if log != [] { TableIsWinners(log[..|log| - 1], role); }
  }

  predicate Reported(log: seq<Report>, role: string) { exists i :: 0 <= i < |log| && log[i].result.role == role }

  predicate ReportedTimeout(log: seq<Report>, role: string)
  {
    exists i :: 0 <= i < |log| && log[i].result.role == role && IsTimeout(log[i].result)
  }

  /** The kept result of a role is a time-out exactly when some result reported for the role was one. */
  lemma {:induction false} KeptTimeout(log: seq<Report>, role: string)
    requires role in Table(log)
    ensures IsTimeout(Table(log)[role]) <==> ReportedTimeout(log, role)
  {
    hide IsTimeout, First, Table;
    TableIsWinners(log, role);
    FirstIs(log, role, true);
  }

  /** A role has an entry exactly when it was reported. */
  lemma {:induction false} KeptRoles(log: seq<Report>, role: string)
    ensures role in Table(log) <==> Reported(log, role)
    ensures role in Table(log) ==> Table(log)[role].role == role
  {
    hide IsTimeout, First, Table;
    TableIsWinners(log, role);
    FirstIs(log, role, false);
    FirstIs(log, role, true);
  }

  /** No two reports are for one role. */
  ghost predicate DistinctRoles(log: seq<Report>)
  {
    forall i, j | 0 <= i < j < |log| :: log[i].result.role != log[j].result.role
  }

  /** With one report a role, the order of the reports does not matter. */
  lemma {:induction false} OrderIrrelevant(a: seq<Report>, b: seq<Report>)
    requires DistinctRoles(a) && DistinctRoles(b)
    requires forall r :: r in a <==> r in b
    ensures Table(a) == Table(b)
  {
    forall role ensures (role in Table(a) <==> role in Table(b)) && (role in Table(a) ==> Table(a)[role] == Table(b)[role]) {
      hide IsTimeout, First, Table;
      KeptRoles(a, role);
      KeptRoles(b, role);
      TableIsWinners(a, role);
      TableIsWinners(b, role);
      OnlyOne(a, role);
      OnlyOne(b, role);
      if role in Table(a) {
        var i :| 0 <= i < |a| && a[i].result.role == role;
        assert a[i] in b;
      }
      if role in Table(b) {
        var i :| 0 <= i < |b| && b[i].result.role == role;
        assert b[i] in a;
      }
    }
  }

  lemma {:induction false} OnlyOne(log: seq<Report>, role: string)
    requires DistinctRoles(log)
    ensures forall r | r in log && r.result.role == role :: Winner(log, role) == Some(r.result)
  {
    hide IsTimeout, First;
    FirstIs(log, role, false);
    FirstIs(log, role, true);
  }

  // ---------- the returned list ----------

  function Entries(roles: seq<string>, m: map<string, SubagentResult>): (r: seq<SubagentResult>)
    requires forall x | x in roles :: x in m
    ensures |r| == |roles|
    ensures forall i | 0 <= i < |r| :: r[i] == m[roles[i]]
  {
    if roles == [] then [] else Entries(roles[..|roles| - 1], m) + [m[roles[|roles| - 1]]]
  }

  /** `sorted(results_by_role.values(), key=role)` */
  function Listing(m: map<string, SubagentResult>): seq<SubagentResult>
  {
    SortedMembers(m.Keys);
    Entries(Sorted(m.Keys), m)
  }

  predicate ByRole(list: seq<SubagentResult>) { forall i, j | 0 <= i < j < |list| :: Below(list[i].role, list[j].role) }

  predicate Listed(list: seq<SubagentResult>, role: string) { exists j :: 0 <= j < |list| && list[j].role == role }

  /** The list holds one entry a reported role, in the order of roles, and says time-out where one was reported. */
  lemma {:induction false} ListingIs(log: seq<Report>)
    ensures var list := Listing(Table(log));
            && ByRole(list)
            && (forall role :: Listed(list, role) <==> Reported(log, role))
            && (forall j | 0 <= j < |list| :: IsTimeout(list[j]) <==> ReportedTimeout(log, list[j].role))
  {
    hide IsTimeout, Table, Sorted;
    var m := Table(log);
    var roles := Sorted(m.Keys);
    SortedMembers(m.Keys);
    SortedIncreasing(m.Keys);
    var list := Entries(roles, m);
    assert list == Listing(m);
    forall j | 0 <= j < |roles|
      ensures list[j].role == roles[j] && roles[j] in m
      ensures IsTimeout(list[j]) <==> ReportedTimeout(log, roles[j])
    {
      assert roles[j] in roles;
      KeptRoles(log, roles[j]);
      KeptTimeout(log, roles[j]);
    }
    forall role ensures Listed(list, role) <==> Reported(log, role) {
      KeptRoles(log, role);
      if Reported(log, role) {
        assert role in roles;
        var j :| 0 <= j < |roles| && roles[j] == role;
        assert list[j].role == role;
      }
    }
  }

  // ---------- run_parallel ----------

  /** A result that request `i` may be reported with */
  predicate Possible(i: nat, result: SubagentResult, requests: seq<SubagentRequest>, rans: seq<Ran>, deadline: bool, seconds: string)
    requires |rans| == |requests|
  {
    i < |requests| &&
    (result == ResultOf(requests[i], rans[i]) || (deadline && result == TimedOutResult(requests[i].role, seconds)))
  }

  /** Every request that is not in `left` has been reported exactly once. */
  ghost predicate Logged(log: seq<Report>, requests: seq<SubagentRequest>, rans: seq<Ran>, deadline: bool, seconds: string, left: set<nat>)
    requires |rans| == |requests|
  {
    && (forall i | i in left :: i < |requests|)
    && (forall j | 0 <= j < |log| ::
          log[j].index !in left && Possible(log[j].index, log[j].result, requests, rans, deadline, seconds))
    && (forall i, j | 0 <= i < j < |log| :: log[i].index != log[j].index)
    && (forall i: nat | i < |requests| && i !in left :: IndexLogged(log, i))
  }

  predicate IndexLogged(log: seq<Report>, i: nat) { exists j :: 0 <= j < |log| && log[j].index == i }

  lemma {:induction false} LoggedStep(log: seq<Report>, i: nat, result: SubagentResult,
                                      requests: seq<SubagentRequest>, rans: seq<Ran>, deadline: bool, seconds: string, left: set<nat>)
    requires |rans| == |requests| && Logged(log, requests, rans, deadline, seconds, left)
    requires i in left && Possible(i, result, requests, rans, deadline, seconds)
    ensures Logged(log + [Report(i, result)], requests, rans, deadline, seconds, left - {i})
    ensures Table(log + [Report(i, result)]) == Record(Table(log), result)
  {
    hide Possible, IsTimeout;
    var more := log + [Report(i, result)];
    assert more[..|more| - 1] == log;
    forall k: nat | k < |requests| && k !in left - {i} ensures IndexLogged(more, k) {
      if k == i {
        assert more[|log|].index == i;
      } else {
        var j :| 0 <= j < |log| && log[j].index == k;
        assert more[j].index == k;
      }
    }
  }

  /** The reports of a run that awaits every request in turn */
  function InOrder(requests: seq<SubagentRequest>, rans: seq<Ran>): seq<Report>
    requires |rans| == |requests|
  {
    if requests == [] then []
    else
      var n := |requests| - 1;
      InOrder(requests[..n], rans[..n]) + [Report(n, ResultOf(requests[n], rans[n]))]
  }

  lemma {:induction false} InOrderAt(requests: seq<SubagentRequest>, rans: seq<Ran>)
    requires |rans| == |requests|
    ensures |InOrder(requests, rans)| == |requests|
    ensures forall i | 0 <= i < |requests| :: InOrder(requests, rans)[i] == Report(i, ResultOf(requests[i], rans[i]))
  {
    hide ResultOf;
    if requests != [] {
      var n := |requests| - 1;
      InOrderAt(requests[..n], rans[..n]);
    }
  }

  ghost predicate DistinctRequests(requests: seq<SubagentRequest>)
  {
    forall i, j | 0 <= i < j < |requests| :: requests[i].role != requests[j].role
  }

  /** With distinct roles and no deadline, every order of completion gives the table of the sequential run. */
  lemma {:induction false} NoDeadlineNoOrder(log: seq<Report>, requests: seq<SubagentRequest>, rans: seq<Ran>, seconds: string)
    requires |rans| == |requests| && Logged(log, requests, rans, false, seconds, {})
    requires DistinctRequests(requests)
    ensures Table(log) == Table(InOrder(requests, rans))
  {
    hide Table, InOrder;
    var plain := InOrder(requests, rans);
    InOrderAt(requests, rans);
    forall j | 0 <= j < |log| ensures log[j] == plain[log[j].index] {
      assert Possible(log[j].index, log[j].result, requests, rans, false, seconds);
    }
    assert DistinctRoles(log);
    forall r ensures r in log <==> r in plain {
      if r in plain {
        var i :| 0 <= i < |plain| && plain[i] == r;
        assert IndexLogged(log, i);
      }
    }
    OrderIrrelevant(log, plain);
  }

  /** Every report has the role of its request. */
  lemma {:induction false} RolesReported(log: seq<Report>, requests: seq<SubagentRequest>, rans: seq<Ran>, deadline: bool, seconds: string, left: set<nat>, i: nat)
    requires |rans| == |requests| && Logged(log, requests, rans, deadline, seconds, left)
    requires i < |requests| && i !in left
    ensures requests[i].role in Table(log)
  {
    hide Table;
    assert IndexLogged(log, i);
    var j :| 0 <= j < |log| && log[j].index == i;
    assert Possible(log[j].index, log[j].result, requests, rans, deadline, seconds);
    KeptRoles(log, requests[i].role);
  }

  predicate Requested(requests: seq<SubagentRequest>, role: string) { exists i :: 0 <= i < |requests| && requests[i].role == role }

  /** When every request has been reported, the reported roles are the requested ones. */
  lemma {:induction false} RequestedIsReported(log: seq<Report>, requests: seq<SubagentRequest>, rans: seq<Ran>, deadline: bool, seconds: string)
    requires |rans| == |requests| && Logged(log, requests, rans, deadline, seconds, {})
    ensures forall role :: Reported(log, role) <==> Requested(requests, role)
  {
    forall role ensures Reported(log, role) <==> Requested(requests, role) {
      if Reported(log, role) {
        var j :| 0 <= j < |log| && log[j].result.role == role;
        assert Possible(log[j].index, log[j].result, requests, rans, deadline, seconds);
        assert requests[log[j].index].role == role;
      }
      if Requested(requests, role) {
        var i :| 0 <= i < |requests| && requests[i].role == role;
        assert IndexLogged(log, i);
        var j :| 0 <= j < |log| && log[j].index == i;
        assert Possible(log[j].index, log[j].result, requests, rans, deadline, seconds);
      }
    }
  }

  /** The list has exactly one entry for each requested role, in the order of roles, and an entry is a time-out exactly
      when one was reported for its role. */
  ghost predicate OneEachRole(list: seq<SubagentResult>, requests: seq<SubagentRequest>, log: seq<Report>)
  {
    && ByRole(list)
    && (forall role :: Listed(list, role) <==> Requested(requests, role))
    && (forall j | 0 <= j < |list| :: IsTimeout(list[j]) <==> ReportedTimeout(log, list[j].role))
  }

  lemma {:induction false} OneEntryEachRole(log: seq<Report>, requests: seq<SubagentRequest>, rans: seq<Ran>, deadline: bool, seconds: string)
    requires |rans| == |requests| && Logged(log, requests, rans, deadline, seconds, {})
    ensures OneEachRole(Listing(Table(log)), requests, log)
  {
    hide IsTimeout, Table, Listing, Logged, ByRole;
    ListingIs(log);
    RequestedIsReported(log, requests, rans, deadline, seconds);
  }

  /** The entry carries what the run gave: its whole result, or the message of its exception on a failed empty one. */
  predicate Gives(ran: Ran, e: SubagentResult)
  {
    || ran == Returned(e.raw, e.parsed, e.success, e.error)
    || (ran == Crashed(e.error) && e.raw == "" && e.parsed == None && !e.success)
  }

  /** The entry says that a request was not waited for. */
  predicate GivenUp(e: SubagentResult) { e.raw == "" && e.parsed == None && !e.success && IsTimeout(e) }

  /** Some request of the entry's role was given up, or its run gave the entry. */
  predicate Accounted(e: SubagentResult, requests: seq<SubagentRequest>, rans: seq<Ran>, deadline: bool)
    requires |rans| == |requests|
  {
    exists i :: 0 <= i < |requests| && requests[i].role == e.role && (Gives(rans[i], e) || (deadline && GivenUp(e)))
  }

  lemma {:induction false} PossibleAccounted(i: nat, e: SubagentResult, requests: seq<SubagentRequest>, rans: seq<Ran>, deadline: bool, seconds: string)
    requires |rans| == |requests| && Possible(i, e, requests, rans, deadline, seconds)
    ensures requests[i].role == e.role && (Gives(rans[i], e) || (deadline && GivenUp(e)))
  {
    hide IsTimeout;
    TimedOutIsTimeout(requests[i].role, seconds);
  }

  /** What is kept for a role was reported for it. */
  lemma {:induction false} KeptWasReported(log: seq<Report>, role: string)
    requires role in Table(log)
    ensures exists i :: 0 <= i < |log| && log[i].result == Table(log)[role]
    ensures Table(log)[role].role == role
  {
    hide IsTimeout, First, Table;
    KeptRoles(log, role);
    TableIsWinners(log, role);
    FirstIs(log, role, true);
    FirstIs(log, role, false);
  }

  /** Every entry of the list comes from a request of its role. */
  lemma {:induction false} EntriesAccounted(log: seq<Report>, requests: seq<SubagentRequest>, rans: seq<Ran>, deadline: bool, seconds: string)
    requires |rans| == |requests| && Logged(log, requests, rans, deadline, seconds, {})
    ensures var list := Listing(Table(log)); forall j | 0 <= j < |list| :: Accounted(list[j], requests, rans, deadline)
  {
    hide IsTimeout, Table, Sorted, Possible, Gives, GivenUp;
    var m := Table(log);
    var roles := Sorted(m.Keys);
    SortedMembers(m.Keys);
    var list := Entries(roles, m);
    assert list == Listing(m);
    forall j | 0 <= j < |list| ensures Accounted(list[j], requests, rans, deadline) {
      assert roles[j] in roles;
      KeptWasReported(log, roles[j]);
      var i :| 0 <= i < |log| && log[i].result == m[roles[j]];
      assert Possible(log[i].index, log[i].result, requests, rans, deadline, seconds);
      IndexInRange(log[i].index, log[i].result, requests, rans, deadline, seconds);
      PossibleAccounted(log[i].index, log[i].result, requests, rans, deadline, seconds);
    }
  }

  lemma {:induction false} IndexInRange(i: nat, e: SubagentResult, requests: seq<SubagentRequest>, rans: seq<Ran>, deadline: bool, seconds: string)
    requires |rans| == |requests| && Possible(i, e, requests, rans, deadline, seconds)
    ensures i < |requests|
  {
  }

  /** With distinct roles and no deadline an entry is what the run of its role's own request gave. */
  lemma {:induction false} OwnEntry(e: SubagentResult, requests: seq<SubagentRequest>, rans: seq<Ran>, i: nat)
    requires |rans| == |requests| && Accounted(e, requests, rans, false) && DistinctRequests(requests)
    requires i < |requests| && requests[i].role == e.role
    ensures Gives(rans[i], e)
  {
    hide Gives, GivenUp;
  }

  // ---------- what a time-out is ----------

  /** The words stand in the text between two places, in capitals or not. */
  predicate SaysAt(s: string, w: string, i: nat, j: nat) { i <= j <= |s| && Lower(s[i..j]) == w }

  lemma {:induction false} SliceOfSlice(s: string, a: int, b: int, c: int, d: int)
    requires 0 <= a <= b <= |s| && 0 <= c <= d <= b - a
    ensures s[a..b][c..d] == s[a + c..a + d]
  {
    forall k | 0 <= k < d - c ensures s[a..b][c..d][k] == s[a + c..a + d][k] {
      assert s[a..b][c + k] == s[a + (c + k)];
    }
  }

  lemma {:induction false} SaysIfStripped(s: string, w: string, k: nat)
    requires k <= |Lower(Trim(s))| && w <= Lower(Trim(s))[k..]
    ensures exists i, j :: SaysAt(s, w, i, j)
  {
    hide Trim, Lower;
    var t := Trim(s);
    TrimEdges(s);
    var a, b :| 0 <= a <= b <= |s| && t == s[a..b] && (forall k | 0 <= k < a || b <= k < |s| :: s[k] in SPACES);
    LowerSlice(t, k, k + |w|);
    assert Lower(t)[k..k + |w|] == w;
    SliceOfSlice(s, a, b, k, k + |w|);
    assert SaysAt(s, w, a + k, a + k + |w|);
  }

  lemma {:induction false} SolidEnds(s: string, w: string, i: nat, j: nat)
    requires SaysAt(s, w, i, j) && w != "" && w[0] !in SPACES && w[|w| - 1] !in SPACES
    ensures i < j && s[i] !in SPACES && s[j - 1] !in SPACES
  {
    hide Lower;
    var piece := s[i..j];
    assert |piece| == |w|;
    LowerAt(piece, 0);
    LowerAt(piece, |w| - 1);
    assert piece[0] == s[i] && piece[|w| - 1] == s[j - 1];
  }

  /** A piece with solid ends is still there after stripping. */
  lemma {:induction false} PieceStays(s: string, i: nat, j: nat) returns (k: nat, l: nat)
    requires i < j <= |s| && s[i] !in SPACES && s[j - 1] !in SPACES
    ensures k <= l <= |Trim(s)| && Trim(s)[k..l] == s[i..j]
  {
    hide Trim;
    TrimEdges(s);
    var a, b :| 0 <= a <= b <= |s| && Trim(s) == s[a..b] && (forall k | 0 <= k < a || b <= k < |s| :: s[k] in SPACES);
    assert a <= i && j <= b;
    k, l := i - a, j - a;
    SliceOfSlice(s, a, b, k, l);
  }

  lemma {:induction false} StrippedIfSays(s: string, w: string, i: nat, j: nat)
    requires SaysAt(s, w, i, j) && w != "" && w[0] !in SPACES && w[|w| - 1] !in SPACES
    ensures Contains(Lower(Trim(s)), w)
  {
    hide Trim, Lower, Contains;
    SolidEnds(s, w, i, j);
    var k, l := PieceStays(s, i, j);
    LowerSlice(Trim(s), k, l);
    Occurs(Lower(Trim(s)), w, k, l);
  }

  lemma {:induction false} Occurs(s: string, w: string, k: nat, l: nat)
    requires k <= l <= |s| && s[k..l] == w
    ensures Contains(s, w)
  {
    assert s[k..][..l - k] == s[k..l];
    assert w <= s[k..];
  }

  /** A result is a time-out exactly when its error text says "timed out" somewhere, in capitals or not. */
  lemma {:induction false} TimeoutIff(r: SubagentResult)
    ensures IsTimeout(r) <==> exists i, j :: SaysAt(r.error, "timed out", i, j)
  {
    hide Trim, Lower, SaysAt;
    if IsTimeout(r) {
      var k :| 0 <= k <= |Lower(Trim(r.error))| && TIMED_OUT <= Lower(Trim(r.error))[k..];
      SaysIfStripped(r.error, TIMED_OUT, k);
    }
    if i, j :| SaysAt(r.error, TIMED_OUT, i, j) {
      StrippedIfSays(r.error, TIMED_OUT, i, j);
    }
  }

  /** What stripping takes away is white space before and after. */
  lemma {:induction false} TrimEdges(s: string)
    ensures exists a, b :: 0 <= a <= b <= |s| && Trim(s) == s[a..b] && (forall k | 0 <= k < a || b <= k < |s| :: s[k] in SPACES)
  {
    var l := StripLeft(s, SPACES);
    StripLeftRemoves(s, SPACES);
    StripRightRemoves(l, SPACES);
    var a, n := |s| - |l|, |Trim(s)|;
    assert Trim(s) == l[..n] == s[a..][..n] == s[a..a + n];
    forall k | 0 <= k < a || a + n <= k < |s| ensures s[k] in SPACES {
      if k >= a + n { assert l[k - a] == s[k]; }
    }
  }

  lemma {:induction false} LowerSlice(s: string, i: nat, j: nat)
    requires i <= j <= |s|
    ensures Lower(s)[i..j] == Lower(s[i..j])
  {
    forall k | 0 <= k < j - i ensures Lower(s)[i..j][k] == Lower(s[i..j])[k] {
      LowerAt(s, i + k);
      LowerAt(s[i..j], k);
    }
  }

  /** Only the connector factory, called outside the `try` of `run`, can make a run raise. */
  predicate Runnable(rans: seq<Ran>, clones: bool) { forall i | 0 <= i < |rans| :: rans[i].Crashed? ==> clones }

  predicate Sequential(clones: bool, maxParallel: int, count: nat) { !clones || maxParallel <= 1 || count <= 1 }

  /** The run of request `i` raises in the sequential branch, unless the deadline has passed before it. */
  predicate Raises(rans: seq<Ran>, deadline: bool, late: seq<bool>, i: nat)
    requires |late| == |rans|
  {
    i < |rans| && rans[i].Crashed? && !(deadline && late[i])
  }

  /** `clones` says that there is a connector factory, and `late[i]` that the deadline has passed when the sequential
      branch looks at it before request `i`. The pool records a run that raises as a failed result; the sequential
      branch lets the first one through, with the requests before it reported. */
  method RunParallel(requests: seq<SubagentRequest>, rans: seq<Ran>, clones: bool, maxParallel: int, deadline: bool, late: seq<bool>,
                     seconds: string)
    returns (r: Result<seq<SubagentResult>, string>, log: seq<Report>)
    requires |rans| == |late| == |requests| && Runnable(rans, clones)
    ensures r.Ok? ==> r.value == Listing(Table(log)) && Logged(log, requests, rans, deadline, seconds, {})
    ensures r.Ok? ==> OneEachRole(r.value, requests, log)
    ensures r.Ok? ==> forall j | 0 <= j < |r.value| :: Accounted(r.value[j], requests, rans, deadline)
    ensures r.Ok? && !deadline && DistinctRequests(requests) ==>
              forall i, j | 0 <= i < |requests| && 0 <= j < |r.value| && requests[i].role == r.value[j].role :: Gives(rans[i], r.value[j])
    ensures r.Ok? && !deadline && DistinctRequests(requests) ==> r.value == Listing(Table(InOrder(requests, rans)))
    ensures r.Raised? <==> Sequential(clones, maxParallel, |requests|) && exists i :: 0 <= i < |rans| && Raises(rans, deadline, late, i)
    ensures r.Raised? ==>
              && clones && |log| < |rans| && rans[|log|] == Crashed(r.error) && Raises(rans, deadline, late, |log|)
              && forall i | 0 <= i < |log| :: !Raises(rans, deadline, late, i) && log[i].index == i
  {
    hide Table, Listing, Logged, Gives, GivenUp, Accounted, OneEachRole, InOrder, IsTimeout;
    if Sequential(clones, maxParallel, |requests|) {
      r, log := RunInTurn(requests, rans, deadline, late, seconds);
    } else {
      log := RunPool(requests, rans, deadline, seconds);
      r := Ok(Listing(Table(log)));
    }
    if r.Ok? {
      OneEntryEachRole(log, requests, rans, deadline, seconds);
      EntriesAccounted(log, requests, rans, deadline, seconds);
      if !deadline && DistinctRequests(requests) {
        NoDeadlineNoOrder(log, requests, rans, seconds);
        forall i, j | 0 <= i < |requests| && 0 <= j < |r.value| && requests[i].role == r.value[j].role ensures Gives(rans[i], r.value[j]) {
          OwnEntry(r.value[j], requests, rans, i);
        }
      }
    }
  }

  /** The sequential branch; the deadline is looked at before each request. */
  method RunInTurn(requests: seq<SubagentRequest>, rans: seq<Ran>, deadline: bool, late: seq<bool>, seconds: string)
    returns (r: Result<seq<SubagentResult>, string>, log: seq<Report>)
    requires |rans| == |late| == |requests|
    ensures r.Ok? ==> r.value == Listing(Table(log)) && Logged(log, requests, rans, deadline, seconds, {})
    ensures r.Ok? ==> forall i | 0 <= i < |rans| :: !Raises(rans, deadline, late, i)
    ensures r.Raised? ==>
              && |log| < |rans| && rans[|log|] == Crashed(r.error) && Raises(rans, deadline, late, |log|)
              && forall i | 0 <= i < |log| :: !Raises(rans, deadline, late, i) && log[i].index == i
  {
    hide Table, Record, Listing, Logged, ResultOf, TimedOutResult;
    log := [];
    var byRole := map[];
    ghost var left := Range(0, |requests|);
    NothingLogged(requests, rans, deadline, seconds);
    var i := 0;
    while i < |requests|
      invariant 0 <= i <= |requests| && left == Range(i, |requests|) && |log| == i
      invariant forall k | 0 <= k < i :: !Raises(rans, deadline, late, k) && log[k].index == k
      invariant byRole == Table(log) && Logged(log, requests, rans, deadline, seconds, left)
    {
      if !(deadline && late[i]) && rans[i].Crashed? { return Raised(rans[i].message), log; }
      StillThere(log, requests, rans, deadline, seconds, left, i);
      var result := if deadline && late[i] then TimedOutResult(requests[i].role, seconds) else ResultOf(requests[i], rans[i]);
      LoggedStep(log, i, result, requests, rans, deadline, seconds, left);
      byRole := Record(byRole, result);
      log := log + [Report(i, result)];
      left := left - {i};
      RangeStep(i, |requests|);
      i := i + 1;
    }
    r := Ok(Listing(byRole));
  }

  lemma {:induction false} NothingLogged(requests: seq<SubagentRequest>, rans: seq<Ran>, deadline: bool, seconds: string)
    requires |rans| == |requests|
    ensures Table([]) == map[]
    ensures Logged([], requests, rans, deadline, seconds, Range(0, |requests|))
  {
  }

  /** The thread-pool branch: `wait` gives back some finished futures, none only when its time-out has passed. */
  method RunPool(requests: seq<SubagentRequest>, rans: seq<Ran>, deadline: bool, seconds: string) returns (log: seq<Report>)
    requires |rans| == |requests|
    ensures Logged(log, requests, rans, deadline, seconds, {})
  {
    hide Table, Record, Listing, Logged, Possible;
    log := [];
    var byRole := map[];
    var pending := Range(0, |requests|);
    NothingLogged(requests, rans, deadline, seconds);
    while pending != {}
      invariant byRole == Table(log) && Logged(log, requests, rans, deadline, seconds, pending)
      decreases |pending|
    {
      var late: bool := *;
      if deadline && late { break; }
      var done: set<nat> :| done <= pending && (done == {} ==> deadline);
      if done == {} { break; }
      ghost var rest := pending - done;
      assert |pending| == |rest| + |done| by { assert pending == rest + done && rest * done == {}; }
      while done != {}
        invariant done <= pending && pending - done == rest
        invariant byRole == Table(log) && Logged(log, requests, rans, deadline, seconds, pending)
        decreases |done|
      {
        var i :| i in done;
        StillThere(log, requests, rans, deadline, seconds, pending, i);
        var result := ResultOf(requests[i], rans[i]);
        LoggedStep(log, i, result, requests, rans, deadline, seconds, pending);
        byRole := Record(byRole, result);
        log := log + [Report(i, result)];
        pending, done := pending - {i}, done - {i};
      }
    }
    log, byRole := TimeOutRest(log, byRole, pending, requests, rans, deadline, seconds);
    for i := 0 to |requests|
    {
      RolesReported(log, requests, rans, deadline, seconds, {}, i);
      if requests[i].role !in byRole { assert false; }
    }
  }

  /** What is still pending after the last wait is reported as timed out. */
  method TimeOutRest(log0: seq<Report>, byRole0: map<string, SubagentResult>, left: set<nat>,
                     requests: seq<SubagentRequest>, rans: seq<Ran>, deadline: bool, seconds: string)
    returns (log: seq<Report>, byRole: map<string, SubagentResult>)
    requires |rans| == |requests| && byRole0 == Table(log0) && Logged(log0, requests, rans, deadline, seconds, left)
    requires left != {} ==> deadline
    ensures byRole == Table(log) && Logged(log, requests, rans, deadline, seconds, {})
  {
    hide Table, Record, Logged, Possible;
    log, byRole := log0, byRole0;
    var pending := left;
    while pending != {}
      invariant byRole == Table(log) && Logged(log, requests, rans, deadline, seconds, pending)
      invariant pending != {} ==> deadline
      decreases |pending|
    {
      var i :| i in pending;
      StillThere(log, requests, rans, deadline, seconds, pending, i);
      var result := TimedOutResult(requests[i].role, seconds);
      LoggedStep(log, i, result, requests, rans, deadline, seconds, pending);
      byRole := Record(byRole, result);
      log := log + [Report(i, result)];
      pending := pending - {i};
    }
  }

  lemma {:induction false} StillThere(log: seq<Report>, requests: seq<SubagentRequest>, rans: seq<Ran>, deadline: bool, seconds: string, left: set<nat>, i: nat)
    requires |rans| == |requests| && Logged(log, requests, rans, deadline, seconds, left) && i in left
    ensures i < |requests|
    ensures Possible(i, ResultOf(requests[i], rans[i]), requests, rans, deadline, seconds)
    ensures deadline ==> Possible(i, TimedOutResult(requests[i].role, seconds), requests, rans, deadline, seconds)
  {
  }

  /** The indices from `i` up to `n` */
  function Range(i: nat, n: nat): (r: set<nat>)
    ensures forall k :: k in r <==> i <= k < n
    decreases n - i
  {
    if i < n then {i} + Range(i + 1, n) else {}
  }

  lemma {:induction false} RangeStep(i: nat, n: nat)
    requires i < n
    ensures Range(i, n) - {i} == Range(i + 1, n)
    ensures Range(n, n) == {}
  {
  }
}
