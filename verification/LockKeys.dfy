/** From path lists to lock keys, with escalation to directories, and when two lists that share a file always get a
    conflicting pair of keys: exactly when the path key and the directory key of the file conflict
    (src/flow_healer/healer_locks.py). */
module LockKeys {
  import opened Wrappers
  import opened Text
  import opened LockScopes
  import opened PathShape

  const PREDICT_ESCALATION := 10

  function PathKey(path: string): string { "path:" + path }

  /** The directory part that an escalated lock keeps of a path. */
  function DirTarget(path: string): string
  {
    var parts := Split(path, '/');
    if |parts| <= 2 then parts[0] else parts[0] + "/" + parts[1]
  }

  function LockKind(n: string): string { if |Split(n, '/')| <= 1 then "module" else "dir" }

  /** `_to_directory_lock` */
  function DirectoryLock(path: string): string { LockKind(path) + ":" + DirTarget(path) }

  /** The set inside `sorted(...)` of `diff_paths_to_lock_keys` */
  function Targets(paths: seq<string>): set<string>
  {
    if paths == [] then {}
    else (if Normalize(paths[0]) == "" then {} else {Normalize(paths[0])}) + Targets(paths[1..])
  }

  lemma {:induction false} TargetsHold(paths: seq<string>, p: string)
    requires p in paths && Normalize(p) != ""
    ensures Normalize(p) in Targets(paths)
  {
    hide Normalize;
    if p != paths[0] { TargetsHold(paths[1..], p); }
  }

  /** Directory and module locks of a listing of normalized paths, each once */
  function DirectoryLocks(normalized: seq<string>): set<string>
  {
    if normalized == [] then {} else {DirectoryLock(normalized[0])} + DirectoryLocks(normalized[1..])
  }

  lemma {:induction false} DirectoryLocksHold(normalized: seq<string>, n: string)
    requires n in normalized
    ensures DirectoryLock(n) in DirectoryLocks(normalized)
  {
    if n != normalized[0] { DirectoryLocksHold(normalized[1..], n); }
  }

  function PathKeys(normalized: seq<string>): seq<string>
  {
    seq(|normalized|, i requires 0 <= i < |normalized| => PathKey(normalized[i]))
  }

  /** The three levels of locking, for a sorted listing of normalized paths */
  function Escalate(normalized: seq<string>, threshold: int): seq<string>
  {
    if normalized == [] then ["repo:*"]
    else if |normalized| > threshold then Sorted(DirectoryLocks(normalized))
    else PathKeys(normalized)
  }

  /** `diff_paths_to_lock_keys` */
  function DiffKeys(paths: seq<string>, threshold: int): seq<string>
  {
    Escalate(Sorted(Targets(paths)), threshold)
  }

  ghost predicate SomeConflict(left: seq<string>, right: seq<string>)
  {
    exists l, r :: l in left && r in right && Conflict(l, r)
  }

  /** What a key list says about one target: it locks the target, its directory, or everything. */
  ghost predicate Locks(keys: seq<string>, target: string)
  {
    "repo:*" in keys || PathKey(target) in keys || DirectoryLock(target) in keys
  }

  lemma {:induction false} EscalateLocks(normalized: seq<string>, threshold: int, target: string)
    requires target in normalized
    ensures Locks(Escalate(normalized, threshold), target)
  {
    if |normalized| > threshold {
      SortedMembers(DirectoryLocks(normalized));
      DirectoryLocksHold(normalized, target);
    } else {
      var i :| 0 <= i < |normalized| && normalized[i] == target;
      assert PathKeys(normalized)[i] == PathKey(target);
    }
  }

  lemma {:induction false} DiffKeysLock(paths: seq<string>, threshold: int, p: string)
    requires p in paths && Normalize(p) != ""
    ensures Locks(DiffKeys(paths, threshold), Normalize(p))
  {
    var targets := Targets(paths);
    TargetsHold(paths, p);
    SortedMembers(targets);
    EscalateLocks(Sorted(targets), threshold, Normalize(p));
  }

  // ---------- the keys of one target ----------

  /** White space at the edges of a path or of its directory part would be stripped from the key. */
  predicate Tidy(n: string) { Trimmed(n) && Trimmed(DirTarget(n)) }

  lemma {:induction false} DirTargetAvoids(n: string)
    requires '\\' !in n
    ensures '\\' !in DirTarget(n)
  {
    SplitAvoids(n, '/', '\\');
  }

  lemma {:induction false} PairShape(a: string, b: string)
    requires '/' !in a && '/' !in b && Plain(a) && Plain(b)
    ensures AllPlain(Split(a + "/" + b, '/'))
  {
    SplitConcat(a, '/', b);
    SplitAtom(a, '/');
    SplitAtom(b, '/');
    assert a + "/" + b == a + ['/'] + b;
    assert Split(a + "/" + b, '/') == [a, b];
  }

  /** The first two components, joined, are an ancestor of the whole. */
  lemma {:induction false} TwoPrefix(parts: seq<string>)
    requires |parts| > 2
    ensures StartsWith(Join(parts, "/"), parts[0] + "/" + parts[1] + "/")
  {
    assert Join(parts, "/") == parts[0] + "/" + Join(parts[1..], "/");
    assert Join(parts[1..], "/") == parts[1] + "/" + Join(parts[1..][1..], "/");
  }

  /** The directory part is a prefix at a slash boundary and keeps the shape. */
  lemma {:induction false} DirPart(n: string)
    requires Shaped(n) && n != ""
    ensures Shaped(DirTarget(n)) && DirTarget(n) != ""
    ensures n == DirTarget(n) || StartsWith(n, DirTarget(n) + "/")
  {
    var parts := Split(n, '/');
    DirTargetAvoids(n);
    if n == ".." {
      SplitAtom(n, '/');
    } else {
      JoinSplit(n, '/');
      SplitPieces(n, '/');
      assert Plain(parts[0]);
      if |parts| <= 2 {
        SplitAtom(parts[0], '/');
        if |parts| == 2 { assert Join(parts, "/") == parts[0] + "/" + Join(parts[1..], "/"); }
      } else {
        assert Plain(parts[1]);
        PairShape(parts[0], parts[1]);
        TwoPrefix(parts);
      }
    }
  }

  lemma {:induction false} PathKeyCovers(kind: string, n: string)
    requires kind == "path" && Shaped(n) && n != "" && Trimmed(n) && ParsedTarget(n) != ""
    ensures KeyCovers(PathKey(n), ParsedTarget(n))
  {
    hide Parse, ParsedTarget, Normalize, Split;
    assert PathKey(n) == kind + ":" + n;
    KeyScope(kind, n);
  }

  lemma {:induction false} DirectoryLockCovers(n: string, g: string)
    requires Shaped(DirTarget(n)) && DirTarget(n) != "" && Trimmed(DirTarget(n))
    requires ParsedTarget(DirTarget(n)) != "" && SameOrParent(ParsedTarget(DirTarget(n)), g)
    ensures KeyCovers(DirectoryLock(n), g)
  {
    var h := ParsedTarget(DirTarget(n));
    KeyScope(LockKind(n), DirTarget(n));
    ParentIffComponents(h, g);
    assert Parse(DirectoryLock(n)) == ScopeOf(LockKind(n), h);
  }

  /** In a list that locks `n`, some key covers the parsed form of `n`. */
  lemma {:induction false} LockingKeyCovers(keys: seq<string>, n: string) returns (k: string)
    requires Shaped(n) && n != "" && Tidy(n) && HasName(DirTarget(n))
    requires Locks(keys, n)
    ensures k in keys && KeyCovers(k, ParsedTarget(n))
  {
    TargetIffName(DirTarget(n));
    DirPart(n);
    ParsedAncestor(DirTarget(n), n);
    if "repo:*" in keys {
      k := "repo:*";
      RepoKey();
    } else if PathKey(n) in keys {
      k := PathKey(n);
      PathKeyCovers("path", n);
    } else {
      k := DirectoryLock(n);
      DirectoryLockCovers(n, ParsedTarget(n));
    }
  }

  /** Any two key lists that lock the same target hold a conflicting pair. */
  lemma {:induction false} SameTargetConflicts(left: seq<string>, right: seq<string>, n: string)
    requires Shaped(n) && n != "" && Tidy(n) && HasName(DirTarget(n))
    requires Locks(left, n) && Locks(right, n)
    ensures SomeConflict(left, right)
  {
    var l := LockingKeyCovers(left, n);
    var r := LockingKeyCovers(right, n);
    ConflictIffCommonPath(l, r);
  }

  // ---------- the overlap theorem ----------

  /** The list names the file of `p`, in this or another spelling. */
  ghost predicate Shares(paths: seq<string>, p: string)
  {
    exists q :: q in paths && Normalize(q) == Normalize(p)
  }

  /** Every pair of path lists that share the file of `p`, under every pair of thresholds, gets conflicting keys. */
  ghost predicate AlwaysConflicts(p: string)
  {
    forall left, right, tl, tr :: Shares(left, p) && Shares(right, p) ==> SomeConflict(DiffKeys(left, tl), DiffKeys(right, tr))
  }

  lemma {:induction false} SharesLock(paths: seq<string>, threshold: int, p: string)
    requires Shares(paths, p) && Normalize(p) != ""
    ensures Locks(DiffKeys(paths, threshold), Normalize(p))
  {
    hide Normalize, DiffKeys, Locks;
    var q :| q in paths && Normalize(q) == Normalize(p);
    DiffKeysLock(paths, threshold, q);
  }

  lemma {:induction false} NamedAlwaysConflicts(p: string)
    requires Normalize(p) != "" && Tidy(Normalize(p)) && HasName(DirTarget(Normalize(p)))
    ensures AlwaysConflicts(p)
  {
    hide Normalize, DiffKeys, Locks, Tidy, HasName;
    NormalizedShape(p);
    forall left, right, tl: int, tr: int | Shares(left, p) && Shares(right, p)
      ensures SomeConflict(DiffKeys(left, tl), DiffKeys(right, tr))
    {
      SharesLock(left, tl, p);
      SharesLock(right, tr, p);
      SameTargetConflicts(DiffKeys(left, tl), DiffKeys(right, tr), Normalize(p));
    }
  }

  lemma {:induction false} DiffKeysOne(p: string)
    requires Normalize(p) != ""
    ensures DiffKeys([p], 0) == [DirectoryLock(Normalize(p))]
  {
    hide Normalize, DirectoryLock, Sorted;
    var n := Normalize(p);
    assert Targets([p]) == {n};
    SortedSingle(n);
    assert DirectoryLocks([n]) == {DirectoryLock(n)};
    SortedSingle(DirectoryLock(n));
  }

  lemma {:induction false} NamelessUnparsed(n: string)
    requires Shaped(n) && n != "" && Tidy(n) && !HasName(DirTarget(n))
    ensures Parse(DirectoryLock(n)).None?
  {
    DirPart(n);
    TargetIffName(DirTarget(n));
    KeyScope(LockKind(n), DirTarget(n));
  }

  /** A path whose directory part is only dots escalates to a key that conflicts with nothing. */
  lemma {:induction false} NamelessEscapes(p: string, keys: seq<string>)
    requires Normalize(p) != "" && Tidy(Normalize(p)) && !HasName(DirTarget(Normalize(p)))
    ensures !SomeConflict(DiffKeys([p], 0), keys)
  {
    NormalizedShape(p);
    NamelessUnparsed(Normalize(p));
    DiffKeysOne(p);
  }

  /** The overlap theorem with its exact condition: two path lists that share a file always get a
      conflicting pair of keys if and only if the file's directory part is more than dots and slashes. */
  lemma {:induction false} SharedPathConflicts(p: string)
    requires Normalize(p) != "" && Tidy(Normalize(p))
    ensures AlwaysConflicts(p) <==> HasName(DirTarget(Normalize(p)))
  {
    if HasName(DirTarget(Normalize(p))) {
      NamedAlwaysConflicts(p);
    } else {
      NamelessEscapes(p, DiffKeys([p], 0));
      assert p in [p] && Shares([p], p);
    }
  }

  /** A path without a ".." segment always has a named directory part, so the overlap theorem holds for it. */
  lemma {:induction false} NoClimbingHasName(p: string)
    requires Normalize(p) != ""
    requires ".." !in Split(Replace(Trim(p), '\\', '/'), '/')
    ensures HasName(DirTarget(Normalize(p)))
  {
    var c := NoClimbingFirst(p);
    assert DirTarget(Normalize(p))[0] == c;
    assert c in DirTarget(Normalize(p));
  }

  lemma {:induction false} StripAvoids(s: string, cs: set<char>, c: char)
    requires c !in s
    ensures c !in StripLeft(s, cs) && c !in StripRight(s, cs)
  {
    StripLeftRemoves(s, cs);
    StripRightRemoves(s, cs);
  }

  lemma {:induction false} ReplaceAvoidsOther(s: string, a: char, b: char, c: char)
    requires c !in s && c != b
    ensures c !in Replace(s, a, b)
  {
    if s != "" { ReplaceAvoidsOther(s[1..], a, b, c); }
  }

  lemma {:induction false} CollapseAvoids(parts: seq<string>, kept: seq<string>, c: char)
    requires (forall q | q in parts :: c !in q) && (forall q | q in kept :: c !in q)
    ensures forall q | q in Collapse(parts, kept) :: c !in q
  {
    if parts != [] {
      assert parts[0] in parts;
      if parts[0] == "" || parts[0] == "." {
        CollapseAvoids(parts[1..], kept, c);
      } else if parts[0] != ".." || kept == [] || kept[|kept| - 1] == ".." {
        CollapseAvoids(parts[1..], kept + [parts[0]], c);
      } else {
        CollapseAvoids(parts[1..], kept[..|kept| - 1], c);
      }
    }
  }

  /** Normalization brings in no character but slashes and dots. */
  lemma {:induction false} NormalizeAvoids(p: string, c: char)
    requires c !in p && c != '/' && c != '.'
    ensures c !in Normalize(p)
  {
    StripAvoids(p, SPACES, c);
    StripAvoids(StripLeft(p, SPACES), SPACES, c);
    ReplaceAvoidsOther(Trim(p), '\\', '/', c);
    StripAvoids(Replace(Trim(p), '\\', '/'), DOTS, c);
    hide StripLeft, StripRight, Replace;
    SplitAvoids(Cleaned(p), '/', c);
    CollapseAvoids(Split(Cleaned(p), '/'), [], c);
    JoinAvoids(Collapse(Split(Cleaned(p), '/'), []), "/", c);
  }

  lemma {:induction false} UnspacedTidy(p: string)
    requires forall c | c in SPACES :: c !in p
    ensures Tidy(Normalize(p))
  {
    hide Normalize;
    var n := Normalize(p);
    forall c | c in SPACES ensures c !in n && c !in DirTarget(n) {
      NormalizeAvoids(p, c);
      SplitAvoids(n, '/', c);
    }
  }

  /** The overlap theorem on ordinary paths: without white space and without a ".." segment. */
  lemma {:induction false} OrdinaryPathsConflict(p: string)
    requires Normalize(p) != "" && (forall c | c in SPACES :: c !in p)
    requires ".." !in Split(Replace(Trim(p), '\\', '/'), '/')
    ensures AlwaysConflicts(p)
  {
    hide Normalize, Replace, Trim, AlwaysConflicts;
    UnspacedTidy(p);
    NoClimbingHasName(p);
    NamedAlwaysConflicts(p);
  }

  /** In `a/../...` climbing cancels the only named segment and leaves dots: a usable path of which some pairs of lists
      that share it get no conflicting keys. */
  lemma {:induction false} DotsOnlyPath(parts: seq<string>, p: string)
    requires parts == ["a", "..", "..."] && p == Join(parts, "/")
    ensures Normalize(p) == "..." && !AlwaysConflicts(p)
  {
    hide AlwaysConflicts, Trim, Replace, StripLeft;
    SplitJoin(parts, '/');
    DotsCollapse(parts);
    assert p == "a/../..." by { DotsJoin(parts); }
    DotsCleaned(p);
    var n := Normalize(p);
    SplitAtom(n, '/');
    assert DirTarget(n) == n;
    SharedPathConflicts(p);
  }

  lemma {:induction false} DotsCollapse(parts: seq<string>)
    requires parts == ["a", "..", "..."]
    ensures Collapse(parts, []) == ["..."]
  {
    assert Collapse(parts, []) == Collapse(parts[1..], ["a"]) == Collapse(parts[1..][1..], []) == ["..."];
  }

  lemma {:induction false} DotsJoin(parts: seq<string>)
    requires parts == ["a", "..", "..."]
    ensures Join(parts, "/") == "a/../..."
  {
    assert parts[1..] == ["..", "..."] && parts[1..][1..] == ["..."];
    assert Join(["..."], "/") == "..." && Join(["..", "..."], "/") == ".." + "/" + "..." == "../...";
    assert "a" + "/" + "../..." == "a/../...";
  }

  lemma {:induction false} DotsCleaned(p: string)
    requires p == "a/../..."
    ensures Cleaned(p) == p
  {
    TrimFixed(p);
    ReplaceFixed(p, '\\', '/');
  }

  /** Two keys out of everything, the path and its directory conflict once the last two do. */
  lemma {:induction false} OwnKeysConflict(k: string, l: string, n: string)
    requires Conflict(PathKey(n), DirectoryLock(n))
    requires k in {"repo:*", PathKey(n), DirectoryLock(n)} && l in {"repo:*", PathKey(n), DirectoryLock(n)}
    ensures Conflict(k, l)
  {
    hide Parse, Split, DirectoryLock, PathKey;
    RepoKey();
    ConflictSymmetric(PathKey(n), DirectoryLock(n));
    SelfConflict(PathKey(n));
    SelfConflict(DirectoryLock(n));
  }

  lemma {:induction false} SelfConflict(k: string)
    requires Parse(k).Some?
    ensures Conflict(k, k)
  {
    hide Parse;
  }

  lemma {:induction false} DiffKeysOnePath(p: string)
    requires Normalize(p) != ""
    ensures DiffKeys([p], 1) == [PathKey(Normalize(p))]
  {
    hide Normalize, Sorted, PathKey;
    var n := Normalize(p);
    assert Targets([p]) == {n};
    SortedSingle(n);
  }

  /** The overlap theorem for every usable path, untidy ones included: it holds exactly when the two keys that
      the path itself can get conflict with each other. */
  lemma {:induction false} AlwaysConflictsIff(p: string)
    requires Normalize(p) != ""
    ensures AlwaysConflicts(p) <==> Conflict(PathKey(Normalize(p)), DirectoryLock(Normalize(p)))
  {
    hide Normalize, Conflict, DiffKeys, DirectoryLock, PathKey;
    var n := Normalize(p);
    DiffKeysOnePath(p);
    DiffKeysOne(p);
    if AlwaysConflicts(p) {
      assert p in [p] && Shares([p], p);
      assert SomeConflict(DiffKeys([p], 1), DiffKeys([p], 0));
    }
    if Conflict(PathKey(n), DirectoryLock(n)) {
      forall left, right, tl: int, tr: int | Shares(left, p) && Shares(right, p)
        ensures SomeConflict(DiffKeys(left, tl), DiffKeys(right, tr))
      {
        SharesLock(left, tl, p);
        SharesLock(right, tr, p);
        var k :| k in DiffKeys(left, tl) && k in {"repo:*", PathKey(n), DirectoryLock(n)};
        var l :| l in DiffKeys(right, tr) && l in {"repo:*", PathKey(n), DirectoryLock(n)};
        OwnKeysConflict(k, l, n);
      }
    }
  }

  /** A blank at the end of a key is lost when it is parsed. */
  lemma {:induction false} BlankIsLost(kind: string, t: string)
    requires IsKind(kind) && Shaped(t) && Trimmed(t) && t != ""
    ensures Parse(kind + ":" + (t + " ")) == ScopeOf(kind, ParsedTarget(t))
  {
    hide Trim, Lower, ParseKey, Parse, Shaped, ParsedTarget;
    var k := kind + ":" + t;
    assert k[0] == kind[0] && k[|k| - 1] == t[|t| - 1];
    TrimAfter(k, ' ');
    TrimFixed(k);
    assert kind + ":" + (t + " ") == k + [' '];
    ParseIs(k);
    ParseIs(k + [' ']);
    KeyScope(kind, t);
  }

  lemma {:induction false} TwoParts(a: string, b: string)
    requires '/' !in a && '/' !in b
    ensures Split(a + "/" + b, '/') == [a, b]
  {
    SplitConcat(a, '/', b);
    SplitAtom(a, '/');
    SplitAtom(b, '/');
    assert a + "/" + b == a + ['/'] + b;
  }

  /** `x /y` is such an untidy path, for short lower-case names: its directory key loses the blank and no longer
      covers the file. */
  lemma {:induction false} UntidyPathEscapes(x: string, y: string, p: string)
    requires |x| == |y| == 1 && 'a' <= x[0] <= 'z' && 'a' <= y[0] <= 'z' && p == x + " /" + y
    ensures Normalize(p) == p && !AlwaysConflicts(p)
  {
    hide Parse, AlwaysConflicts, Trim, Lower, Normalize, Conflict, Split;
    var a := x + " ";
    assert p == a + "/" + y;
    TwoParts(a, y);
    SplitAtom(x, '/');
    assert Shaped(p) && Shaped(x);
    NormalizeAgain(p);
    AlwaysConflictsIff(p);
    KeyScope("path", p);
    BlankIsLost("dir", x);
    assert PathKey(p) == "path" + ":" + p && DirectoryLock(p) == "dir" + ":" + (x + " ");
    LowerFixed(p);
    LowerFixed(x);
    assert p[1] == ' ';
    NotParent(x, p);
  }

  lemma {:induction false} NotParent(x: string, p: string)
    requires |x| == 1 && |p| > 1 && p[1] == ' ' && Parse(PathKey(p)) == Some(Path(p)) && Parse(DirectoryLock(p)) == Some(Dir(x))
    ensures !Conflict(PathKey(p), DirectoryLock(p))
  {
    hide Parse, PathKey, DirectoryLock;
  }

  // ---------- predict_lock_set ----------

  function Normals(candidates: seq<string>): (r: seq<string>)
    ensures |r| == |candidates| && forall i | 0 <= i < |r| :: r[i] == Normalize(candidates[i])
  {
    seq(|candidates|, i requires 0 <= i < |candidates| => Normalize(candidates[i]))
  }

  ghost predicate Distinct(s: seq<string>) { forall i, j | 0 <= i < j < |s| :: s[i] != s[j] }

  /** The usable normal forms, each once, in the order of first appearance */
  function Usable(read: seq<string>): seq<string>
  {
    if read == [] then []
    else
      var front, n := Usable(read[..|read| - 1]), read[|read| - 1];
      if n == "" || n in front then front else front + [n]
  }

  function PathLimit(maxPaths: int): nat { if maxPaths > 1 then maxPaths else 1 }

  /** What the selection loop of `predict_lock_set` keeps: the first usable forms, up to the limit */
  function Select(read: seq<string>, maxPaths: int): seq<string>
  {
    var all := Usable(read);
    if |all| <= PathLimit(maxPaths) then all else all[..PathLimit(maxPaths)]
  }

  lemma {:induction false} UsableIs(read: seq<string>)
    ensures Distinct(Usable(read))
    ensures forall n :: n in Usable(read) <==> n != "" && n in read
  {
    if read != [] {
      var n := |read| - 1;
      assert read == read[..n] + [read[n]];
      UsableIs(read[..n]);
    }
  }

  /** Later forms do not change what was found before. */
  lemma {:induction false} UsablePrefix(read: seq<string>, i: nat)
    requires i <= |read|
    ensures Usable(read[..i]) <= Usable(read)
    decreases |read|
  {
    if i < |read| {
      assert read[..|read| - 1][..i] == read[..i];
      UsablePrefix(read[..|read| - 1], i);
    } else {
      assert read[..i] == read;
    }
  }

  datatype Prediction = Prediction(keys: seq<string>, source: string)

  /** The selection loop of `predict_lock_set` */
  method SelectPaths(candidates: seq<string>, maxPaths: int) returns (kept: seq<string>)
    ensures kept == Select(Normals(candidates), maxPaths)
  {
    hide Normalize;
    ghost var normals := Normals(candidates);
    kept := [];
    var i := 0;
    while i < |candidates|
      invariant 0 <= i <= |candidates|
      invariant kept == Usable(normals[..i])
      invariant |kept| < maxPaths || kept == []
    {
      var candidate := Normalize(candidates[i]);
      assert normals[..i + 1][..i] == normals[..i];
      i := i + 1;
      if candidate == "" || candidate in kept {
        continue;
      }
      kept := kept + [candidate];
      if |kept| >= maxPaths {
        UsablePrefix(normals, i);
        return;
      }
    }
    assert normals[..i] == normals;
  }

  function SourceOf(count: nat): string
  {
    if count == 0 then "coarse_repo_lock"
    else if count > PREDICT_ESCALATION then "directory_escalation"
    else "path_level"
  }

  function Members(s: seq<string>): set<string> { set x | x in s }

  /** The prediction for the selected paths */
  function PredictionFor(kept: seq<string>): Prediction
  {
    Prediction(Escalate(Sorted(Members(kept)), PREDICT_ESCALATION), SourceOf(|kept|))
  }

  /** `predict_lock_set`, after the path candidates of the issue text have been extracted */
  method PredictLockSet(candidates: seq<string>, maxPaths: int) returns (p: Prediction)
    ensures p == PredictionFor(Select(Normals(candidates), maxPaths))
  {
    hide Normalize, Sorted, DirectoryLocks, Usable;
    var kept := SelectPaths(candidates, maxPaths);
    var normalized := Sorted(Members(kept));
    SelectIs(Normals(candidates), maxPaths);
    DistinctSize(kept);
    if kept == [] {
      p := Prediction(["repo:*"], "coarse_repo_lock");
    } else if |kept| > PREDICT_ESCALATION {
      p := Prediction(Sorted(DirectoryLocks(normalized)), "directory_escalation");
    } else {
      p := Prediction(PathKeys(normalized), "path_level");
    }
  }

  /** The selection holds usable forms that were read, each once, at most the limit; and all of them unless the limit
      cut it short. */
  lemma {:induction false} SelectIs(read: seq<string>, maxPaths: int)
    ensures var kept := Select(read, maxPaths);
            && Distinct(kept) && |kept| <= (if maxPaths > 1 then maxPaths else 1) && kept <= Usable(read)
            && (forall n | n in kept :: n != "" && n in read)
            && (|kept| < (if maxPaths > 1 then maxPaths else 1) ==> forall n | n in read && n != "" :: n in kept)
  {
    UsableIs(read);
  }

  lemma {:induction false} DirectoryLocksOnly(normalized: seq<string>, k: string)
    requires k in DirectoryLocks(normalized)
    ensures exists n :: n in normalized && k == DirectoryLock(n)
  {
    hide DirectoryLock;
    if k == DirectoryLock(normalized[0]) {
      assert normalized[0] in normalized;
    } else {
      DirectoryLocksOnly(normalized[1..], k);
      var n :| n in normalized[1..] && k == DirectoryLock(n);
      assert n in normalized;
    }
  }

  /** A prediction locks every selected path, and nothing else: each key is everything when no path was selected, the
      directory of a selected path when there are more than ten, and else a selected path. */
  lemma {:induction false} PredictionLocksExactly(kept: seq<string>)
    requires Distinct(kept)
    ensures var p := PredictionFor(kept);
            && (forall n | n in kept :: Locks(p.keys, n))
            && (forall k | k in p.keys ::
                  if kept == [] then k == "repo:*"
                  else if |kept| > PREDICT_ESCALATION then exists n :: n in kept && k == DirectoryLock(n)
                  else exists n :: n in kept && k == PathKey(n))
  {
    hide Sorted, DirectoryLock, PathKey, Locks;
    var normalized := Sorted(Members(kept));
    SortedMembers(Members(kept));
    DistinctSize(kept);
    forall n | n in kept ensures Locks(PredictionFor(kept).keys, n) {
      EscalateLocks(normalized, PREDICT_ESCALATION, n);
    }
    SortedMembers(DirectoryLocks(normalized));
    forall k | k in DirectoryLocks(normalized) ensures exists n :: n in kept && k == DirectoryLock(n) {
      DirectoryLocksOnly(normalized, k);
    }
    forall k | k in PathKeys(normalized) ensures exists n :: n in kept && k == PathKey(n) {
      var i :| 0 <= i < |normalized| && PathKeys(normalized)[i] == k;
      assert normalized[i] in normalized;
    }
  }

  lemma {:induction false} DistinctSize(s: seq<string>)
    requires Distinct(s)
    ensures |Members(s)| == |s|
    ensures s == [] <==> Members(s) == {}
  {
    if s != [] {
      var t := s[..|s| - 1];
      DistinctSize(t);
      assert s == t + [s[|s| - 1]];
      assert Members(s) == Members(t) + {s[|s| - 1]};
    }
  }

  /** Prediction locks taken before the work conflict with diff locks taken after it, when they share a file
      that the overlap theorem covers. */
  lemma {:induction false} PredictionMeetsDiff(keys: seq<string>, p: string, changed: seq<string>, threshold: int)
    requires Normalize(p) != "" && AlwaysConflicts(p)
    requires Locks(keys, Normalize(p)) && Shares(changed, p)
    ensures SomeConflict(keys, DiffKeys(changed, threshold))
  {
    hide Normalize, Conflict, DiffKeys, DirectoryLock, PathKey, AlwaysConflicts;
    var n := Normalize(p);
    AlwaysConflictsIff(p);
    SharesLock(changed, threshold, p);
    var k :| k in keys && k in {"repo:*", PathKey(n), DirectoryLock(n)};
    var l :| l in DiffKeys(changed, threshold) && l in {"repo:*", PathKey(n), DirectoryLock(n)};
    OwnKeysConflict(k, l, n);
  }
}
