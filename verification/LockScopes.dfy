/** Lock keys over repository paths: path normalization, key construction with escalation, and the
    conflict test, as in src/flow_healer/healer_locks.py. */
module LockScopes {
  import opened Wrappers
  import opened Text

  // ---------- path normalization ----------

  const DOTS: set<char> := {'.', '/'}

  /** The component loop of `os.path.normpath` on a relative path. */
  function Collapse(parts: seq<string>, kept: seq<string>): seq<string>
  {
    if parts == [] then kept
    else if parts[0] == "" || parts[0] == "." then Collapse(parts[1..], kept)
    else if parts[0] != ".." || kept == [] || kept[|kept| - 1] == ".." then Collapse(parts[1..], kept + [parts[0]])
    else Collapse(parts[1..], kept[..|kept| - 1])
  }

  /** `os.path.normpath` on a path without a leading slash */
  function NormPath(s: string): string
  {
    var kept := Collapse(Split(s, '/'), []);
    if kept == [] then "." else Join(kept, "/")
  }

  /** What `_normalize_path` hands to `os.path.normpath` */
  function Cleaned(path: string): string { StripLeft(Replace(Trim(path), '\\', '/'), DOTS) }

  /** `_normalize_path`; "" marks a path that is not used */
  function Normalize(path: string): string
  {
    var n := NormPath(Cleaned(path));
    if StartsWith(n, "../") || n == "." then "" else n
  }

  // ---------- scopes and conflicts ----------

  datatype Scope = Repo | Path(target: string) | Dir(target: string) | Module(target: string)

  /** The set inside `sorted(...)` of `canonicalize_lock_keys` */
  function CanonicalSet(keys: seq<string>): set<string>
  {
    if keys == [] then {}
    else (if Trim(keys[0]) == "" then {} else {Lower(Trim(keys[0]))}) + CanonicalSet(keys[1..])
  }

  /** `canonicalize_lock_keys` */
  function Canonicalize(keys: seq<string>): seq<string> { Sorted(CanonicalSet(keys)) }

  /** `_parse_lock_scope`, from the canonical form of the key on */
  function ParseKey(key: string): Option<Scope>
  {
    var colon := Find(key, ":");
    if key == "repo:*" then Some(Repo)
    else if colon == |key| then None
    else
      var target := Normalize(key[colon + 1..]);
      if target == "" then None
      else if key[..colon] == "path" then Some(Path(target))
      else if key[..colon] == "dir" then Some(Dir(target))
      else if key[..colon] == "module" then Some(Module(target))
      else None
  }

  /** `_parse_lock_scope` */
  function Parse(lockKey: string): Option<Scope>
  {
    var canonical := Canonicalize([lockKey]);
    if canonical == [] then None else ParseKey(canonical[0])
  }

  /** `_is_same_or_parent` */
  predicate SameOrParent(parent: string, child: string)
  {
    child == parent || StartsWith(child, parent + "/")
  }

  /** `_scope_contains_path` */
  predicate ScopeContainsPath(scope: Scope, path: string)
  {
    match scope
    case Repo => true
    case Path(target) => target == path
    case Dir(target) => SameOrParent(target, path)
    case Module(target) => SameOrParent(target, path)
  }

  predicate ScopesConflict(left: Scope, right: Scope)
  {
    if left.Repo? || right.Repo? then true
    else if left.Path? then ScopeContainsPath(right, left.target)
    else if right.Path? then ScopeContainsPath(left, right.target)
    else SameOrParent(left.target, right.target) || SameOrParent(right.target, left.target)
  }

  /** `lock_keys_conflict` */
  predicate Conflict(left: string, right: string)
  {
    Parse(left).Some? && Parse(right).Some? && ScopesConflict(Parse(left).value, Parse(right).value)
  }

  /** The meaning of a scope, by path components and not by string prefixes: a directory or a module
      covers itself and every path below it. */
  ghost predicate Covers(scope: Scope, path: string)
  {
    match scope
    case Repo => true
    case Path(target) => path == target
    case Dir(target) => Split(target, '/') <= Split(path, '/')
    case Module(target) => Split(target, '/') <= Split(path, '/')
  }

  ghost predicate KeyCovers(lockKey: string, path: string)
  {
    Parse(lockKey).Some? && Covers(Parse(lockKey).value, path)
  }

  /** The string test for ancestors is exact at slash boundaries. */
  lemma {:induction false} ParentIffComponents(parent: string, child: string)
    ensures SameOrParent(parent, child) <==> Split(parent, '/') <= Split(child, '/')
  {
    var p, c := Split(parent, '/'), Split(child, '/');
    JoinSplit(parent, '/');
    JoinSplit(child, '/');
    if StartsWith(child, parent + "/") {
      var rest := child[|parent| + 1..];
      assert child == parent + ['/'] + rest;
      SplitConcat(parent, '/', rest);
    }
    if p <= c {
      if |p| == |c| {
        assert p == c;
      } else {
        assert c == p + c[|p|..];
        JoinConcat(p, c[|p|..], "/");
      }
    }
  }

  /** A scope contains a path, as the code tests it, exactly when it covers the path. */
  lemma {:induction false} ContainsIffCovers(scope: Scope, path: string)
    ensures ScopeContainsPath(scope, path) <==> Covers(scope, path)
  {
    if scope.Dir? || scope.Module? { ParentIffComponents(scope.target, path); }
  }

  /** Two scopes conflict exactly when some path is covered by both: ancestors of one path are comparable. */
  lemma {:induction false} ScopesConflictIffCommonPath(left: Scope, right: Scope)
    ensures ScopesConflict(left, right) <==> exists p :: Covers(left, p) && Covers(right, p)
  {
    if left.Repo? || right.Repo? {
      var p := if left.Repo? then (if right.Repo? then "" else right.target) else left.target;
      assert Covers(left, p) && Covers(right, p);
    } else {
      ContainsIffCovers(right, left.target);
      ContainsIffCovers(left, right.target);
      ParentIffComponents(left.target, right.target);
      ParentIffComponents(right.target, left.target);
      if ScopesConflict(left, right) {
        assert Covers(left, left.target) && Covers(right, right.target);
        assert (Covers(left, right.target) && Covers(right, right.target))
               || (Covers(left, left.target) && Covers(right, left.target));
      }
    }
  }

  /** `lock_keys_conflict` decides "these two locks can touch the same path", on every pair of strings. */
  lemma {:induction false} ConflictIffCommonPath(left: string, right: string)
    ensures Conflict(left, right) <==> exists p :: KeyCovers(left, p) && KeyCovers(right, p)
  {
    if Parse(left).Some? && Parse(right).Some? {
      var l, r := Parse(left).value, Parse(right).value;
      ScopesConflictIffCommonPath(l, r);
      if ScopesConflict(l, r) {
        var p :| Covers(l, p) && Covers(r, p);
        assert KeyCovers(left, p) && KeyCovers(right, p);
      }
    }
  }

  lemma {:induction false} ConflictSymmetric(left: string, right: string)
    ensures Conflict(left, right) == Conflict(right, left)
  {
    ConflictIffCommonPath(left, right);
    ConflictIffCommonPath(right, left);
  }

  /** `sorted` of a one-element set */
  lemma {:induction false} SortedSingle(x: string)
    ensures Sorted({x}) == [x]
  {
    var r := Sorted({x});
    SortedMembers({x});
    assert |r| == 1 && r[0] in r;
  }

  lemma {:induction false} CanonicalizeOne(k: string)
    ensures Canonicalize([k]) == if Trim(k) == "" then [] else [Lower(Trim(k))]
  {
    hide Trim, Lower;
    if Trim(k) != "" { SortedSingle(Lower(Trim(k))); }
    assert CanonicalSet([k]) == if Trim(k) == "" then {} else {Lower(Trim(k))};
  }

  lemma {:induction false} LowerKeepsSpaces(s: string)
    ensures Trimmed(Lower(s)) <==> Trimmed(s)
  {
    if s != "" {
      LowerAt(s, 0);
      LowerAt(s, |s| - 1);
    }
  }

  lemma {:induction false} ParseIs(k: string)
    ensures Parse(k) == if Trim(k) == "" then None else ParseKey(Lower(Trim(k)))
  {
    CanonicalizeOne(k);
  }

  lemma {:induction false} CanonicalFixed(k: string)
    ensures Trim(Lower(Trim(k))) == Lower(Trim(k))
  {
    StripBare(k, SPACES);
    LowerKeepsSpaces(Trim(k));
    StripFixed(Lower(Trim(k)), SPACES);
  }

  /** Canonical keys are stored in the lock table; they mean what the keys they came from mean. */
  lemma {:induction false} ParseCanonical(k: string)
    requires Trim(k) != ""
    ensures Parse(Lower(Trim(k))) == Parse(k)
  {
    var c := Lower(Trim(k));
    CanonicalFixed(k);
    LowerTwice(Trim(k));
    calc {
      Parse(c);
      { ParseIs(c); }
      ParseKey(Lower(Trim(c)));
      ParseKey(c);
      { ParseIs(k); }
      Parse(k);
    }
  }
}
