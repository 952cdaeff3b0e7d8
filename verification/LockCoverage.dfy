/** How much a key list locks, and no more (src/flow_healer/healer_locks.py): an escalated lock keeps the first two
    components of a path, so paths apart by then stay apart. */
module LockCoverage {
  import opened Wrappers
  import opened Text
  import opened LockScopes
  import opened PathShape
  import opened LockKeys

  /** The directory that an escalated lock keeps of a normal form: one component of one or two, else two */
  function KeptDir(n: string): string
  {
    var parts := Split(n, '/');
    if |parts| >= 3 then parts[0] + "/" + parts[1] else parts[0]
  }

  /** The form of a path or directory in a parsed key: in lower case, without leading dots and slashes */
  function InKey(t: string): string { StripLeft(Lower(t), {'.', '/'}) }

  /** One component becomes a module lock, two a lock of the first as a directory, more a lock of the first two. */
  lemma {:induction false} DirectoryLockIs(n: string, parts: seq<string>)
    requires parts != [] && (forall p | p in parts :: '/' !in p) && n == Join(parts, "/")
    ensures DirectoryLock(n) == if |parts| == 1 then "module:" + parts[0]
                                else if |parts| == 2 then "dir:" + parts[0]
                                else "dir:" + (parts[0] + "/" + parts[1])
  {
    SplitJoin(parts, '/');
    assert "module" + ":" == "module:" && "dir" + ":" == "dir:";
  }

  /** The usable normal forms of a path list */
  ghost function Forms(paths: seq<string>): set<string> { set p | p in paths && Normalize(p) != "" :: Normalize(p) }

  lemma {:induction false} TargetsAre(paths: seq<string>)
    ensures Targets(paths) == Forms(paths)
  {
    hide Normalize;
    if paths != [] {
      TargetsAre(paths[1..]);
      assert forall p :: p in paths <==> p == paths[0] || p in paths[1..];
    }
  }

  /** A directory lock covers only paths below what it keeps of its path. */
  lemma {:induction false} DirectoryKeyCovers(n: string, q: string)
    requires Shaped(n) && n != "" && Tidy(n) && KeyCovers(DirectoryLock(n), q)
    ensures Split(InKey(KeptDir(n)), '/') <= Split(q, '/')
  {
    hide Parse, Split, Shaped;
    DirPart(n);
    KeyScope(LockKind(n), DirTarget(n));
    KeptIs(n);
  }

  lemma {:induction false} KeptIs(n: string)
    ensures KeptDir(n) == DirTarget(n) && InKey(n) == ParsedTarget(n)
  {
    hide Split, Lower, StripLeft;
    assert DOTS == {'.', '/'};
  }

  /** A path lock covers its path only. */
  lemma {:induction false} PathKeyCoversOnly(n: string, q: string, kind: string)
    requires kind == "path" && Shaped(n) && n != "" && Trimmed(n) && KeyCovers(PathKey(n), q)
    ensures q == InKey(n)
  {
    hide Parse, Split, Shaped, ParsedTarget, InKey;
    assert PathKey(n) == kind + ":" + n;
    KeyScope(kind, n);
    KeptIs(n);
  }

  /** What a key of a listing may cover: above the threshold the paths below the directory of a listed path, else a
      listed path itself */
  ghost predicate Near(listed: seq<string>, threshold: int, q: string)
  {
    exists n :: n in listed && if |listed| > threshold then Split(InKey(KeptDir(n)), '/') <= Split(q, '/') else q == InKey(n)
  }

  lemma {:induction false} EscalateCoversOnly(listed: seq<string>, threshold: int, k: string, q: string)
    requires listed != [] && forall n | n in listed :: Shaped(n) && n != "" && Tidy(n)
    requires k in Escalate(listed, threshold) && KeyCovers(k, q)
    ensures Near(listed, threshold, q)
  {
    hide KeyCovers, Shaped, Tidy, Split, InKey, KeptDir, DirectoryLock;
    if |listed| > threshold {
      SortedMembers(DirectoryLocks(listed));
      DirectoryLocksOnly(listed, k);
      var n :| n in listed && k == DirectoryLock(n);
      DirectoryKeyCovers(n, q);
    } else {
      var i :| 0 <= i < |PathKeys(listed)| && PathKeys(listed)[i] == k;
      assert listed[i] in listed && k == PathKey(listed[i]);
      TidyTrimmed(listed[i]);
      PathKeyCoversOnly(listed[i], q, "path");
    }
  }

  lemma {:induction false} TidyTrimmed(n: string)
    requires Tidy(n)
    ensures Trimmed(n)
  {
  }

  /** The keys of a path list cover no more than they must: above the threshold only paths that share the kept directory
      of some listed path, else only the listed paths. Without a usable path they cover everything. */
  lemma {:induction false} DiffKeysCoverOnly(paths: seq<string>, threshold: int, k: string, q: string)
    requires forall n | n in Forms(paths) :: Tidy(n)
    requires Forms(paths) != {} && k in DiffKeys(paths, threshold) && KeyCovers(k, q)
    ensures exists p ::
              && p in paths && Normalize(p) != ""
              && if |Forms(paths)| > threshold then Split(InKey(KeptDir(Normalize(p))), '/') <= Split(q, '/') else q == InKey(Normalize(p))
  {
    hide KeyCovers, Shaped, Tidy, Split, InKey, KeptDir, Normalize, Escalate, Targets;
    TargetsAre(paths);
    var listed := Sorted(Forms(paths));
    SortedMembers(Forms(paths));
    forall n | n in listed ensures Shaped(n) && n != "" && Tidy(n) {
      var p :| p in paths && Normalize(p) != "" && Normalize(p) == n;
      NormalizedShape(p);
    }
    EscalateCoversOnly(listed, threshold, k, q);
    var n :| n in listed && if |listed| > threshold then Split(InKey(KeptDir(n)), '/') <= Split(q, '/') else q == InKey(n);
    var p :| p in paths && Normalize(p) != "" && Normalize(p) == n;
  }

  lemma {:induction false} NoUsablePathLocksAll(paths: seq<string>, threshold: int)
    requires Forms(paths) == {}
    ensures DiffKeys(paths, threshold) == ["repo:*"]
  {
    hide Normalize;
    TargetsAre(paths);
  }

  /** The same for a prediction: more than ten selected paths are locked by their directories. */
  lemma {:induction false} PredictionCoversOnly(kept: seq<string>, k: string, q: string)
    requires kept != [] && Distinct(kept) && forall n | n in kept :: Shaped(n) && n != "" && Tidy(n)
    requires k in PredictionFor(kept).keys && KeyCovers(k, q)
    ensures exists n :: n in kept && if |kept| > 10 then Split(InKey(KeptDir(n)), '/') <= Split(q, '/') else q == InKey(n)
  {
    hide KeyCovers, Shaped, Tidy, Split, InKey, KeptDir, Escalate;
    DistinctSize(kept);
    var listed := Sorted(Members(kept));
    SortedMembers(Members(kept));
    EscalateCoversOnly(listed, 10, k, q);
    var n :| n in listed && if |listed| > 10 then Split(InKey(KeptDir(n)), '/') <= Split(q, '/') else q == InKey(n);
  }

  // ---------- work apart stays apart ----------

  lemma {:induction false} Comparable(a: seq<string>, b: seq<string>, c: seq<string>)
    requires a <= c && b <= c
    ensures a <= b || b <= a
  {
  }

  lemma {:induction false} KeptBelow(n: string)
    requires Shaped(n) && n != "" && HasName(DirTarget(n))
    ensures Split(InKey(KeptDir(n)), '/') <= Split(InKey(n), '/')
  {
    hide Split, Shaped;
    KeptIs(n);
    KeptIs(KeptDir(n));
    DirPart(n);
    TargetIffName(DirTarget(n));
    ParsedAncestor(DirTarget(n), n);
    ParentIffComponents(ParsedTarget(DirTarget(n)), ParsedTarget(n));
  }

  /** Every path that a key covers lies below the kept directory of a listed path. */
  lemma {:induction false} BelowKept(paths: seq<string>, threshold: int, k: string, q: string) returns (p: string)
    requires forall n | n in Forms(paths) :: Tidy(n) && HasName(DirTarget(n))
    requires Forms(paths) != {} && k in DiffKeys(paths, threshold) && KeyCovers(k, q)
    ensures p in paths && Normalize(p) != "" && Split(InKey(KeptDir(Normalize(p))), '/') <= Split(q, '/')
  {
    hide KeyCovers, Shaped, Tidy, Split, InKey, KeptDir, Normalize, DiffKeys, HasName;
    DiffKeysCoverOnly(paths, threshold, k, q);
    p :| p in paths && Normalize(p) != ""
         && if |Forms(paths)| > threshold then Split(InKey(KeptDir(Normalize(p))), '/') <= Split(q, '/') else q == InKey(Normalize(p));
    assert Normalize(p) in Forms(paths);
    NormalizedShape(p);
    KeptBelow(Normalize(p));
  }

  /** Two path lists get a conflicting pair of keys only if the kept directories of two of their paths are one below the
      other: changes in different directories are never refused for each other, whatever the thresholds. */
  lemma {:induction false} ConflictsAreNear(left: seq<string>, tl: int, right: seq<string>, tr: int)
    requires forall n | n in Forms(left) + Forms(right) :: Tidy(n) && HasName(DirTarget(n))
    requires Forms(left) != {} && Forms(right) != {} && SomeConflict(DiffKeys(left, tl), DiffKeys(right, tr))
    ensures exists a, b ::
              && a in left && b in right && Normalize(a) != "" && Normalize(b) != ""
              && var x, y := Split(InKey(KeptDir(Normalize(a))), '/'), Split(InKey(KeptDir(Normalize(b))), '/'); x <= y || y <= x
  {
    hide KeyCovers, Conflict, Shaped, Tidy, Split, InKey, KeptDir, Normalize, DiffKeys, HasName;
    var k, l :| k in DiffKeys(left, tl) && l in DiffKeys(right, tr) && Conflict(k, l);
    ConflictIffCommonPath(k, l);
    var q :| KeyCovers(k, q) && KeyCovers(l, q);
    var a := BelowKept(left, tl, k, q);
    var b := BelowKept(right, tr, l, q);
    Comparable(Split(InKey(KeptDir(Normalize(a))), '/'), Split(InKey(KeptDir(Normalize(b))), '/'), Split(q, '/'));
  }
}
