/** What normalized paths look like, and what parsing a key does to a target that is already normalized
    (src/flow_healer/healer_locks.py). */
module PathShape {
  import opened Wrappers
  import opened Text
  import opened LockScopes

  /** A component that `os.path.normpath` keeps and that does not climb. */
  predicate Plain(c: string) { c != "" && c != "." && c != ".." }

  predicate AllPlain(parts: seq<string>) { forall c | c in parts :: Plain(c) }

  /** Climbing components stand first; all others are plain. */
  predicate Climbing(parts: seq<string>)
  {
    forall i | 0 <= i < |parts| :: Plain(parts[i]) || (parts[i] == ".." && (i > 0 ==> parts[i - 1] == ".."))
  }

  /** No component holds a separator of either kind. */
  predicate NoSlashes(parts: seq<string>) { forall c | c in parts :: '/' !in c && '\\' !in c }

  /** A path as normalization leaves it. */
  predicate Shaped(t: string) { (t == ".." || AllPlain(Split(t, '/'))) && '\\' !in t }

  lemma {:induction false} CollapseClimbs(parts: seq<string>, kept: seq<string>)
    requires Climbing(kept) && NoSlashes(kept) && NoSlashes(parts)
    ensures Climbing(Collapse(parts, kept)) && NoSlashes(Collapse(parts, kept))
  {
    if parts != [] {
      var c := parts[0];
      if c == "" || c == "." {
        CollapseClimbs(parts[1..], kept);
      } else if c != ".." || kept == [] || kept[|kept| - 1] == ".." {
        CollapseClimbs(parts[1..], kept + [c]);
      } else {
        CollapseClimbs(parts[1..], kept[..|kept| - 1]);
      }
    }
  }

  lemma {:induction false} CollapsePlain(parts: seq<string>, kept: seq<string>)
    requires AllPlain(parts)
    ensures Collapse(parts, kept) == kept + parts
  {
    if parts != [] {
      assert Plain(parts[0]);
      CollapsePlain(parts[1..], kept + [parts[0]]);
      assert kept + [parts[0]] + parts[1..] == kept + parts;
    } else {
      assert kept + parts == kept;
    }
  }

  lemma {:induction false} CleanedNoBackslash(p: string)
    ensures '\\' !in Cleaned(p)
  {
    ReplaceAvoids(Trim(p), '\\', '/');
    StripLeftRemoves(Replace(Trim(p), '\\', '/'), DOTS);
  }

  lemma {:induction false} PiecesNoSlashes(s: string)
    requires '\\' !in s
    ensures NoSlashes(Split(s, '/'))
  {
    SplitPieces(s, '/');
    SplitAvoids(s, '/', '\\');
  }

  /** The components that normalization keeps. */
  function Kept(path: string): seq<string> { Collapse(Split(Cleaned(path), '/'), []) }

  lemma {:induction false} KeptClimbs(path: string)
    ensures Climbing(Kept(path)) && NoSlashes(Kept(path))
  {
    CleanedNoBackslash(path);
    PiecesNoSlashes(Cleaned(path));
    CollapseClimbs(Split(Cleaned(path), '/'), []);
  }

  lemma {:induction false} ClimbingIsDropped(kept: seq<string>)
    requires |kept| > 1 && kept[0] == ".."
    ensures StartsWith(Join(kept, "/"), "../")
  {
    assert Join(kept, "/") == "../" + Join(kept[1..], "/");
  }

  lemma {:induction false} AllPlainAfter(kept: seq<string>, n: nat)
    requires Climbing(kept) && kept != [] && kept[0] != ".." && n <= |kept|
    ensures forall i | 0 <= i < n :: Plain(kept[i])
  {
    if n > 0 {
      AllPlainAfter(kept, n - 1);
      assert n > 1 ==> Plain(kept[n - 2]);
      assert Plain(kept[n - 1]);
    }
  }

  /** A usable normalized path is a list of plain components, or the single component "..". */
  lemma {:induction false} NormalizedShape(path: string)
    requires Normalize(path) != ""
    ensures Shaped(Normalize(path))
  {
    hide Cleaned, Collapse;
    var kept := Kept(path);
    KeptClimbs(path);
    if kept != [] {
      SplitJoin(kept, '/');
      JoinAvoids(kept, "/", '\\');
      assert Normalize(path) == Join(kept, "/");
      if kept[0] == ".." {
        if |kept| > 1 { ClimbingIsDropped(kept); }
        assert Join(kept, "/") == kept[0];
      } else {
        AllPlainAfter(kept, |kept|);
        assert AllPlain(kept);
      }
    }
  }

  // ---------- normalizing once more ----------

  /** Stripping leading dots and slashes keeps a suffix of the later components. */
  lemma {:induction false} StripKeepsTail(s: string) returns (k: nat)
    ensures 1 <= k <= |Split(s, '/')|
    ensures Split(StripLeft(s, DOTS), '/')[1..] == Split(s, '/')[k..]
  {
    hide Split;
    k := 1;
    if s != "" && s[0] in DOTS {
      var j := StripKeepsTail(s[1..]);
      SplitTail(s, '/');
      k := if s[0] == '/' then j + 1 else j;
      assert Split(s, '/')[k..] == Split(s, '/')[1..][k - 1..];
      assert Split(s[1..], '/')[j..] == Split(s[1..], '/')[1..][j - 1..];
    }
  }

  lemma {:induction false} CleanedTidy(x: string)
    requires Trimmed(x) && '\\' !in x
    ensures Cleaned(x) == StripLeft(x, DOTS)
  {
    TrimFixed(x);
    ReplaceFixed(x, '\\', '/');
  }

  lemma {:induction false} ClimbingStart(d: string)
    requires StartsWith(d, "../")
    ensures Split(d, '/')[0] == ".."
  {
    var up := d[..2];
    assert d == up + ['/'] + d[3..];
    SplitConcat(up, '/', d[3..]);
    SplitAtom(up, '/');
  }

  lemma {:induction false} NormPathPlain(d: string)
    requires AllPlain(Split(d, '/'))
    ensures NormPath(d) == d && d != "." && !StartsWith(d, "../")
  {
    var parts := Split(d, '/');
    CollapsePlain(parts, []);
    assert [] + parts == parts;
    JoinSplit(d, '/');
    assert Plain(parts[0]);
    if StartsWith(d, "../") { ClimbingStart(d); }
  }

  lemma {:induction false} NormPathEmpty()
    ensures NormPath("") == "."
  {
    assert Split("", '/') == [""];
    assert Collapse([""], []) == Collapse([], []);
  }

  lemma {:induction false} DotsStrip(x: string)
    requires x == ".."
    ensures StripLeft(x, DOTS) == ""
  {
    assert StripLeft(x, DOTS) == StripLeft(x[1..], DOTS) == StripLeft(x[1..][1..], DOTS);
  }

  /** What is left after the leading dots and slashes are gone is a plain path. */
  lemma {:induction false} StrippedPlain(x: string)
    requires x == ".." || AllPlain(Split(x, '/'))
    requires StripLeft(x, DOTS) != ""
    ensures AllPlain(Split(StripLeft(x, DOTS), '/'))
  {
    var d := StripLeft(x, DOTS);
    var k := StripKeepsTail(x);
    var parts := Split(d, '/');
    if x == ".." {
      DotsStrip(x);
    } else {
      assert parts[0] != "" && parts[0][0] == d[0];
      assert parts[1..] == Split(x, '/')[k..];
      assert forall i | k <= i < |Split(x, '/')| :: Plain(Split(x, '/')[i]);
      assert forall i | 1 <= i < |parts| :: parts[i] == parts[1..][i - 1];
    }
  }

  /** On a path that is already normalized, a second normalization only strips leading dots. */
  lemma {:induction false} NormalizeAgain(x: string)
    requires Shaped(x) && Trimmed(x)
    ensures Normalize(x) == StripLeft(x, DOTS)
  {
    var d := StripLeft(x, DOTS);
    assert Cleaned(x) == d by { CleanedTidy(x); }
    if d != "" {
      assert NormPath(d) == d && d != "." && !StartsWith(d, "../") by {
        StrippedPlain(x);
        NormPathPlain(d);
      }
    } else {
      assert NormPath(d) == "." by { NormPathEmpty(); }
    }
  }

  // ---------- lower-casing keeps the shape ----------

  function LowerParts(parts: seq<string>): (r: seq<string>)
    ensures |r| == |parts|
  {
    if parts == [] then [] else [Lower(parts[0])] + LowerParts(parts[1..])
  }

  lemma {:induction false} SplitLower(s: string)
    ensures Split(Lower(s), '/') == LowerParts(Split(s, '/'))
  {
    if s != "" {
      SplitLower(s[1..]);
      var rest := Split(s[1..], '/');
      assert Lower(s)[1..] == Lower(s[1..]);
      if s[0] == '/' {
        assert ([""] + rest)[1..] == rest;
      } else {
        assert ([s[0]] + rest[0])[1..] == rest[0];
        assert Split(s, '/')[1..] == rest[1..];
      }
    }
  }

  lemma {:induction false} PlainLower(c: string)
    requires Plain(c)
    ensures Plain(Lower(c))
  {
    LowerAt(c, 0);
    if |c| == 2 { LowerAt(c, 1); }
    assert |c| == 1 ==> c == [c[0]];
    assert |c| == 2 ==> c == [c[0], c[1]];
  }

  lemma {:induction false} PlainLowerParts(parts: seq<string>)
    requires AllPlain(parts)
    ensures AllPlain(LowerParts(parts))
  {
    if parts != [] {
      assert Plain(parts[0]);
      PlainLower(parts[0]);
      PlainLowerParts(parts[1..]);
    }
  }

  lemma {:induction false} LowerShaped(t: string)
    requires Shaped(t)
    ensures Shaped(Lower(t))
  {
    LowerAvoids(t);
    if t == ".." {
      assert Lower(t) == [LowerChar(t[0])] + Lower(t[1..]);
      assert Lower(t[1..]) == [LowerChar(t[1])] + Lower(t[1..][1..]);
    } else {
      SplitLower(t);
      PlainLowerParts(Split(t, '/'));
    }
  }

  lemma {:induction false} LowerAvoids(s: string)
    requires '\\' !in s
    ensures '\\' !in Lower(s)
  {
    if s != "" { LowerAvoids(s[1..]); }
  }

  // ---------- the scope of a key ----------

  /** Something other than dots and slashes is left of the path. */
  predicate HasName(d: string) { exists c | c in d :: c !in DOTS }

  /** The scope target that a key for `t` gets when it is parsed. */
  function ParsedTarget(t: string): string { StripLeft(Lower(t), DOTS) }

  lemma {:induction false} TargetIffName(t: string)
    ensures ParsedTarget(t) != "" <==> HasName(t)
  {
    hide StripLeft;
    var l := Lower(t);
    var g := ParsedTarget(t);
    if g != "" {
      var i := |l| - |g|;
      StripLeftRemoves(l, DOTS);
      LowerAt(t, i);
      assert l[i] !in DOTS && t[i] in t;
    } else {
      StripLeftRemoves(l, DOTS);
      forall c | c in t ensures c in DOTS {
        var i :| 0 <= i < |t| && t[i] == c;
        LowerAt(t, i);
        assert l[i] in DOTS;
      }
    }
  }

  predicate IsKind(kind: string) { kind == "path" || kind == "dir" || kind == "module" }

  lemma {:induction false} FindColon(kind: string, t: string)
    requires ':' !in kind
    ensures Find(kind + ":" + t, ":") == |kind|
  {
    var key := kind + ":" + t;
    assert key[|kind|..] == ":" + t;
    forall k | 0 <= k < |kind| ensures !(":" <= key[k..]) {
      assert key[k..][0] == kind[k];
    }
  }

  function ScopeOf(kind: string, target: string): Option<Scope>
    requires IsKind(kind)
  {
    if target == "" then None
    else Some(if kind == "path" then Path(target) else if kind == "dir" then Dir(target) else Module(target))
  }

  lemma {:induction false} ParseKeyParts(kind: string, x: string)
    requires IsKind(kind)
    ensures ParseKey(kind + ":" + x) == ScopeOf(kind, Normalize(x))
  {
    hide Normalize;
    var key := kind + ":" + x;
    FindColon(kind, x);
    assert key[|kind| + 1..] == x;
    assert key[..|kind|] == kind;
    assert key[0] == kind[0];
  }

  lemma {:induction false} CanonicalKey(kind: string, t: string)
    requires IsKind(kind) && Trimmed(t) && t != ""
    ensures Trim(kind + ":" + t) == kind + ":" + t
    ensures Lower(kind + ":" + t) == kind + ":" + Lower(t)
  {
    var key := kind + ":" + t;
    assert key[0] == kind[0] && key[|key| - 1] == t[|t| - 1];
    TrimFixed(key);
    var head := kind + ":";
    LowerFixed(head);
    LowerConcat(head, t);
  }

  /** A key built from a shaped target parses to its own kind and the stripped target. */
  lemma {:induction false} KeyScope(kind: string, t: string)
    requires IsKind(kind) && Shaped(t) && Trimmed(t) && t != ""
    ensures Parse(kind + ":" + t) == ScopeOf(kind, ParsedTarget(t))
  {
    var key := kind + ":" + t;
    calc {
      Parse(key);
      { CanonicalKey(kind, t); ParseIs(key); }
      ParseKey(kind + ":" + Lower(t));
      { ParseKeyParts(kind, Lower(t)); }
      ScopeOf(kind, Normalize(Lower(t)));
      { LowerShaped(t); LowerKeepsSpaces(t); NormalizeAgain(Lower(t)); }
      ScopeOf(kind, ParsedTarget(t));
    }
  }

  lemma {:induction false} RepoKey()
    ensures Parse("repo:*") == Some(Repo)
  {
    hide Parse, Normalize, Find, Strip;
    var r :| r == "repo:*";
    assert Trimmed(r);
    TrimFixed(r);
    LowerFixed(r);
    ParseIs(r);
  }

  lemma {:induction false} ParsedTargetPrefix(d: string, rest: string)
    requires ParsedTarget(d) != ""
    ensures ParsedTarget(d + rest) == ParsedTarget(d) + Lower(rest)
  {
    LowerConcat(d, rest);
    StripLeftPrefix(Lower(d), Lower(rest), DOTS);
  }

  /** Parsing keeps an ancestor an ancestor. */
  lemma {:induction false} ParsedAncestor(d: string, n: string)
    requires n == d || StartsWith(n, d + "/")
    requires ParsedTarget(d) != ""
    ensures SameOrParent(ParsedTarget(d), ParsedTarget(n))
  {
    if n != d {
      var rest := n[|d|..];
      assert n == d + rest;
      assert rest[0] == '/';
      ParsedTargetPrefix(d, rest);
      LowerAt(rest, 0);
    }
  }

  // ---------- paths that do not climb ----------

  lemma {:induction false} CollapseGrows(parts: seq<string>, kept: seq<string>)
    requires ".." !in parts
    ensures kept <= Collapse(parts, kept)
  {
    if parts != [] {
      assert parts[0] in parts;
      if parts[0] == "" || parts[0] == "." {
        CollapseGrows(parts[1..], kept);
      } else {
        CollapseGrows(parts[1..], kept + [parts[0]]);
      }
    }
  }

  /** Without climbing, the first component survives normalization. */
  lemma {:induction false} FirstSurvives(parts: seq<string>)
    requires ".." !in parts && parts != [] && parts[0] != "" && parts[0] != "."
    ensures Collapse(parts, []) != [] && Collapse(parts, [])[0] == parts[0]
  {
    assert parts[0] in parts;
    assert [] + [parts[0]] == [parts[0]];
    CollapseGrows(parts[1..], [parts[0]]);
  }

  /** In a path without ".." segments, the first component of the normal form starts with a character
      that is neither a dot nor a slash. */
  lemma {:induction false} NoClimbingFirst(p: string) returns (c: char)
    requires Normalize(p) != ""
    requires ".." !in Split(Replace(Trim(p), '\\', '/'), '/')
    ensures c !in DOTS
    ensures Split(Normalize(p), '/')[0] != "" && Split(Normalize(p), '/')[0][0] == c
  {
    var s := Cleaned(p);
    if s == "" { NormPathEmpty(); }
    c := s[0];
    var k := StripKeepsTail(Replace(Trim(p), '\\', '/'));
    var parts := Split(s, '/');
    assert parts[0] != "" && parts[0][0] == s[0];
    assert ".." !in parts[1..];
    FirstSurvives(parts);
    KeptClimbs(p);
    SplitJoin(Kept(p), '/');
  }

  // ---------- what normalization does ----------

  /** A component and the climbing after it cancel, wherever they stand. */
  lemma {:induction false} CollapseUp(front: seq<string>, x: string, rest: seq<string>, kept: seq<string>)
    requires Plain(x)
    ensures Collapse(front + [x, ".."] + rest, kept) == Collapse(front + rest, kept)
  {
    var all := front + [x, ".."] + rest;
    if front == [] {
      assert all[1..] == [".."] + rest && all[1..][1..] == rest && front + rest == rest;
      assert (kept + [x])[..|kept|] == kept;
    } else {
      assert all[1..] == front[1..] + [x, ".."] + rest && (front + rest)[1..] == front[1..] + rest;
      CollapseUp(front[1..], x, rest, kept);
      CollapseUp(front[1..], x, rest, kept + [front[0]]);
      if kept != [] { CollapseUp(front[1..], x, rest, kept[..|kept| - 1]); }
    }
  }

  /** Empty and `.` components do not count. */
  lemma {:induction false} CollapseSkips(front: seq<string>, x: string, rest: seq<string>, kept: seq<string>)
    requires x == "" || x == "."
    ensures Collapse(front + [x] + rest, kept) == Collapse(front + rest, kept)
  {
    var all := front + [x] + rest;
    if front == [] {
      assert all[1..] == rest && front + rest == rest;
    } else {
      assert all[1..] == front[1..] + [x] + rest && (front + rest)[1..] == front[1..] + rest;
      CollapseSkips(front[1..], x, rest, kept);
      CollapseSkips(front[1..], x, rest, kept + [front[0]]);
      if kept != [] { CollapseSkips(front[1..], x, rest, kept[..|kept| - 1]); }
    }
  }

  /** `a/x/../b` is `a/b`, and so are `a/./b` and `a//b`. */
  lemma {:induction false} NormPathResolves(a: string, x: string, b: string)
    requires Plain(x) && '/' !in x
    ensures NormPath(a + "/" + x + "/../" + b) == NormPath(a + "/" + b)
    ensures NormPath(a + "/./" + b) == NormPath(a + "/" + b) == NormPath(a + "//" + b)
  {
    hide Split, Collapse;
    var up, dot, none := "..", ".", "";
    SplitAtom(x, '/');
    SplitAtom(up, '/');
    SplitAtom(dot, '/');
    SplitAtom(none, '/');
    SplitConcat(a, '/', b);
    assert a + ['/'] + b == a + "/" + b;
    SplitConcat(a, '/', x);
    SplitConcat(a + ['/'] + x, '/', up);
    SplitConcat(a + ['/'] + x + ['/'] + up, '/', b);
    assert a + ['/'] + x + ['/'] + up + ['/'] + b == a + "/" + x + "/../" + b;
    assert Split(a, '/') + [x] + [up] + Split(b, '/') == Split(a, '/') + [x, ".."] + Split(b, '/');
    CollapseUp(Split(a, '/'), x, Split(b, '/'), []);
    SplitConcat(a, '/', dot);
    SplitConcat(a + ['/'] + dot, '/', b);
    assert a + ['/'] + dot + ['/'] + b == a + "/./" + b;
    CollapseSkips(Split(a, '/'), dot, Split(b, '/'), []);
    SplitConcat(a, '/', none);
    SplitConcat(a + ['/'] + none, '/', b);
    assert a + ['/'] + none + ['/'] + b == a + "//" + b;
    CollapseSkips(Split(a, '/'), none, Split(b, '/'), []);
  }

  /** A path is not usable exactly when nothing is left of it, or when more than the parent segment is left and it still
      climbs out. */
  lemma {:induction false} UnusableIff(path: string)
    ensures Normalize(path) == "" <==> var kept := Collapse(Split(Cleaned(path), '/'), []); kept == [] || (|kept| > 1 && kept[0] == "..")
  {
    var kept := Kept(path);
    KeptClimbs(path);
    hide Collapse, Cleaned, Split;
    if kept != [] {
      if |kept| > 1 && kept[0] == ".." {
        ClimbingIsDropped(kept);
      } else {
        PiecesJoin(kept);
      }
    }
  }

  lemma {:induction false} PiecesJoin(kept: seq<string>)
    requires kept != [] && Climbing(kept) && NoSlashes(kept) && (|kept| > 1 ==> kept[0] != "..")
    ensures Join(kept, "/") != "" && Join(kept, "/") != "." && !StartsWith(Join(kept, "/"), "../")
  {
    var d := Join(kept, "/");
    assert forall c | c in kept :: '/' !in c;
    SplitJoin(kept, '/');
    if StartsWith(d, "../") { ClimbingStart(d); }
    if d == "." { SplitAtom(d, '/'); }
    assert kept[0] in kept;
  }

  /** White space around a path and `./` before it do not count, nor which slashes it uses. */
  lemma {:induction false} CleanedAlike(p: string)
    requires p != "" && Trimmed(p)
    ensures Normalize("./" + p) == Normalize(p) == Normalize(p + " ")
    ensures Normalize(Replace(p, '\\', '/')) == Normalize(p)
  {
    hide NormPath;
    var slashed := Replace(p, '\\', '/');
    TrimFixed(p);
    TrimAfter(p, ' ');
    ReplaceAt(p, '\\', '/', 0);
    ReplaceAt(p, '\\', '/', |p| - 1);
    TrimFixed(slashed);
    ReplaceAvoids(p, '\\', '/');
    ReplaceFixed(slashed, '\\', '/');
    DotSlashGoes(p);
  }

  lemma {:induction false} DotSlashGoes(p: string)
    requires p != "" && Trimmed(p)
    ensures Cleaned("./" + p) == Cleaned(p)
  {
    var q := "./" + p;
    assert q[0] == '.' && q[|q| - 1] == p[|p| - 1];
    TrimFixed(q);
    TrimFixed(p);
    var r := Replace(p, '\\', '/');
    assert q[1..] == "/" + p && q[1..][1..] == p;
    assert Replace(q, '\\', '/') == "." + ("/" + r);
    assert ("." + ("/" + r))[1..] == "/" + r && ("/" + r)[1..] == r;
    assert StripLeft("/" + r, DOTS) == StripLeft(r, DOTS);
  }
}
