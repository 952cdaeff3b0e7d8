/** ASCII models of the string operations the other modules share: stripping, lower-casing,
    splitting, joining, prefix search, and the lexicographic order behind `sorted`. */
module Text {

  /** The ASCII characters that `str.strip` and the regular-expression class `\s` treat as white space. */
  const SPACES: set<char> :=
    {'\t', '\n', '\U{000B}', '\U{000C}', '\r', '\U{001C}', '\U{001D}', '\U{001E}', '\U{001F}', ' '}

  /** `s.lstrip(cs)` */
  function StripLeft(s: string, cs: set<char>): (r: string)
    ensures |r| <= |s|
    ensures r != "" ==> r[0] !in cs
  {
    if s != "" && s[0] in cs then StripLeft(s[1..], cs) else s
  }

  /** What is stripped is a prefix made of `cs`. */
  lemma {:induction false} StripLeftRemoves(s: string, cs: set<char>)
    ensures StripLeft(s, cs) == s[|s| - |StripLeft(s, cs)|..]
    ensures forall i | 0 <= i < |s| - |StripLeft(s, cs)| :: s[i] in cs
  {
    if s != "" && s[0] in cs {
      StripLeftRemoves(s[1..], cs);
      assert forall i | 1 <= i < |s| :: s[i] == s[1..][i - 1];
    }
  }

  /** `s.rstrip(cs)` */
  function StripRight(s: string, cs: set<char>): (r: string)
    ensures |r| <= |s|
    ensures r != "" ==> r[|r| - 1] !in cs
  {
    if s != "" && s[|s| - 1] in cs then StripRight(s[..|s| - 1], cs) else s
  }

  /** What is stripped is a suffix made of `cs`. */
  lemma {:induction false} StripRightRemoves(s: string, cs: set<char>)
    ensures StripRight(s, cs) == s[..|StripRight(s, cs)|]
    ensures forall i | |StripRight(s, cs)| <= i < |s| :: s[i] in cs
  {
    if s != "" && s[|s| - 1] in cs {
      StripRightRemoves(s[..|s| - 1], cs);
      assert forall i | 0 <= i < |s| - 1 :: s[i] == s[..|s| - 1][i];
    }
  }

  /** `s.strip(cs)` */
  function Strip(s: string, cs: set<char>): string
  {
    StripRight(StripLeft(s, cs), cs)
  }

  lemma {:induction false} StripBare(s: string, cs: set<char>)
    ensures Bare(Strip(s, cs), cs)
  {
    StripRightRemoves(StripLeft(s, cs), cs);
  }

  /** `s.strip()` */
  function Trim(s: string): string { Strip(s, SPACES) }

  /** No character of `cs` stands at either end of `s`. */
  predicate Bare(s: string, cs: set<char>) {
    s != "" ==> s[0] !in cs && s[|s| - 1] !in cs
  }

  predicate Trimmed(s: string) { Bare(s, SPACES) }

  lemma {:induction false} TrimTrimmed(s: string)
    ensures Trimmed(Trim(s))
  {
    StripBare(s, SPACES);
  }

  /** Stripping changes exactly the strings that have something to strip. */
  lemma {:induction false} StripFixed(s: string, cs: set<char>)
    ensures Strip(s, cs) == s <==> Bare(s, cs)
  {
    StripBare(s, cs);
    if Bare(s, cs) && s != "" {
      assert StripLeft(s, cs) == s;
      assert StripRight(s, cs) == s;
    }
  }

  lemma {:induction false} TrimFixed(s: string)
    requires Trimmed(s)
    ensures Trim(s) == s
  {
    StripFixed(s, SPACES);
  }

  lemma {:induction false} TrimAfter(s: string, c: char)
    requires s != "" && Trimmed(s) && c in SPACES
    ensures Trim(s + [c]) == s
  {
    assert StripLeft(s + [c], SPACES) == s + [c];
    assert (s + [c])[..|s|] == s;
    assert StripRight(s, SPACES) == s;
  }

  /** A string is stripped to nothing exactly when all its characters go. */
  lemma {:induction false} StripEmpty(s: string, cs: set<char>)
    ensures Strip(s, cs) == "" <==> forall c | c in s :: c in cs
  {
    var l := StripLeft(s, cs);
    StripLeftRemoves(s, cs);
    if l != "" {
      assert l[0] == s[|s| - |l|] && l[0] in s;
      StripRightRemoves(l, cs);
    } else {
      forall c | c in s ensures c in cs { var i :| 0 <= i < |s| && s[i] == c; }
    }
  }

  /** Where a suffix starts with a kept character, stripping on the left does not look past it. */
  lemma {:induction false} StripLeftPrefix(s: string, t: string, cs: set<char>)
    requires StripLeft(s, cs) != ""
    ensures StripLeft(s + t, cs) == StripLeft(s, cs) + t
  {
    assert (s + t)[0] == s[0];
    if s[0] in cs {
      assert (s + t)[1..] == s[1..] + t;
      StripLeftPrefix(s[1..], t, cs);
    }
  }

  function LowerChar(c: char): (r: char)
  {
    if 'A' <= c <= 'Z' then c - 'A' + 'a' else c
  }

  /** `s.lower()` on ASCII text */
  function Lower(s: string): (r: string)
    ensures |r| == |s|
  {
    if s == "" then "" else [LowerChar(s[0])] + Lower(s[1..])
  }

  lemma {:induction false} LowerAt(s: string, i: nat)
    requires i < |s|
    ensures Lower(s)[i] == LowerChar(s[i])
  {
    if i > 0 { LowerAt(s[1..], i - 1); }
  }

  lemma {:induction false} LowerConcat(a: string, b: string)
    ensures Lower(a + b) == Lower(a) + Lower(b)
  {
    if a == "" {
      assert a + b == b;
    } else {
      assert (a + b)[1..] == a[1..] + b;
      LowerConcat(a[1..], b);
    }
  }

  lemma {:induction false} LowerTwice(s: string)
    ensures Lower(Lower(s)) == Lower(s)
  {
    if s != "" {
      LowerTwice(s[1..]);
      assert Lower(s)[1..] == Lower(s[1..]);
    }
  }

  lemma {:induction false} LowerFixed(s: string)
    requires forall i | 0 <= i < |s| :: LowerChar(s[i]) == s[i]
    ensures Lower(s) == s
  {
    if s != "" { LowerFixed(s[1..]); }
  }

  /** `s.replace(a, b)` for single characters */
  function Replace(s: string, a: char, b: char): (r: string)
    ensures |r| == |s|
  {
    if s == "" then "" else [if s[0] == a then b else s[0]] + Replace(s[1..], a, b)
  }

  lemma {:induction false} ReplaceFixed(s: string, a: char, b: char)
    requires a !in s
    ensures Replace(s, a, b) == s
  {
    if s != "" { ReplaceFixed(s[1..], a, b); }
  }

  lemma {:induction false} ReplaceAt(s: string, a: char, b: char, i: nat)
    requires i < |s|
    ensures Replace(s, a, b)[i] == if s[i] == a then b else s[i]
  {
    if i > 0 { ReplaceAt(s[1..], a, b, i - 1); }
  }

  lemma {:induction false} ReplaceAvoids(s: string, a: char, b: char)
    requires a != b
    ensures a !in Replace(s, a, b)
  {
    if s != "" { ReplaceAvoids(s[1..], a, b); }
  }

  /** `s.split(sep)` for a single-character separator */
  function Split(s: string, sep: char): (r: seq<string>)
    ensures |r| >= 1
  {
    if s == "" then [""]
    else if s[0] == sep then [""] + Split(s[1..], sep)
    else
      var rest := Split(s[1..], sep);
      [[s[0]] + rest[0]] + rest[1..]
  }

  /** The later pieces, one character on */
  lemma {:induction false} SplitTail(s: string, sep: char)
    requires s != ""
    ensures Split(s, sep)[1..] == if s[0] == sep then Split(s[1..], sep) else Split(s[1..], sep)[1..]
  {
    var rest := Split(s[1..], sep);
    assert ([""] + rest)[1..] == rest;
    assert ([[s[0]] + rest[0]] + rest[1..])[1..] == rest[1..];
  }

  lemma {:induction false} SplitPieces(s: string, sep: char)
    ensures forall p | p in Split(s, sep) :: sep !in p
  {
    if s != "" { SplitPieces(s[1..], sep); }
  }

  /** `sep.join(parts)` */
  function Join(parts: seq<string>, sep: string): string
  {
    if |parts| == 0 then ""
    else if |parts| == 1 then parts[0]
    else parts[0] + sep + Join(parts[1..], sep)
  }

  lemma {:induction false} SplitAtom(s: string, sep: char)
    requires sep !in s
    ensures Split(s, sep) == [s]
  {
    if s != "" {
      SplitAtom(s[1..], sep);
      assert s == [s[0]] + s[1..];
    }
  }

  /** Splitting distributes over a separator. */
  lemma {:induction false} SplitConcat(a: string, sep: char, b: string)
    ensures Split(a + [sep] + b, sep) == Split(a, sep) + Split(b, sep)
  {
    var s := a + [sep] + b;
    if a == "" {
      assert s[1..] == b;
    } else {
      assert s[1..] == a[1..] + [sep] + b;
      SplitConcat(a[1..], sep, b);
    }
  }

  /** Joining is a left inverse of splitting. */
  lemma {:induction false} JoinSplit(s: string, sep: char)
    ensures Join(Split(s, sep), [sep]) == s
  {
    if s != "" {
      JoinSplit(s[1..], sep);
      var rest := Split(s[1..], sep);
      assert s == [s[0]] + s[1..];
      if s[0] == sep {
        assert ([""] + rest)[1..] == rest;
      } else {
        var all := [[s[0]] + rest[0]] + rest[1..];
        assert all[1..] == rest[1..];
        if |rest| > 1 {
          assert Join(rest, [sep]) == rest[0] + [sep] + Join(rest[1..], [sep]);
        }
      }
    }
  }

  /** Splitting is a left inverse of joining pieces that hold no separator. */
  lemma {:induction false} SplitJoin(parts: seq<string>, sep: char)
    requires |parts| >= 1
    requires forall p | p in parts :: sep !in p
    ensures Split(Join(parts, [sep]), sep) == parts
  {
    SplitAtom(parts[0], sep);
    if |parts| > 1 {
      SplitJoin(parts[1..], sep);
      SplitConcat(parts[0], sep, Join(parts[1..], [sep]));
      assert parts == [parts[0]] + parts[1..];
    } else {
      assert parts == [parts[0]];
    }
  }

  lemma {:induction false} JoinConcat(a: seq<string>, b: seq<string>, sep: string)
    requires |a| >= 1 && |b| >= 1
    ensures Join(a + b, sep) == Join(a, sep) + sep + Join(b, sep)
  {
    assert (a + b)[1..] == a[1..] + b;
    if |a| > 1 {
      JoinConcat(a[1..], b, sep);
      assert Join(a + b, sep) == a[0] + sep + Join(a[1..] + b, sep);
      assert Join(a, sep) == a[0] + sep + Join(a[1..], sep);
    } else {
      assert a + b == [a[0]] + b;
    }
  }

  /** Pieces without bare edges, joined, have none either. */
  lemma {:induction false} JoinBare(parts: seq<string>, sep: string, cs: set<char>)
    requires forall p | p in parts :: p != "" && Bare(p, cs)
    ensures Bare(Join(parts, sep), cs) && (parts != [] ==> Join(parts, sep) != "")
  {
    if |parts| > 1 {
      assert parts[0] in parts && forall p | p in parts[1..] :: p in parts;
      JoinBare(parts[1..], sep, cs);
    }
  }

  lemma {:induction false} SplitAvoids(s: string, sep: char, c: char)
    requires c !in s
    ensures forall p | p in Split(s, sep) :: c !in p
  {
    if s != "" { SplitAvoids(s[1..], sep, c); }
  }

  lemma {:induction false} JoinAvoids(parts: seq<string>, sep: string, c: char)
    requires c !in sep && forall p | p in parts :: c !in p
    ensures c !in Join(parts, sep)
  {
    if |parts| > 1 { JoinAvoids(parts[1..], sep, c); }
  }

  predicate StartsWith(s: string, prefix: string) { prefix <= s }

  /** The index of the first occurrence of `pattern` in `s`, or `|s|` when there is none (`str.find`). */
  function Find(s: string, pattern: string): (k: nat)
    ensures k <= |s|
    ensures k < |s| ==> pattern <= s[k..]
    ensures forall j | 0 <= j < k :: !(pattern <= s[j..])
  {
    if s == "" || pattern <= s then 0
    else
      var k := Find(s[1..], pattern);
      assert forall j | 1 <= j < k + 1 :: s[j..] == s[1..][j - 1..];
      assert k < |s| - 1 ==> s[k + 1..] == s[1..][k..];
      k + 1
  }

  /** `pattern in s`, for a pattern that is not empty */
  predicate Contains(s: string, pattern: string)
  {
    exists k :: 0 <= k <= |s| && pattern <= s[k..]
  }

  // ---------- the order used by sorted() ----------

  /** Lexicographic order by code point */
  predicate Below(a: string, b: string)
  {
    b != "" && (a == "" || a[0] < b[0] || (a[0] == b[0] && Below(a[1..], b[1..])))
  }

  lemma {:induction false} BelowTotal(a: string, b: string)
    ensures a == b || Below(a, b) || Below(b, a)
  {
    if a != "" && b != "" && a[0] == b[0] {
      BelowTotal(a[1..], b[1..]);
      assert a == [a[0]] + a[1..] && b == [b[0]] + b[1..];
    }
  }

  lemma {:induction false} BelowAsymmetric(a: string, b: string)
    requires Below(a, b)
    ensures a != b && !Below(b, a)
  {
    if a != "" && a[0] == b[0] { BelowAsymmetric(a[1..], b[1..]); }
  }

  lemma {:induction false} BelowTransitive(a: string, b: string, c: string)
    requires Below(a, b) && Below(b, c)
    ensures Below(a, c)
  {
    if a != "" && a[0] == b[0] && b[0] == c[0] { BelowTransitive(a[1..], b[1..], c[1..]); }
  }

  predicate Least(x: string, s: set<string>) { x in s && forall y | y in s && y != x :: Below(x, y) }

  lemma {:induction false} LeastExists(s: set<string>)
    requires s != {}
    ensures exists x :: Least(x, s)
    decreases |s|
  {
    var a :| a in s;
    if s - {a} == {} {
      assert s == {a};
      assert Least(a, s);
    } else {
      LeastExists(s - {a});
      var m :| Least(m, s - {a});
      BelowTotal(a, m);
      if Below(a, m) {
        forall y | y in s && y != a ensures Below(a, y) {
          if y != m { BelowTransitive(a, m, y); }
        }
        assert Least(a, s);
      } else {
        assert Least(m, s);
      }
    }
  }

  lemma {:induction false} LeastUnique(x: string, y: string, s: set<string>)
    requires Least(x, s) && Least(y, s)
    ensures x == y
  {
    if x != y { BelowAsymmetric(x, y); }
  }

  lemma {:induction false} LeastOfSet(s: set<string>)
    requires s != {}
    ensures exists x :: Least(x, s)
    ensures forall x, y | Least(x, s) && Least(y, s) :: x == y
  {
    LeastExists(s);
    forall x, y | Least(x, s) && Least(y, s) ensures x == y { LeastUnique(x, y, s); }
  }

  predicate Increasing(r: seq<string>) { forall i, j | 0 <= i < j < |r| :: Below(r[i], r[j]) }

  /** `sorted(s)` for a set of strings */
  function Sorted(s: set<string>): (r: seq<string>)
    ensures |r| == |s|
    decreases |s|
  {
    if s == {} then []
    else
      LeastOfSet(s);
      var x :| x in s && Least(x, s);
      [x] + Sorted(s - {x})
  }

  lemma {:induction false} SortedMembers(s: set<string>)
    ensures forall x :: x in Sorted(s) <==> x in s
    decreases |s|
  {
    if s != {} {
      LeastOfSet(s);
      var x :| x in s && Least(x, s);
      SortedMembers(s - {x});
    }
  }

  lemma {:induction false} SortedIncreasing(s: set<string>)
    ensures Increasing(Sorted(s))
    decreases |s|
  {
    if s != {} {
      LeastOfSet(s);
      var x :| x in s && Least(x, s);
      var rest := Sorted(s - {x});
      SortedIncreasing(s - {x});
      SortedMembers(s - {x});
      forall j | 0 <= j < |rest| ensures Below(x, rest[j]) { assert rest[j] in rest; }
      assert Sorted(s) == [x] + rest;
    }
  }

  /** An increasing listing of a set is unique, so `Sorted` is the only possible result. */
  lemma {:induction false} IncreasingUnique(a: seq<string>, b: seq<string>)
    requires Increasing(a) && Increasing(b)
    requires forall x :: x in a <==> x in b
    ensures a == b
  {
    assert |a| > 0 ==> a[0] in b;
    assert |b| > 0 ==> b[0] in a;
    if a != [] {
      if a[0] != b[0] { BelowAsymmetric(a[0], b[0]); assert false; }
      forall x ensures x in a[1..] <==> x in b[1..] {
        if x in a[1..] {
          var i :| 0 <= i < |a[1..]| && a[1..][i] == x;
          assert a[i + 1] == x && x in a;
          BelowAsymmetric(a[0], x);
        }
        if x in b[1..] {
          var i :| 0 <= i < |b[1..]| && b[1..][i] == x;
          assert b[i + 1] == x && x in b;
          BelowAsymmetric(b[0], x);
        }
      }
      IncreasingUnique(a[1..], b[1..]);
      assert a == [a[0]] + a[1..] && b == [b[0]] + b[1..];
    }
  }
}
