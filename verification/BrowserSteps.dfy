/** Browser reproduction steps: parsing a step line and printing a step (src/flow_healer/browser_harness.py). */
module BrowserSteps {
  import opened Wrappers
  import opened Text

  datatype BrowserStep = BrowserStep(kind: string, subject: string, argument: string)

  const FETCH := "fetch"
  const FILL := "fill"
  const JSON := " json="

  /** `str.partition`: what stands before and after the first occurrence of the separator */
  function Before(s: string, sep: string): string { s[..Find(s, sep)] }

  function After(s: string, sep: string): string
  {
    var k := Find(s, sep);
    if k < |s| && |sep| <= |s[k..]| then s[k + |sep|..] else ""
  }

  function Kind(word: string): string { Replace(Lower(Trim(word)), '-', '_') }

  function StepOf(kind: string, rest: string): BrowserStep
  {
    if kind == FETCH then
      var argument := Trim(After(rest, JSON));
      BrowserStep(kind, Trim(Before(rest, JSON)), if argument == "" then "" else "json=" + argument)
    else if kind == FILL then BrowserStep(kind, Trim(Before(rest, "=")), Trim(After(rest, "=")))
    else BrowserStep(kind, rest, "")
  }

  /** One line of `parse_repro_steps`; nothing for a blank line */
  function Parse(raw: string): Option<BrowserStep>
  {
    var line := Trim(raw);
    if line == "" then None
    else Some(StepOf(Kind(Before(line, " ")), Trim(After(line, " "))))
  }

  /** `_format_step` */
  function Format(step: BrowserStep): string
  {
    if step.kind == FILL then step.kind + " " + step.subject + "=" + step.argument
    else if step.kind == FETCH then step.kind + " " + step.subject + if step.argument == "" then "" else " " + step.argument
    else Trim(step.kind + " " + step.subject)
  }

  function ParseAll(lines: seq<string>): seq<BrowserStep>
  {
    if lines == [] then []
    else
      var front, last := ParseAll(lines[..|lines| - 1]), Parse(lines[|lines| - 1]);
      if last.Some? then front + [last.value] else front
  }

  function FormatAll(steps: seq<BrowserStep>): seq<string>
  {
    if steps == [] then [] else FormatAll(steps[..|steps| - 1]) + [Format(steps[|steps| - 1])]
  }

  method ParseReproSteps(lines: seq<string>) returns (parsed: seq<BrowserStep>)
    ensures parsed == ParseAll(lines)
  {
    hide Trim, Kind, Before, After;
    parsed := [];
    for i := 0 to |lines|
      invariant parsed == ParseAll(lines[..i])
    {
      assert lines[..i + 1][..i] == lines[..i];
      var line := Trim(lines[i]);
      if line == "" { continue; }
      var kind, rest := Kind(Before(line, " ")), Trim(After(line, " "));
      if kind == FETCH {
        var argument := Trim(After(rest, JSON));
        parsed := parsed + [BrowserStep(kind, Trim(Before(rest, JSON)), if argument == "" then "" else "json=" + argument)];
        continue;
      }
      if kind == FILL {
        parsed := parsed + [BrowserStep(kind, Trim(Before(rest, "=")), Trim(After(rest, "=")))];
        continue;
      }
      parsed := parsed + [BrowserStep(kind, rest, "")];
    }
    assert lines[..|lines|] == lines;
  }

  // ---------- partition ----------

  /** A string that holds no occurrence of the separator */
  predicate Without(s: string, sep: string) { Find(s, sep) == |s| }

  /** Cut at its first occurrence, a string is put together again. */
  lemma {:induction false} PartitionJoins(s: string, sep: string)
    requires sep != ""
    ensures Find(s, sep) < |s| ==> s == Before(s, sep) + sep + After(s, sep)
    ensures Find(s, sep) == |s| ==> Before(s, sep) == s && After(s, sep) == ""
  {
    var k := Find(s, sep);
    if k < |s| {
      assert sep <= s[k..];
      assert s[k..] == sep + s[k + |sep|..];
      assert s == s[..k] + s[k..];
    }
  }

  lemma {:induction false} NotAtStart(a: string, sep: string, b: string)
    requires a != "" && sep != "" && Without(a, sep) && forall i | 1 <= i < |sep| :: sep[i] != sep[0]
    ensures !(sep <= a + sep + b)
  {
    var s := a + sep + b;
    assert a[0..] == a;
    if |sep| <= |a| {
      assert s[..|sep|] == a[..|sep|];
    } else if a[0] == sep[0] {
      assert s[|a|] == sep[0] != sep[|a|];
    } else {
      assert s[0] == a[0];
    }
  }

  /** A separator whose first character stands nowhere else in it cannot overlap itself. */
  lemma {:induction false} PartitionAt(a: string, sep: string, b: string)
    requires sep != "" && Without(a, sep) && forall i | 1 <= i < |sep| :: sep[i] != sep[0]
    ensures Find(a + sep + b, sep) == |a| && Before(a + sep + b, sep) == a && After(a + sep + b, sep) == b
  {
    var s := a + sep + b;
    if a == "" {
      assert s == sep + b;
    } else {
      assert s[1..] == a[1..] + sep + b;
      assert a == [a[0]] + a[1..];
      PartitionAt(a[1..], sep, b);
      NotAtStart(a, sep, b);
    }
  }

  lemma {:induction false} BeforeWithout(s: string, sep: string)
    requires sep != ""
    ensures Without(Before(s, sep), sep)
  {
    var b := Before(s, sep);
    forall j | 0 <= j < |b| ensures !(sep <= b[j..]) {
      assert !(sep <= s[j..]);
      assert b[j..] <= s[j..];
    }
  }

  lemma {:induction false} WithoutChar(s: string, c: char)
    ensures Without(s, [c]) <==> c !in s
  {
    if s != "" {
      assert s == [s[0]] + s[1..];
      if s[0] == c { assert [c] <= s; } else { WithoutChar(s[1..], c); }
    }
  }

  /** A piece of a string without the separator has none either. */
  lemma {:induction false} SliceWithout(s: string, i: nat, j: nat, sep: string)
    requires i <= j <= |s| && sep != "" && Without(s, sep)
    ensures Without(s[i..j], sep)
  {
    var t := s[i..j];
    forall k | 0 <= k < |t| ensures !(sep <= t[k..]) {
      assert !(sep <= s[i + k..]);
      assert t[k..] <= s[i + k..];
    }
  }

  lemma {:induction false} TrimSlice(s: string)
    ensures exists i, j :: 0 <= i <= j <= |s| && Trim(s) == s[i..j]
  {
    var l := StripLeft(s, SPACES);
    StripLeftRemoves(s, SPACES);
    StripRightRemoves(l, SPACES);
    var i, n := |s| - |l|, |Trim(s)|;
    assert Trim(s) == l[..n] == s[i..][..n] == s[i..i + n];
  }

  lemma {:induction false} TrimWithout(s: string, sep: string)
    requires sep != "" && Without(s, sep)
    ensures Without(Trim(s), sep)
  {
    hide Trim;
    TrimSlice(s);
    var i, j :| 0 <= i <= j <= |s| && Trim(s) == s[i..j];
    SliceWithout(s, i, j, sep);
  }

  // ---------- normalised steps ----------

  /** Kinds and fields as the parser leaves them */
  predicate Normalised(step: BrowserStep)
  {
    && step.kind != "" && ' ' !in step.kind && Kind(step.kind) == step.kind && Trimmed(step.subject)
    && (if step.kind == FETCH then
          && Without(step.subject, JSON)
          && (step.argument == "" || (step.subject != "" && Payload(step.argument)))
        else if step.kind == FILL then '=' !in step.subject && Trimmed(step.argument)
        else step.argument == "")
  }

  /** `json=` and a payload that is not blank */
  predicate Payload(argument: string)
  {
    "json=" <= argument && argument[5..] != "" && Trimmed(argument[5..])
  }

  lemma {:induction false} JsonShape()
    ensures |JSON| == 6 && JSON[0] == ' ' && forall i | 1 <= i < |JSON| :: JSON[i] != JSON[0]
  {
  }

  function KindChar(c: char): char { if LowerChar(c) == '-' then '_' else LowerChar(c) }

  lemma {:induction false} KindAt(word: string)
    ensures |Kind(word)| == |Trim(word)|
    ensures forall i | 0 <= i < |Kind(word)| :: Kind(word)[i] == KindChar(Trim(word)[i])
  {
    hide Trim, Lower, Replace;
    var w := Trim(word);
    forall i | 0 <= i < |w| ensures Kind(word)[i] == KindChar(w[i]) {
      LowerAt(w, i);
      ReplaceAt(Lower(w), '-', '_', i);
    }
  }

  /** A kind stays what it is when it is read again. */
  lemma {:induction false} KindTwice(word: string)
    ensures Kind(Kind(word)) == Kind(word)
    ensures ' ' !in word ==> ' ' !in Kind(word)
    ensures Kind(word) == "" <==> Trim(word) == ""
    ensures Trimmed(Kind(word))
  {
    hide Trim, Lower, Replace;
    var w, k := Trim(word), Kind(word);
    KindAt(word);
    TrimTrimmed(word);
    TrimFixed(k);
    LowerFixed(k);
    assert '-' !in k;
    ReplaceFixed(k, '-', '_');
    if ' ' !in word {
      TrimSlice(word);
      assert forall i | 0 <= i < |k| :: w[i] in word;
    }
  }

  // ---------- printing and reading back ----------

  lemma {:induction false} ReadBack(kind: string, rest: string)
    requires kind != "" && ' ' !in kind && Kind(kind) == kind && Trimmed(kind)
    requires Trimmed(rest) && rest != ""
    ensures Parse(kind + " " + rest) == Some(StepOf(kind, rest))
  {
    hide Trim, Kind, StepOf, Find, After, Before;
    var line := kind + " " + rest;
    assert line[0] == kind[0] && line[|line| - 1] == rest[|rest| - 1];
    TrimFixed(line);
    WithoutChar(kind, ' ');
    PartitionAt(kind, " ", rest);
    TrimFixed(rest);
  }

  lemma {:induction false} ReadBackKind(kind: string)
    requires kind != "" && ' ' !in kind && Kind(kind) == kind && Trimmed(kind)
    ensures Parse(kind) == Some(StepOf(kind, "")) && Trim(kind + " ") == kind
  {
    hide Trim, Kind, StepOf, Find, After, Before;
    TrimFixed(kind);
    WithoutChar(kind, ' ');
    PartitionJoins(kind, " ");
    assert Trim("") == "" by { TrimFixed(""); }
    TrimAfter(kind, ' ');
  }

  lemma {:induction false} FillReads(step: BrowserStep)
    requires Normalised(step) && step.kind == FILL
    ensures StepOf(FILL, step.subject + "=" + step.argument) == step
  {
    hide Trim, Find, Before, After, Kind;
    WithoutChar(step.subject, '=');
    PartitionAt(step.subject, "=", step.argument);
    TrimFixed(step.subject);
    TrimFixed(step.argument);
  }

  lemma {:induction false} FetchReads(step: BrowserStep)
    requires Normalised(step) && step.kind == FETCH
    ensures StepOf(FETCH, if step.argument == "" then step.subject else step.subject + " " + step.argument) == step
    ensures step.argument != "" ==> var a := step.argument; a[|a| - 1] !in SPACES
  {
    hide Trim, Find, Before, After, Kind;
    var subject, argument := step.subject, step.argument;
    TrimFixed(subject);
    JsonShape();
    if argument == "" {
      PartitionJoins(subject, JSON);
      TrimFixed("");
    } else {
      var payload := argument[5..];
      assert argument == "json=" + payload;
      assert subject + " " + argument == subject + JSON + payload;
      PartitionAt(subject, JSON, payload);
      TrimFixed(payload);
      assert argument[|argument| - 1] == payload[|payload| - 1];
    }
  }

  lemma {:induction false} FetchAlone(step: BrowserStep)
    requires Normalised(step) && step.kind == FETCH && step.subject == "" && step.argument == ""
    ensures Parse(Format(step)) == Some(step)
  {
    hide Trim, Find, Before, After, Kind, StepOf;
    KindTwice(step.kind);
    ReadBackKind(step.kind);
    TrimFixed(step.kind);
    FetchReads(step);
    assert Format(step) == step.kind + " ";
    SameTrim(step.kind + " ", step.kind);
  }

  lemma {:induction false} SameTrim(a: string, b: string)
    requires Trim(a) == Trim(b)
    ensures Parse(a) == Parse(b)
  {
  }

  lemma {:induction false} OtherReads(step: BrowserStep)
    requires Normalised(step) && step.kind != FETCH && step.kind != FILL
    ensures StepOf(step.kind, step.subject) == step
  {
  }

  lemma {:induction false} FormatsBack(step: BrowserStep)
    requires Normalised(step)
    ensures Parse(Format(step)) == Some(step)
  {
    hide Trim, Kind, StepOf, Find, After, Before, Parse;
    var kind, subject, argument := step.kind, step.subject, step.argument;
    KindTwice(kind);
    if kind == FILL {
      var rest := subject + "=" + argument;
      assert Format(step) == kind + " " + rest;
      assert rest[0] == if subject == "" then '=' else subject[0];
      assert rest[|rest| - 1] == if argument == "" then '=' else argument[|argument| - 1];
      ReadBack(kind, rest);
      FillReads(step);
    } else if kind == FETCH {
      FetchReads(step);
      var rest := if argument == "" then subject else subject + " " + argument;
      if rest == "" {
        FetchAlone(step);
      } else {
        assert Format(step) == kind + " " + rest;
        assert rest[0] == subject[0];
        ReadBack(kind, rest);
      }
    } else {
      OtherReads(step);
      if subject == "" {
        assert kind + " " + subject == kind + " ";
        ReadBackKind(kind);
      } else {
        ReadBack(kind, subject);
        var line := kind + " " + subject;
        assert line[0] == kind[0] && line[|line| - 1] == subject[|subject| - 1];
        TrimFixed(line);
      }
    }
  }

  lemma {:induction false} PayloadTrimmed(text: string)
    requires Trim(text) != ""
    ensures Payload("json=" + Trim(text))
  {
    hide Trim, Trimmed;
    TrimTrimmed(text);
    assert ("json=" + Trim(text))[5..] == Trim(text);
  }

  /** What stands before a separator that starts with a space is not blank, in a line that is trimmed. */
  lemma {:induction false} BeforeIsSolid(s: string, sep: string)
    requires Trimmed(s) && s != "" && sep != "" && sep[0] == ' '
    ensures Before(s, sep) != "" && Trim(Before(s, sep)) != ""
  {
    hide Strip;
    var k, b := Find(s, sep), Before(s, sep);
    if k < |s| {
      assert sep <= s[k..];
      assert s[k] == sep[0];
    }
    assert b[0] == s[0] && b[0] in b;
    StripEmpty(b, SPACES);
  }

  lemma {:induction false} StepIsNormalised(kind: string, rest: string)
    requires kind != "" && ' ' !in kind && Kind(kind) == kind && Trimmed(rest)
    ensures Normalised(StepOf(kind, rest))
  {
    hide Trim, Find, Before, After, Kind, Trimmed, Payload;
    var step := StepOf(kind, rest);
    if kind == FETCH {
      TrimTrimmed(Before(rest, JSON));
      JsonShape();
      BeforeWithout(rest, JSON);
      TrimWithout(Before(rest, JSON), JSON);
      if step.argument != "" {
        PayloadTrimmed(After(rest, JSON));
        PartitionJoins(rest, JSON);
        EmptyTrims();
        BeforeIsSolid(rest, JSON);
      }
    } else if kind == FILL {
      TrimTrimmed(Before(rest, "="));
      TrimTrimmed(After(rest, "="));
      BeforeWithout(rest, "=");
      TrimWithout(Before(rest, "="), "=");
      WithoutChar(step.subject, '=');
    }
  }

  lemma {:induction false} EmptyTrims()
    ensures Trim("") == ""
  {
  }

  /** Every parsed step is normalised. */
  lemma {:induction false} ParseNormalises(raw: string)
    requires Parse(raw).Some?
    ensures Normalised(Parse(raw).value)
  {
    hide Trim, Find, Kind, StepOf, Normalised;
    var line := Trim(raw);
    TrimTrimmed(raw);
    var word := Before(line, " ");
    BeforeWithout(line, " ");
    WithoutChar(word, ' ');
    KindTwice(word);
    TrimTrimmed(After(line, " "));
    BeforeIsSolid(line, " ");
    StepIsNormalised(Kind(word), Trim(After(line, " ")));
  }

  /** A step survives printing and reading exactly when it is normalised. */
  lemma {:induction false} RoundTrip(step: BrowserStep)
    ensures Parse(Format(step)) == Some(step) <==> Normalised(step)
  {
    hide Parse, Format, Normalised;
    if Normalised(step) { FormatsBack(step); }
    if Parse(Format(step)) == Some(step) { ParseNormalises(Format(step)); }
  }

  /** Reading, printing and reading again gives what reading once gave, for every list of lines. */
  lemma {:induction false} ReadPrintRead(lines: seq<string>)
    ensures ParseAll(FormatAll(ParseAll(lines))) == ParseAll(lines)
  {
    hide Parse, Format, Normalised;
    if lines != [] {
      var front, last := lines[..|lines| - 1], lines[|lines| - 1];
      ReadPrintRead(front);
      if Parse(last).Some? {
        ParseNormalises(last);
        RoundTrip(Parse(last).value);
        var steps := ParseAll(front);
        assert (steps + [Parse(last).value])[..|steps|] == steps;
        assert (FormatAll(steps) + [Format(Parse(last).value)])[..|FormatAll(steps)|] == FormatAll(steps);
      }
    }
  }

  // ---------- lists of lines ----------

  /** There is one step for each line that is not blank, in the order of the lines. */
  lemma {:induction false} OneStepALine(a: seq<string>, line: string, b: seq<string>)
    ensures ParseAll(a + b) == ParseAll(a) + ParseAll(b)
    ensures ParseAll([line]) == if Trim(line) == "" then [] else [Parse(line).value]
    ensures Parse(line).Some? <==> Trim(line) != ""
    ensures |ParseAll(a)| <= |a|
  {
    hide Trim, StepOf, Kind;
    assert [line][..0] == [];
    ParseConcat(a, b);
    ParseBound(a);
  }

  lemma {:induction false} ParseConcat(a: seq<string>, b: seq<string>)
    ensures ParseAll(a + b) == ParseAll(a) + ParseAll(b)
  {
    hide Parse;
    if b == [] {
      assert a + b == a;
    } else {
      var n := |b| - 1;
      assert (a + b)[..|a + b| - 1] == a + b[..n];
      ParseConcat(a, b[..n]);
    }
  }

  lemma {:induction false} ParseBound(a: seq<string>)
    ensures |ParseAll(a)| <= |a|
  {
    hide Parse;
    if a != [] { ParseBound(a[..|a| - 1]); }
  }

  /** A line of a word and a rest gives a step whose kind is the word, in lower case and with underscores for dashes. For
      any kind but `fill` and `fetch` the rest is the subject. */
  lemma {:induction false} StepOfLine(word: string, rest: string)
    requires word != "" && Trimmed(word) && ' ' !in word && rest != "" && Trimmed(rest)
    ensures var p := Parse(word + " " + rest);
            && p.Some? && |p.value.kind| == |word|
            && (forall i | 0 <= i < |word| ::
                  p.value.kind[i] == if word[i] == '-' then '_' else if 'A' <= word[i] <= 'Z' then word[i] - 'A' + 'a' else word[i])
            && (p.value.kind != "fill" && p.value.kind != "fetch" ==> p.value.subject == rest && p.value.argument == "")
  {
    hide Trim, Kind, Find, After, Before;
    var line := word + " " + rest;
    assert line[0] == word[0] && line[|line| - 1] == rest[|rest| - 1];
    TrimFixed(line);
    TrimFixed(word);
    TrimFixed(rest);
    WithoutChar(word, ' ');
    PartitionAt(word, " ", rest);
    KindAt(word);
  }
}
