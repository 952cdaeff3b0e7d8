/** Reading the contract fields of an issue body, line by line (src/flow_healer/healer_task_spec.py). */
module TaskFields {
  import opened Wrappers
  import opened Text

  const DIRECTIVE_FIELDS: set<string> :=
    {"app_target", "browser_repro_mode", "entry_url", "execution_root", "fixture_profile", "runtime_profile",
     "repro_steps", "artifact_requirements", "judgment_required_conditions"}

  /** The ASCII characters at which `str.splitlines` breaks a string; `\r\n` counts as one break. */
  const BREAKS: set<char> := {'\n', '\r', '\U{000B}', '\U{000C}', '\U{001C}', '\U{001D}', '\U{001E}'}

  /** The first index of a character of `cs`, or the length */
  function IndexOf(s: string, cs: set<char>): (k: nat)
    ensures k <= |s|
    ensures k < |s| ==> s[k] in cs
  {
    if s == "" || s[0] in cs then 0 else 1 + IndexOf(s[1..], cs)
  }

  lemma {:induction false} IndexOfBefore(s: string, t: string, cs: set<char>)
    requires forall c | c in s :: c !in cs
    ensures IndexOf(s + t, cs) == |s| + IndexOf(t, cs)
  {
    if s == "" {
      assert s + t == t;
    } else {
      assert (s + t)[1..] == s[1..] + t;
      assert s[0] in s && forall c | c in s[1..] :: c in s;
      IndexOfBefore(s[1..], t, cs);
    }
  }

  /** `s.splitlines()` */
  function SplitLines(s: string): seq<string>
    decreases |s|
  {
    if s == "" then []
    else
      var k := IndexOf(s, BREAKS);
      if k == |s| then [s]
      else [s[..k]] + SplitLines(s[if s[k] == '\r' && k + 1 < |s| && s[k + 1] == '\n' then k + 2 else k + 1..])
  }

  /** A line without breaks */
  predicate Line(s: string) { forall c | c in s :: c !in BREAKS }

  lemma {:induction false} SplitLinesStep(line: string, rest: string)
    requires Line(line)
    ensures SplitLines(line + "\n" + rest) == [line] + SplitLines(rest)
  {
    var s := line + "\n" + rest;
    assert s == line + ("\n" + rest);
    IndexOfBefore(line, "\n" + rest, BREAKS);
    assert ("\n" + rest)[0] == '\n';
    assert s[..|line|] == line && s[|line| + 1..] == rest && s[|line|] == '\n';
  }

  lemma {:induction false} SplitLinesLast(line: string)
    requires Line(line) && line != ""
    ensures SplitLines(line) == [line]
  {
    IndexOfBefore(line, "", BREAKS);
    assert line + "" == line;
  }

  /** Lines joined, and ended or not, are split into themselves. */
  lemma {:induction false} SplitLinesJoin(lines: seq<string>)
    requires lines != [] && forall i | 0 <= i < |lines| :: Line(lines[i])
    ensures SplitLines(Join(lines, "\n") + "\n") == lines
    ensures lines[|lines| - 1] != "" ==> SplitLines(Join(lines, "\n")) == lines
  {
    hide SplitLines, Line;
    if |lines| == 1 {
      assert lines[0] + "\n" == lines[0] + "\n" + "";
      SplitLinesStep(lines[0], "");
      NoLines();
      assert lines == [lines[0]];
      if lines[0] != "" { SplitLinesLast(lines[0]); }
    } else {
      var rest := lines[1..];
      SplitLinesJoin(rest);
      SplitLinesStep(lines[0], Join(rest, "\n"));
      SplitLinesStep(lines[0], Join(rest, "\n") + "\n");
      assert Join(lines, "\n") + "\n" == lines[0] + "\n" + (Join(rest, "\n") + "\n");
      assert lines == [lines[0]] + rest;
    }
  }

  lemma {:induction false} NoLines()
    ensures SplitLines("") == []
  {
  }

  // ---------- lines ----------

  predicate Letter(c: char) { 'a' <= c <= 'z' || 'A' <= c <= 'Z' }

  predicate Digit(c: char) { '0' <= c <= '9' }

  predicate LabelChar(c: char) { Letter(c) || Digit(c) || c == ' ' || c == '_' || c == '-' }

  /** Runs of anything but lower-case letters and digits become one underscore. */
  function Squash(s: string, inRun: bool): string
  {
    if s == "" then ""
    else if 'a' <= s[0] <= 'z' || Digit(s[0]) then [s[0]] + Squash(s[1..], false)
    else if inRun then Squash(s[1..], true)
    else "_" + Squash(s[1..], true)
  }

  /** `_normalize_app_field_name` */
  function FieldName(text: string): string { Strip(Squash(Lower(Trim(text)), false), {'_'}) }

  /** `p` is a label of at least two characters followed by white space: what `_DIRECTIVE_LINE_RE` wants
      before the first colon. */
  predicate LabelPart(p: string)
  {
    var t := StripRight(p, SPACES);
    |p| >= 2 && Letter(p[0]) && LabelChar(p[1]) && forall i | 0 <= i < |t| :: LabelChar(t[i])
  }

  /** `_DIRECTIVE_LINE_RE.match(line)` */
  predicate IsDirective(line: string)
  {
    var k := IndexOf(line, {':'});
    k < |line| && LabelPart(line[..k])
  }

  datatype Directive = Directive(name: string, value: string)

  /** `_parse_directive_line` */
  function ParseDirective(line: string): Option<Directive>
  {
    if !IsDirective(line) then None
    else
      var k := IndexOf(line, {':'});
      if FieldName(line[..k]) in DIRECTIVE_FIELDS
      then Some(Directive(FieldName(line[..k]), Strip(Trim(line[k + 1..]), {'`'})))
      else None
  }

  predicate IsHeading(line: string) { line != "" && line[0] == '#' }

  /** `_parse_heading_name` */
  function HeadingName(line: string): string
  {
    if !IsHeading(line) then ""
    else
      var name := FieldName(Trim(StripLeft(line, {'#'})));
      if name in DIRECTIVE_FIELDS then name else ""
  }

  /** `_is_section_boundary` */
  predicate IsBoundary(line: string) { IsHeading(line) || IsDirective(line) }

  const BULLETS: set<char> := {'-', '*', '\U{2022}', '\U{2043}', '\U{2023}', '\U{25E6}'}

  function Digits(s: string): (n: nat)
    ensures n <= |s|
  {
    if s != "" && Digit(s[0]) then 1 + Digits(s[1..]) else 0
  }

  /** `_clean_list_item` */
  function CleanItem(line: string): string
  {
    var n := Digits(line);
    if |line| >= 2 && line[0] in BULLETS && line[1] in SPACES then Trim(line[1..])
    else if 0 < n && n + 1 < |line| && (line[n] == '.' || line[n] == ')') && line[n + 1] in SPACES then Trim(line[n + 1..])
    else Trim(line)
  }

  // ---------- sections ----------

  /** The first line of a section that is not blank, unless another section starts */
  function ScalarSection(lines: seq<string>): string
  {
    if lines == [] then ""
    else
      var s := Trim(lines[0]);
      if s == "" then ScalarSection(lines[1..])
      else if IsBoundary(s) then ""
      else CleanItem(s)
  }

  /** The items of a section, up to a blank line after the first item or the next section */
  function ListSection(lines: seq<string>, some: bool): seq<string>
  {
    if lines == [] then []
    else
      var s := Trim(lines[0]);
      if s == "" then if some then [] else ListSection(lines[1..], false)
      else if IsBoundary(s) then []
      else if CleanItem(s) == "" then ListSection(lines[1..], some)
      else [CleanItem(s)] + ListSection(lines[1..], true)
  }

  /** The line opens the field: with a value on the line (Some(value)) or with a section after it (Some("")) */
  function Opens(line: string, field: string): Option<string>
  {
    var s := Trim(line);
    var d := ParseDirective(s);
    if d.Some? && d.value.name == field then Some(d.value.value)
    else if HeadingName(s) == field then Some("")
    else None
  }

  function ScalarField(lines: seq<string>, field: string): string
  {
    if lines == [] then ""
    else
      match Opens(lines[0], field)
      case Some(value) => if value != "" then value else ScalarSection(lines[1..])
      case None => ScalarField(lines[1..], field)
  }

  function ListField(lines: seq<string>, field: string): seq<string>
  {
    if lines == [] then []
    else
      match Opens(lines[0], field)
      case Some(value) => if value != "" then [value] else ListSection(lines[1..], false)
      case None => ListField(lines[1..], field)
  }

  // ---------- the loops of the source ----------

  method CollectScalarSectionValue(lines: seq<string>, start: nat) returns (r: string)
    requires start <= |lines|
    ensures r == ScalarSection(lines[start..])
  {
    hide Trim, CleanItem, IsBoundary;
    var i := start;
    while i < |lines|
      invariant start <= i <= |lines| && ScalarSection(lines[start..]) == ScalarSection(lines[i..])
    {
      assert lines[i..][1..] == lines[i + 1..];
      var stripped := Trim(lines[i]);
      if stripped != "" {
        return if IsBoundary(stripped) then "" else CleanItem(stripped);
      }
      i := i + 1;
    }
    r := "";
  }

  /** The section ends at the line: a blank one after an item, or the next section. */
  lemma {:induction false} SectionStops(lines: seq<string>, i: nat, some: bool)
    requires i <= |lines|
    requires i == |lines| || (Trim(lines[i]) == "" && some) || (Trim(lines[i]) != "" && IsBoundary(Trim(lines[i])))
    ensures ListSection(lines[i..], some) == []
  {
    hide Trim, CleanItem, IsBoundary;
  }

  /** The line gives no item. */
  lemma {:induction false} SectionSkips(lines: seq<string>, i: nat, some: bool)
    requires i < |lines|
    requires if Trim(lines[i]) == "" then !some else !IsBoundary(Trim(lines[i])) && CleanItem(Trim(lines[i])) == ""
    ensures ListSection(lines[i..], some) == ListSection(lines[i + 1..], some)
  {
    hide Trim, CleanItem, IsBoundary;
    assert lines[i..][1..] == lines[i + 1..];
  }

  lemma {:induction false} SectionTakes(lines: seq<string>, i: nat, items: seq<string>)
    requires i < |lines| && Trim(lines[i]) != "" && !IsBoundary(Trim(lines[i])) && CleanItem(Trim(lines[i])) != ""
    ensures items + ListSection(lines[i..], items != []) == items + [CleanItem(Trim(lines[i]))] + ListSection(lines[i + 1..], true)
  {
    hide Trim, CleanItem, IsBoundary;
    assert lines[i..][1..] == lines[i + 1..];
  }

  method CollectListSectionValues(lines: seq<string>, start: nat) returns (items: seq<string>)
    requires start <= |lines|
    ensures items == ListSection(lines[start..], false)
  {
    hide Trim, CleanItem, IsBoundary, ListSection;
    items := [];
    var i := start;
    while i < |lines|
      invariant start <= i <= |lines|
      invariant ListSection(lines[start..], false) == items + ListSection(lines[i..], items != [])
    {
      var stripped := Trim(lines[i]);
      if stripped == "" {
        if items != [] { break; }
        SectionSkips(lines, i, false);
      } else {
        if IsBoundary(stripped) { break; }
        var cleaned := CleanItem(stripped);
        if cleaned != "" {
          SectionTakes(lines, i, items);
          items := items + [cleaned];
        } else {
          SectionSkips(lines, i, items != []);
        }
      }
      i := i + 1;
    }
    SectionStops(lines, i, items != []);
  }

  method ExtractExplicitScalarField(body: string, field: string) returns (r: string)
    requires field != ""
    ensures r == ScalarField(SplitLines(body), field)
  {
    hide Trim, ParseDirective, HeadingName, ScalarSection, SplitLines;
    var lines := SplitLines(body);
    var i := 0;
    while i < |lines|
      invariant 0 <= i <= |lines| && ScalarField(lines, field) == ScalarField(lines[i..], field)
    {
      assert lines[i..][1..] == lines[i + 1..];
      var stripped := Trim(lines[i]);
      var directive := ParseDirective(stripped);
      if directive.Some? && directive.value.name == field {
        if directive.value.value != "" { return directive.value.value; }
        r := CollectScalarSectionValue(lines, i + 1);
        return;
      }
      if HeadingName(stripped) == field {
        r := CollectScalarSectionValue(lines, i + 1);
        return;
      }
      i := i + 1;
    }
    r := "";
  }

  method ExtractExplicitListField(body: string, field: string) returns (r: seq<string>)
    requires field != ""
    ensures r == ListField(SplitLines(body), field)
  {
    hide Trim, ParseDirective, HeadingName, ListSection, SplitLines;
    var lines := SplitLines(body);
    var i := 0;
    while i < |lines|
      invariant 0 <= i <= |lines| && ListField(lines, field) == ListField(lines[i..], field)
    {
      assert lines[i..][1..] == lines[i + 1..];
      var stripped := Trim(lines[i]);
      var directive := ParseDirective(stripped);
      if directive.Some? && directive.value.name == field {
        if directive.value.value != "" { return [directive.value.value]; }
        r := CollectListSectionValues(lines, i + 1);
        return;
      }
      if HeadingName(stripped) == field {
        r := CollectListSectionValues(lines, i + 1);
        return;
      }
      i := i + 1;
    }
    r := [];
  }

  // ---------- what lines mean ----------

  lemma {:induction false} NotDirective(line: string)
    requires line != "" && !Letter(line[0])
    ensures ParseDirective(line) == None && !IsDirective(line)
  {
    hide FieldName, Strip, Trim;
    var k := IndexOf(line, {':'});
    if k >= 2 && k < |line| { assert line[..k][0] == line[0]; }
  }

  lemma {:induction false} HashesGo(hashes: string, rest: string)
    requires (forall i | 0 <= i < |hashes| :: hashes[i] == '#') && rest != "" && rest[0] != '#'
    ensures StripLeft(hashes + rest, {'#'}) == rest
  {
    if hashes == "" {
      assert hashes + rest == rest;
    } else {
      assert (hashes + rest)[0] == '#' && (hashes + rest)[1..] == hashes[1..] + rest;
      HashesGo(hashes[1..], rest);
    }
  }

  /** A heading, of whatever depth, opens the contract field its title names and no other, and bounds a section. */
  lemma {:induction false} HeadingOpens(hashes: string, title: string, field: string)
    requires hashes != "" && (forall i | 0 <= i < |hashes| :: hashes[i] == '#')
    requires title != "" && Trimmed(title) && field in DIRECTIVE_FIELDS
    ensures var line := hashes + " " + title;
            && IsBoundary(Trim(line))
            && Opens(line, field) == if FieldName(title) == field then Some("") else None
  {
    hide FieldName, Trim, DIRECTIVE_FIELDS;
    assert "" !in DIRECTIVE_FIELDS by { NoEmptyField(); }
    var line := hashes + " " + title;
    assert line[0] == '#' && line[|line| - 1] == title[|title| - 1];
    TrimFixed(line);
    NotDirective(line);
    assert line == hashes + (" " + title);
    HashesGo(hashes, " " + title);
    SpaceGoes(title);
  }

  lemma {:induction false} NoEmptyField()
    ensures "" !in DIRECTIVE_FIELDS
  {
  }

  lemma {:induction false} SpaceGoes(s: string)
    requires s != "" && Trimmed(s)
    ensures Trim(" " + s) == s
  {
    assert (" " + s)[1..] == s;
    assert StripLeft(s, SPACES) == s && StripRight(s, SPACES) == s;
  }

  lemma {:induction false} DigitsOf(d: string, rest: string)
    requires (forall i | 0 <= i < |d| :: Digit(d[i])) && rest != "" && !Digit(rest[0])
    ensures Digits(d + rest) == |d|
  {
    if d == "" {
      assert d + rest == rest;
    } else {
      assert (d + rest)[0] == d[0] && (d + rest)[1..] == d[1..] + rest;
      DigitsOf(d[1..], rest);
    }
  }

  /** A list item is read without its mark, be it a bullet or a number with a period or a bracket. */
  lemma {:induction false} CleanItemIs(mark: char, d: string, item: string)
    requires item != "" && Trimmed(item) && d != "" && forall i | 0 <= i < |d| :: Digit(d[i])
    ensures mark in BULLETS ==> CleanItem([mark] + " " + item) == item
    ensures CleanItem(d + ". " + item) == item && CleanItem(d + ") " + item) == item
    ensures item[0] !in BULLETS && !Digit(item[0]) ==> CleanItem(item) == item
  {
    hide Trim, Digits;
    SpaceGoes(item);
    TrimFixed(item);
    assert ([mark] + " " + item)[1..] == " " + item;
    forall sep | sep == ". " || sep == ") " ensures CleanItem(d + sep + item) == item {
      var line := d + sep + item;
      assert line == d + (sep + item);
      DigitsOf(d, sep + item);
      assert line[0] == d[0] && line[0] !in BULLETS && line[|d|] == sep[0] && line[|d| + 1] == ' ';
      assert line[|d| + 1..] == " " + item;
    }
    NoNumber(item);
  }

  lemma {:induction false} NoNumber(s: string)
    requires s != ""
    ensures !Digit(s[0]) ==> Digits(s) == 0
  {
  }

  /** Every kind of line break ends a line, and `\r\n` is one break. */
  lemma {:induction false} LinesBreak(line: string, b: char, rest: string)
    requires Line(line) && b in BREAKS
    ensures b != '\r' || rest == "" || rest[0] != '\n' ==> SplitLines(line + [b] + rest) == [line] + SplitLines(rest)
    ensures SplitLines(line + "\r\n" + rest) == [line] + SplitLines(rest)
  {
    forall mark | mark == [b] || mark == "\r\n" ensures IndexOf(line + mark + rest, BREAKS) == |line| {
      assert line + mark + rest == line + (mark + rest);
      IndexOfBefore(line, mark + rest, BREAKS);
      assert (mark + rest)[0] in BREAKS;
    }
    var one, two := line + [b] + rest, line + "\r\n" + rest;
    assert one[..|line|] == line && one[|line|] == b && one[|line| + 1..] == rest;
    assert two[..|line|] == line && two[|line|] == '\r' && two[|line| + 1] == '\n' && two[|line| + 2..] == rest;
    assert rest != "" ==> one[|line| + 1] == rest[0];
  }

  // ---------- field names ----------

  predicate Alnum(c: char) { 'a' <= c <= 'z' || Digit(c) }

  lemma {:induction false} SquashConcat(a: string, b: string, inRun: bool)
    requires a != "" && Alnum(a[|a| - 1])
    ensures Squash(a + b, inRun) == Squash(a, inRun) + Squash(b, false)
  {
    assert (a + b)[0] == a[0] && (a + b)[1..] == a[1..] + b;
    if |a| > 1 {
      SquashConcat(a[1..], b, false);
      SquashConcat(a[1..], b, true);
    } else {
      assert a[1..] == "" && a[1..] + b == b;
    }
  }

  lemma {:induction false} SquashRun(sep: string, b: string, inRun: bool)
    requires (forall i | 0 <= i < |sep| :: !Alnum(sep[i])) && (sep != "" || inRun)
    ensures Squash(sep + b, inRun) == (if inRun then "" else "_") + Squash(b, true)
  {
    if sep == "" {
      assert sep + b == b;
    } else {
      assert (sep + b)[0] == sep[0] && (sep + b)[1..] == sep[1..] + b;
      SquashRun(sep[1..], b, true);
    }
  }

  lemma {:induction false} SquashStart(b: string, inRun: bool)
    requires b != "" && Alnum(b[0])
    ensures Squash(b, inRun) == Squash(b, false)
  {
  }

  lemma {:induction false} SquashEnds(a: string, inRun: bool)
    requires a != "" && Alnum(a[|a| - 1])
    ensures var q := Squash(a, inRun); q != "" && Alnum(q[|q| - 1]) && (Alnum(a[0]) ==> q[0] == a[0])
  {
    if |a| > 1 {
      SquashEnds(a[1..], false);
      SquashEnds(a[1..], true);
    } else {
      assert a[1..] == "";
    }
  }

  /** The text starts and ends with a letter or digit. */
  predicate Solid(s: string) { s != "" && Alnum(LowerChar(s[0])) && Alnum(LowerChar(s[|s| - 1])) }

  lemma {:induction false} SolidName(s: string)
    requires Solid(s)
    ensures FieldName(s) == Squash(Lower(s), false)
  {
    hide Squash, Lower;
    TrimFixed(s);
    LowerAt(s, 0);
    LowerAt(s, |s| - 1);
    var low := Lower(s);
    SquashEnds(low, false);
    StripFixed(Squash(low, false), {'_'});
  }

  /** Whatever stands between two words, other than letters and digits, becomes one underscore of the field name. */
  lemma {:induction false} FieldNameIs(a: string, sep: string, b: string)
    requires Solid(a) && Solid(b) && sep != "" && forall i | 0 <= i < |sep| :: !Alnum(LowerChar(sep[i]))
    ensures FieldName(a + sep + b) == FieldName(a) + "_" + FieldName(b)
  {
    hide Squash, Lower;
    var all := a + sep + b;
    assert all[0] == a[0] && all[|all| - 1] == b[|b| - 1];
    SolidName(a);
    SolidName(b);
    SolidName(all);
    LowerConcat(a + sep, b);
    LowerConcat(a, sep);
    LowerAt(a, |a| - 1);
    LowerAt(b, 0);
    forall i | 0 <= i < |sep| ensures !Alnum(Lower(sep)[i]) { LowerAt(sep, i); }
    assert Lower(all) == Lower(a) + (Lower(sep) + Lower(b));
    SquashConcat(Lower(a), Lower(sep) + Lower(b), false);
    SquashRun(Lower(sep), Lower(b), false);
    SquashStart(Lower(b), true);
  }

  /** Field names do not see case, and a word of lower-case letters and digits is its own name. */
  lemma {:induction false} FieldNameWord(a: string)
    requires Solid(a)
    ensures FieldName(Lower(a)) == FieldName(a)
    ensures (forall i | 0 <= i < |a| :: Alnum(a[i])) ==> FieldName(a) == a
  {
    hide Squash, Lower;
    SolidName(a);
    LowerTwice(a);
    LowerAt(a, 0);
    LowerAt(a, |a| - 1);
    LowerAt(Lower(a), 0);
    LowerAt(Lower(a), |a| - 1);
    SolidName(Lower(a));
    if forall i | 0 <= i < |a| :: Alnum(a[i]) {
      LowerFixed(a);
      SquashWord(a);
    }
  }

  lemma {:induction false} SquashWord(a: string)
    requires forall i | 0 <= i < |a| :: Alnum(a[i])
    ensures Squash(a, false) == a
  {
    if a != "" { SquashWord(a[1..]); }
  }

  /** One value is read from the first line of a section that is not blank, and none from the next section. */
  lemma {:induction false} ScalarSectionIs(line: string, rest: seq<string>)
    ensures Trim(line) == "" ==> ScalarSection([line] + rest) == ScalarSection(rest)
    ensures Trim(line) != "" && IsBoundary(Trim(line)) ==> ScalarSection([line] + rest) == ""
    ensures Trim(line) != "" && !IsBoundary(Trim(line)) ==> ScalarSection([line] + rest) == CleanItem(Trim(line))
    ensures ScalarSection([]) == ""
  {
    hide Trim, IsBoundary, CleanItem;
    assert ([line] + rest)[1..] == rest;
  }

  /** The six fields of one value and the three lists of the issue contract are the fields that lines can open. */
  lemma {:induction false} ContractFields(field: string)
    ensures field in DIRECTIVE_FIELDS <==>
            || field == "app_target" || field == "browser_repro_mode" || field == "entry_url" || field == "execution_root"
            || field == "fixture_profile" || field == "runtime_profile"
            || field == "repro_steps" || field == "artifact_requirements" || field == "judgment_required_conditions"
  {
  }

  /** What the parser takes for a label: at least two characters, a letter first, and then letters, digits, blanks,
      underscores and dashes. White space between the label and the colon does not count. */
  lemma {:induction false} LabelIs(p: string, c: char)
    requires Trimmed(p) && c in SPACES
    ensures LabelPart(p) <==>
            && |p| >= 2 && ('a' <= p[0] <= 'z' || 'A' <= p[0] <= 'Z')
            && forall i | 0 <= i < |p| ::
                 'a' <= p[i] <= 'z' || 'A' <= p[i] <= 'Z' || '0' <= p[i] <= '9' || p[i] == ' ' || p[i] == '_' || p[i] == '-'
    ensures |p| >= 2 ==> (LabelPart(p + [c]) <==> LabelPart(p))
  {
    assert StripRight(p, SPACES) == p;
    assert (p + [c])[..|p|] == p;
    assert StripRight(p + [c], SPACES) == p;
  }
}
