/** Printing an issue form as an issue body (scripts/validate_repro_contract_examples.py), and the round
    trip through the parser of `TaskFields`. */
module IssueForm {
  import opened Wrappers
  import opened Text
  import opened TaskFields

  /** A form field; `caption` is its `label` attribute. */
  datatype FormField = FormField(id: string, caption: Option<string>, options: seq<string>,
                                 placeholder: Option<string>, value: Option<string>)

  function RightTrim(s: string): string { StripRight(s, SPACES) }

  /** The text a field is printed with: the given value under its id or label, else the first option, the
      placeholder, the preset value, or nothing */
  function ValueOf(f: FormField, values: map<string, string>): string
  {
    var caption := Trim(f.caption.GetOr(""));
    if Trim(f.id) != "" && Trim(f.id) in values then RightTrim(values[Trim(f.id)])
    else if caption != "" && caption in values then RightTrim(values[caption])
    else if f.options != [] then RightTrim(f.options[0])
    else if f.placeholder.GetOr("") != "" then Strip(f.placeholder.value, {'\n'})
    else RightTrim(f.value.GetOr(""))
  }

  /** What is printed of a field: its caption and its text */
  datatype Entry = Entry(caption: string, text: string)

  function CaptionOf(f: FormField): string { Trim(f.caption.GetOr(f.id)) }

  /** The entries of a form: fields without a caption or without a text are left out. */
  function Entries(fields: seq<FormField>, values: map<string, string>): seq<Entry>
  {
    if fields == [] then []
    else
      var f, front := fields[|fields| - 1], Entries(fields[..|fields| - 1], values);
      if CaptionOf(f) != "" && ValueOf(f, values) != "" then front + [Entry(CaptionOf(f), ValueOf(f, values))] else front
  }

  predicate Multiline(text: string)
  {
    '\n' in text || var s := StripLeft(text, SPACES); s != "" && (s[0] == '-' || s[0] == '*')
  }

  /** The lines of one entry, and a blank one */
  function Block(e: Entry): seq<string>
  {
    (if Multiline(e.text) then [e.caption + ":"] + SplitLines(e.text) else [e.caption + ": " + e.text]) + [""]
  }

  function Blocks(entries: seq<Entry>): seq<string>
  {
    if entries == [] then [] else Blocks(entries[..|entries| - 1]) + Block(entries[|entries| - 1])
  }

  function Body(entries: seq<Entry>): string { Trim(Join(Blocks(entries), "\n")) + "\n" }

  method IssueFormValue(f: FormField, values: map<string, string>) returns (r: string)
    ensures r == ValueOf(f, values)
  {
    hide Trim, RightTrim, Strip;
    var keys := [Trim(f.id), Trim(f.caption.GetOr(""))];
    for i := 0 to 2
      invariant forall k | 0 <= k < i :: keys[k] == "" || keys[k] !in values
    {
      assert i == 1 ==> keys[0] == "" || keys[0] !in values;
      if keys[i] != "" && keys[i] in values { return RightTrim(values[keys[i]]); }
    }
    assert keys[0] == "" || keys[0] !in values;
    assert keys[1] == "" || keys[1] !in values;
    if f.options != [] { return RightTrim(f.options[0]); }
    if f.placeholder.Some? && f.placeholder.value != "" { return Strip(f.placeholder.value, {'\n'}); }
    if f.value.Some? && f.value.value != "" { return RightTrim(f.value.value); }
    r := "";
    assert RightTrim("") == "" by { NothingRight(); }
  }

  lemma {:induction false} NothingRight()
    ensures RightTrim("") == ""
  {
  }

  lemma {:induction false} BlocksStep(fields: seq<FormField>, values: map<string, string>, i: nat)
    requires i < |fields|
    ensures var caption, text := CaptionOf(fields[i]), ValueOf(fields[i], values);
            var before := Blocks(Entries(fields[..i], values));
            Blocks(Entries(fields[..i + 1], values))
            == if caption != "" && text != "" then before + Block(Entry(caption, text)) else before
  {
    hide ValueOf, CaptionOf, Block;
    assert fields[..i + 1][..i] == fields[..i];
    var front, e := Entries(fields[..i], values), Entry(CaptionOf(fields[i]), ValueOf(fields[i], values));
    assert (front + [e])[..|front|] == front;
  }

  /** `_render_issue_form_body` */
  method RenderIssueFormBody(fields: seq<FormField>, values: map<string, string>) returns (body: string)
    ensures body == Body(Entries(fields, values))
  {
    hide Trim, ValueOf, CaptionOf, SplitLines, Multiline, Join, Blocks, Entries;
    var lines: seq<string> := [];
    NoBlocks(values);
    assert fields[..0] == [];
    for i := 0 to |fields|
      invariant lines == Blocks(Entries(fields[..i], values))
    {
      BlocksStep(fields, values, i);
      var caption := CaptionOf(fields[i]);
      if caption == "" { continue; }
      var text := IssueFormValue(fields[i], values);
      if text == "" { continue; }
      if Multiline(text) {
        lines := lines + ([caption + ":"] + SplitLines(text) + [""]);
      } else {
        lines := lines + ([caption + ": " + text] + [""]);
      }
    }
    assert fields[..|fields|] == fields;
    body := Trim(Join(lines, "\n")) + "\n";
  }

  lemma {:induction false} NoBlocks(values: map<string, string>)
    ensures Blocks(Entries([], values)) == []
  {
  }

  // ---------- the domain of the round trip ----------

  /** What a field holds: one line, or a bullet list */
  datatype Content = Scalar(text: string) | Bullets(items: seq<string>)

  predicate Item(s: string) { s != "" && Trimmed(s) && Line(s) }

  function Marked(items: seq<string>): seq<string>
  {
    if items == [] then [] else ["- " + items[0]] + Marked(items[1..])
  }

  function TextOf(c: Content): string
  {
    match c
    case Scalar(text) => text
    case Bullets(items) => Join(Marked(items), "\n")
  }

  /** A caption on one line, stripped, without a colon, and no heading */
  predicate Caption(s: string) { s != "" && Trimmed(s) && Line(s) && ':' !in s && s[0] != '#' }

  /** The parser takes the caption for a label, and that label names the field. Captions such as `Notes (optional)`
      are no labels: their lines open nothing. */
  predicate Names(caption: string, field: string) { LabelPart(caption) && FieldName(caption) == field }

  predicate Fits(caption: string, c: Content)
  {
    && Caption(caption)
    && match c
       case Scalar(text) => Item(text)
       case Bullets(items) => items != [] && forall i | 0 <= i < |items| :: Item(items[i])
  }

  datatype Filled = Filled(caption: string, content: Content)

  ghost predicate Form(form: seq<Filled>) { forall i | 0 <= i < |form| :: Fits(form[i].caption, form[i].content) }

  ghost predicate DistinctNames(form: seq<Filled>)
  {
    forall i, j | 0 <= i < j < |form| && LabelPart(form[i].caption) && LabelPart(form[j].caption) ::
      FieldName(form[i].caption) != FieldName(form[j].caption)
  }

  function Lines(e: Filled): seq<string>
  {
    match e.content
    case Scalar(text) =>
      if text != "" && (text[0] == '-' || text[0] == '*') then [e.caption + ":", text, ""] else [e.caption + ": " + text, ""]
    case Bullets(items) => [e.caption + ":"] + Marked(items) + [""]
  }

  function EntryOf(e: Filled): Entry { Entry(e.caption, TextOf(e.content)) }

  function EntriesOf(form: seq<Filled>): seq<Entry>
  {
    if form == [] then [] else EntriesOf(form[..|form| - 1]) + [EntryOf(form[|form| - 1])]
  }

  // ---------- the printed lines ----------

  lemma {:induction false} MarkedAt(items: seq<string>, i: nat)
    requires i < |items|
    ensures |Marked(items)| == |items| && Marked(items)[i] == "- " + items[i]
  {
    if |items| > 1 { MarkedAt(items[1..], if i > 0 then i - 1 else 0); }
  }

  lemma {:induction false} DashedIsLine(item: string)
    requires Item(item)
    ensures Line("- " + item) && Trimmed("- " + item) && "- " + item != ""
  {
    var s := "- " + item;
    forall c | c in s ensures c !in BREAKS { assert c == '-' || c == ' ' || c in item; }
    assert s[|s| - 1] == item[|item| - 1] && s[0] == '-';
  }

  lemma {:induction false} MarkedLines(items: seq<string>)
    requires items != [] && forall i | 0 <= i < |items| :: Item(items[i])
    ensures |Marked(items)| == |items|
    ensures forall i | 0 <= i < |items| :: Line(Marked(items)[i]) && Trimmed(Marked(items)[i]) && Marked(items)[i] != ""
    ensures SplitLines(Join(Marked(items), "\n")) == Marked(items)
    ensures Multiline(Join(Marked(items), "\n"))
  {
    hide Item, Line, Trimmed, SplitLines, Join, Multiline, Marked;
    MarkedAt(items, 0);
    forall i | 0 <= i < |items| ensures Line(Marked(items)[i]) && Trimmed(Marked(items)[i]) && Marked(items)[i] != "" {
      MarkedAt(items, i);
      DashedIsLine(items[i]);
    }
    SplitLinesJoin(Marked(items));
    DashFirst(Marked(items));
  }

  lemma {:induction false} DashFirst(lines: seq<string>)
    requires lines != [] && lines[0] != "" && lines[0][0] == '-'
    ensures Multiline(Join(lines, "\n"))
  {
    var s := Join(lines, "\n");
    assert s[0] == '-';
    assert StripLeft(s, SPACES) == s;
  }

  /** A form prints as its lines. */
  lemma {:induction false} BlockIs(e: Filled)
    requires Fits(e.caption, e.content)
    ensures Block(EntryOf(e)) == Lines(e)
  {
    hide SplitLines, Marked, Join;
    match e.content
    case Scalar(text) =>
      ScalarLines(text);
    case Bullets(items) =>
      MarkedLines(items);
  }

  lemma {:induction false} ScalarLines(text: string)
    requires Item(text)
    ensures SplitLines(text) == [text]
    ensures Multiline(text) <==> text[0] == '-' || text[0] == '*'
  {
    hide SplitLines;
    SplitLinesLast(text);
    assert StripLeft(text, SPACES) == text;
  }

  function AllLines(form: seq<Filled>): seq<string>
  {
    if form == [] then [] else Lines(form[0]) + AllLines(form[1..])
  }

  lemma {:induction false} AllLinesConcat(a: seq<Filled>, b: seq<Filled>)
    ensures AllLines(a + b) == AllLines(a) + AllLines(b)
  {
    hide Lines;
    if a == [] {
      assert a + b == b;
    } else {
      assert (a + b)[1..] == a[1..] + b;
      AllLinesConcat(a[1..], b);
    }
  }

  lemma {:induction false} BlocksAre(form: seq<Filled>)
    requires Form(form)
    ensures Blocks(EntriesOf(form)) == AllLines(form)
  {
    hide Lines, EntryOf, Block, Fits;
    if form != [] {
      var n := |form| - 1;
      var front := form[..n];
      BlocksAre(front);
      BlockIs(form[n]);
      assert (EntriesOf(front) + [EntryOf(form[n])])[..|EntriesOf(front)|] == EntriesOf(front);
      AllLinesConcat(front, [form[n]]);
      assert form == front + [form[n]];
      assert [form[n]][1..] == [];
      assert AllLines([form[n]]) == Lines(form[n]) + [];
    }
  }

  /** Lines that can be joined, stripped and split again: the outer ones are not blank, the last blank one aside. */
  ghost predicate Printable(lines: seq<string>)
  {
    && (forall i | 0 <= i < |lines| :: Line(lines[i]) && (lines[i] == "" || Trimmed(lines[i])))
    && (lines != [] ==> |lines| >= 2 && lines[0] != "" && lines[|lines| - 1] == "" && lines[|lines| - 2] != "")
  }

  lemma {:induction false} JoinEnds(parts: seq<string>, sep: string)
    requires parts != [] && parts[0] != "" && parts[|parts| - 1] != ""
    ensures var s := Join(parts, sep); s != "" && s[0] == parts[0][0] && s[|s| - 1] == parts[|parts| - 1][|parts[|parts| - 1]| - 1]
  {
    if |parts| > 1 { JoinLast(parts, sep); }
  }

  lemma {:induction false} JoinLast(parts: seq<string>, sep: string)
    requires parts != [] && parts[|parts| - 1] != ""
    ensures var s := Join(parts, sep); s != "" && s[|s| - 1] == parts[|parts| - 1][|parts[|parts| - 1]| - 1]
  {
    if |parts| > 1 { JoinLast(parts[1..], sep); }
  }

  /** The body is split into the printed lines, the last blank one aside. */
  lemma {:induction false} BodyLines(lines: seq<string>)
    requires Printable(lines) && lines != []
    ensures SplitLines(Trim(Join(lines, "\n")) + "\n") + [""] == lines
  {
    hide SplitLines, Trim, Join, Line;
    var front := lines[..|lines| - 1];
    assert lines == front + [""];
    JoinConcat(front, [""], "\n");
    assert Join([""], "\n") == "" by { JoinOne(""); }
    assert Join(lines, "\n") == Join(front, "\n") + "\n";
    JoinEnds(front, "\n");
    TrimAfter(Join(front, "\n"), '\n');
    SplitLinesJoin(front);
  }

  lemma {:induction false} JoinOne(s: string)
    ensures Join([s], "\n") == s
  {
  }

  lemma {:induction false} SpacedLine(text: string)
    requires Item(text)
    ensures Line(" " + text) && (" " + text)[|text|] !in SPACES && Trim(" " + text) == text
  {
    forall c | c in " " + text ensures c !in BREAKS { assert c == ' ' || c in text; }
    assert (" " + text)[|text|] == text[|text| - 1];
    SpaceGoes(text);
  }

  lemma {:induction false} LinesPrintable(e: Filled)
    requires Fits(e.caption, e.content)
    ensures Printable(Lines(e)) && Lines(e) != []
  {
    hide Line, Marked, Trim, Trimmed, Caption;
    NoBreaks();
    CaptionLine(e.caption, "");
    var line := e.caption + ":";
    assert line == e.caption + ":" + "";
    match e.content
    case Scalar(text) =>
      SpacedLine(text);
      CaptionLine(e.caption, " " + text);
      assert e.caption + ": " + text == e.caption + ":" + (" " + text);
    case Bullets(items) =>
      MarkedLines(items);
      Framed(line, Marked(items));
  }

  lemma {:induction false} Framed(line: string, middle: seq<string>)
    requires Line(line) && Trimmed(line) && line != "" && Line("")
    requires middle != [] && forall i | 0 <= i < |middle| :: Line(middle[i]) && Trimmed(middle[i]) && middle[i] != ""
    ensures Printable([line] + middle + [""])
  {
    hide Line, Trimmed;
    var lines := [line] + middle + [""];
    forall i | 0 <= i < |lines| ensures Line(lines[i]) && (lines[i] == "" || Trimmed(lines[i])) {
      if 0 < i <= |middle| { assert lines[i] == middle[i - 1]; }
    }
    assert lines[|lines| - 2] == middle[|middle| - 1];
  }

  lemma {:induction false} NoBreaks()
    ensures Line("")
  {
  }

  lemma {:induction false} CaptionLine(caption: string, rest: string)
    requires Caption(caption) && Line(rest) && (rest == "" || rest[|rest| - 1] !in SPACES)
    ensures var s := caption + ":" + rest; Line(s) && Trimmed(s) && s != ""
  {
    var s := caption + ":" + rest;
    forall c | c in s ensures c !in BREAKS {
      if c in caption {
      } else if c in rest {
      } else {
        assert c == ':';
      }
    }
    assert s[0] == caption[0];
    assert s[|s| - 1] == if rest == "" then ':' else rest[|rest| - 1];
  }

  lemma {:induction false} PrintableConcat(a: seq<string>, b: seq<string>)
    requires Printable(a) && Printable(b)
    ensures Printable(a + b)
  {
    hide Line, Trimmed;
    var s := a + b;
    forall i | 0 <= i < |s| ensures Line(s[i]) && (s[i] == "" || Trimmed(s[i])) {
      if i < |a| { assert s[i] == a[i]; } else { assert s[i] == b[i - |a|]; }
    }
  }

  lemma {:induction false} FormPrintable(form: seq<Filled>)
    requires Form(form)
    ensures Printable(AllLines(form)) && (form != [] ==> AllLines(form) != [])
  {
    hide Lines, Fits, Line;
    if form != [] {
      LinesPrintable(form[0]);
      FormPrintable(form[1..]);
      PrintableConcat(Lines(form[0]), AllLines(form[1..]));
    }
  }

  // ---------- what the parser makes of each kind of line ----------

  /** The line of a caption opens the field it names and no other, and starts a section if it is a label. */
  lemma {:induction false} CaptionOpens(caption: string, rest: string, field: string)
    requires Caption(caption) && Line(rest) && (rest == "" || rest[|rest| - 1] !in SPACES)
    requires field in DIRECTIVE_FIELDS
    ensures var s := caption + ":" + rest;
            && Trim(s) == s && (IsBoundary(s) <==> LabelPart(caption))
            && Opens(s, field) == if Names(caption, field) then Some(Strip(Trim(rest), {'`'})) else None
  {
    hide Trim, FieldName, Strip, Trimmed, Line, LabelPart;
    var s := caption + ":" + rest;
    CaptionLine(caption, rest);
    TrimFixed(s);
    CaptionSplits(caption, rest);
    assert "" !in DIRECTIVE_FIELDS;
  }

  lemma {:induction false} CaptionSplits(caption: string, rest: string)
    requires Caption(caption)
    ensures var s := caption + ":" + rest;
            IndexOf(s, {':'}) == |caption| && s[..|caption|] == caption && s[|caption| + 1..] == rest && !IsHeading(s)
  {
    var s := caption + ":" + rest;
    assert s == caption + (":" + rest);
    IndexOfBefore(caption, ":" + rest, {':'});
    assert (":" + rest)[0] == ':';
    assert s[0] == caption[0];
  }

  /** A line that starts with a dash or a star opens nothing and bounds nothing, whatever else it says. */
  lemma {:induction false} DashOpensNothing(s: string, field: string)
    requires s != "" && Trimmed(s) && (s[0] == '-' || s[0] == '*') && field != ""
    ensures Trim(s) == s && !IsBoundary(s) && Opens(s, field) == None
  {
    hide Trim, FieldName, Strip, Trimmed;
    TrimFixed(s);
    assert !IsDirective(s) by {
      var k := IndexOf(s, {':'});
      assert k >= 1 ==> s[..k][0] == s[0];
    }
  }

  lemma {:induction false} BlankOpensNothing(field: string)
    requires field != ""
    ensures Trim("") == "" && Opens("", field) == None
  {
  }

  /** A marked item is read without its mark. */
  lemma {:induction false} CleanMarked(item: string)
    requires Item(item)
    ensures CleanItem("- " + item) == item
  {
    hide Trim, Digits;
    var s := "- " + item;
    assert s[0] == '-' && s[1] == ' ' && s[1..] == " " + item;
    SpaceGoes(item);
  }

  // ---------- what the parser makes of a form ----------

  /** Reading a field as one value, with the lines after its entry: what follows is read only for a value that is
      nothing but backticks. */
  function ReadScalar(c: Content, rest: seq<string>): string
  {
    match c
    case Scalar(text) =>
      if text != "" && (text[0] == '-' || text[0] == '*') then CleanItem(text)
      else if Strip(text, {'`'}) != "" then Strip(text, {'`'})
      else ScalarSection(rest)
    case Bullets(items) => if items == [] then "" else items[0]
  }

  /** Reading a field as a list */
  function ReadList(c: Content, rest: seq<string>): seq<string>
  {
    match c
    case Scalar(text) =>
      if text != "" && (text[0] == '-' || text[0] == '*') then [CleanItem(text)]
      else if Strip(text, {'`'}) != "" then [Strip(text, {'`'})]
      else ListSection(rest, false)
    case Bullets(items) => items
  }

  /** The place of the first entry that names the field, or the length of the form */
  function FirstNaming(form: seq<Filled>, field: string): (k: nat)
    ensures k <= |form|
  {
    if form == [] || Names(form[0].caption, field) then 0 else 1 + FirstNaming(form[1..], field)
  }

  lemma {:induction false} MarkedSection(items: seq<string>, rest: seq<string>, some: bool)
    requires forall i | 0 <= i < |items| :: Item(items[i])
    requires items != [] || some
    ensures ListSection(Marked(items) + [""] + rest, some) == items
    ensures items != [] ==> ScalarSection(Marked(items) + [""] + rest) == items[0]
  {
    hide Trim, IsBoundary, CleanItem, Item, Opens;
    var lines := Marked(items) + [""] + rest;
    if items == [] {
      assert lines[0] == "";
      BlankOpensNothing("x");
    } else {
      DashedIsLine(items[0]);
      DashOpensNothing("- " + items[0], "x");
      CleanMarked(items[0]);
      NotBlank(items[0]);
      assert lines[0] == "- " + items[0] && lines[1..] == Marked(items[1..]) + [""] + rest;
      MarkedSection(items[1..], rest, true);
      assert items == [items[0]] + items[1..];
    }
  }

  lemma {:induction false} NotBlank(item: string)
    requires Item(item)
    ensures item != "" && "- " + item != ""
  {
  }

  lemma {:induction false} DashSection(text: string, rest: seq<string>)
    requires Item(text) && (text[0] == '-' || text[0] == '*')
    ensures ScalarSection([text, ""] + rest) == CleanItem(text) != ""
    ensures ListSection([text, ""] + rest, false) == [CleanItem(text)]
  {
    hide Trim, IsBoundary, CleanItem, Opens;
    DashOpensNothing(text, "x");
    BlankOpensNothing("x");
    CleanIsText(text);
    var lines := [text, ""] + rest;
    assert lines[1..] == [""] + rest;
    assert ([""] + rest)[0] == "";
  }

  lemma {:induction false} CleanIsText(text: string)
    requires Item(text) && (text[0] == '-' || text[0] == '*')
    ensures CleanItem(text) != ""
    ensures CleanItem(text) == text <==> |text| == 1 || text[1] !in SPACES
  {
    hide Trim, Digits;
    TrimFixed(text);
    assert Digits(text) == 0 by { NoDigits(text); }
    if |text| >= 2 && text[1] in SPACES {
      TrimSome(text[1..]);
    }
  }

  lemma {:induction false} NoDigits(text: string)
    requires text != "" && !Digit(text[0])
    ensures Digits(text) == 0
  {
  }

  lemma {:induction false} TrimSome(s: string)
    requires s != "" && s[|s| - 1] !in SPACES
    ensures Trim(s) != "" && |Trim(s)| <= |s|
  {
    StripEmpty(s, SPACES);
    assert s[|s| - 1] in s;
  }

  /** One entry at the head of the lines */
  lemma {:induction false} EntryReads(e: Filled, rest: seq<string>, field: string)
    requires Fits(e.caption, e.content) && field in DIRECTIVE_FIELDS
    ensures ScalarField(Lines(e) + rest, field)
         == if Names(e.caption, field) then ReadScalar(e.content, rest) else ScalarField(rest, field)
    ensures ListField(Lines(e) + rest, field)
         == if Names(e.caption, field) then ReadList(e.content, rest) else ListField(rest, field)
  {
    hide Lines, Trim, Opens, IsBoundary, CleanItem, FieldName, Strip, Line, Caption, Marked, ScalarSection, ListSection, Names;
    assert "" !in DIRECTIVE_FIELDS;
    NoBreaks();
    match e.content
    case Scalar(text) =>
      if text[0] == '-' || text[0] == '*' {
        DashEntryReads(e, rest, field);
      } else {
        LineEntryReads(e, rest, field);
      }
    case Bullets(items) =>
      BulletEntryReads(e, rest, field);
  }

  /** Two readers agree with what one line of an entry does. */
  lemma {:induction false} FieldStep(line: string, rest: seq<string>, field: string)
    ensures ScalarField([line] + rest, field) ==
            match Opens(line, field) case Some(v) => if v != "" then v else ScalarSection(rest) case None => ScalarField(rest, field)
    ensures ListField([line] + rest, field) ==
            match Opens(line, field) case Some(v) => if v != "" then [v] else ListSection(rest, false) case None => ListField(rest, field)
  {
    hide Opens, ScalarSection, ListSection;
    assert ([line] + rest)[1..] == rest;
  }

  lemma {:induction false} BlankThen(rest: seq<string>)
    ensures ScalarSection([""] + rest) == ScalarSection(rest) && ListSection([""] + rest, false) == ListSection(rest, false)
  {
    hide Trim, IsBoundary, CleanItem;
    assert Trim("") == "" by { BlankOpensNothing("x"); }
    assert ([""] + rest)[1..] == rest;
  }

  lemma {:induction false} LineEntryReads(e: Filled, rest: seq<string>, field: string)
    requires Fits(e.caption, e.content) && field in DIRECTIVE_FIELDS
    requires e.content.Scalar? && e.content.text[0] != '-' && e.content.text[0] != '*'
    ensures ScalarField(Lines(e) + rest, field)
         == if Names(e.caption, field) then ReadScalar(e.content, rest) else ScalarField(rest, field)
    ensures ListField(Lines(e) + rest, field)
         == if Names(e.caption, field) then ReadList(e.content, rest) else ListField(rest, field)
  {
    hide Trim, Opens, FieldName, Strip, Line, Caption, ScalarSection, ListSection, ScalarField, ListField, CleanItem, Names;
    var text := e.content.text;
    SpacedLine(text);
    CaptionOpens(e.caption, " " + text, field);
    var line := e.caption + ": " + text;
    assert line == e.caption + ":" + (" " + text);
    assert Lines(e) + rest == [line] + ([""] + rest);
    FieldStep(line, [""] + rest, field);
    assert field != "";
    BlankOpensNothing(field);
    FieldStep("", rest, field);
    BlankThen(rest);
  }

  lemma {:induction false} DashEntryReads(e: Filled, rest: seq<string>, field: string)
    requires Fits(e.caption, e.content) && field in DIRECTIVE_FIELDS
    requires e.content.Scalar? && (e.content.text[0] == '-' || e.content.text[0] == '*')
    ensures ScalarField(Lines(e) + rest, field)
         == if Names(e.caption, field) then ReadScalar(e.content, rest) else ScalarField(rest, field)
    ensures ListField(Lines(e) + rest, field)
         == if Names(e.caption, field) then ReadList(e.content, rest) else ListField(rest, field)
  {
    hide Trim, Opens, FieldName, Strip, Line, Caption, ScalarSection, ListSection, ScalarField, ListField, CleanItem, Names;
    var text := e.content.text;
    NoBreaks();
    CaptionOpens(e.caption, "", field);
    StripNothing();
    var line := e.caption + ":";
    assert line == e.caption + ":" + "";
    assert Lines(e) + rest == [line] + ([text] + ([""] + rest));
    FieldStep(line, [text] + ([""] + rest), field);
    assert field != "";
    DashOpensNothing(text, field) by { ItemTrimmed(text); }
    FieldStep(text, [""] + rest, field);
    BlankOpensNothing(field);
    FieldStep("", rest, field);
    assert [text] + ([""] + rest) == [text, ""] + rest;
    DashSection(text, rest);
  }

  lemma {:induction false} ItemTrimmed(text: string)
    requires Item(text)
    ensures text != "" && Trimmed(text)
  {
  }

  lemma {:induction false} StripNothing()
    ensures Strip(Trim(""), {'`'}) == ""
  {
  }

  lemma {:induction false} SkipMarked(items: seq<string>, rest: seq<string>, field: string)
    requires field != "" && forall i | 0 <= i < |items| :: Item(items[i])
    ensures ScalarField(Marked(items) + rest, field) == ScalarField(rest, field)
    ensures ListField(Marked(items) + rest, field) == ListField(rest, field)
  {
    hide Trim, Opens, Item, ScalarField, ListField;
    if items == [] {
      assert Marked(items) + rest == rest;
    } else {
      DashedIsLine(items[0]);
      DashOpensNothing("- " + items[0], field);
      assert Marked(items) + rest == ["- " + items[0]] + (Marked(items[1..]) + rest);
      FieldStep("- " + items[0], Marked(items[1..]) + rest, field);
      SkipMarked(items[1..], rest, field);
    }
  }

  lemma {:induction false} BulletEntryReads(e: Filled, rest: seq<string>, field: string)
    requires Fits(e.caption, e.content) && field in DIRECTIVE_FIELDS && e.content.Bullets?
    ensures ScalarField(Lines(e) + rest, field)
         == if Names(e.caption, field) then ReadScalar(e.content, rest) else ScalarField(rest, field)
    ensures ListField(Lines(e) + rest, field)
         == if Names(e.caption, field) then ReadList(e.content, rest) else ListField(rest, field)
  {
    hide Trim, Opens, FieldName, Strip, Line, Caption, ScalarSection, ListSection, ScalarField, ListField, Marked, Item, Names;
    var items := e.content.items;
    NoBreaks();
    CaptionOpens(e.caption, "", field);
    StripNothing();
    var line := e.caption + ":";
    assert line == e.caption + ":" + "";
    var tail := Marked(items) + [""] + rest;
    assert Lines(e) + rest == [line] + tail;
    FieldStep(line, tail, field);
    assert field != "";
    MarkedSection(items, rest, false);
    assert tail == Marked(items) + ([""] + rest);
    SkipMarked(items, [""] + rest, field);
    BlankOpensNothing(field);
    FieldStep("", rest, field);
  }

  lemma {:induction false} FormReads(form: seq<Filled>, field: string)
    requires Form(form) && field in DIRECTIVE_FIELDS
    ensures var k := FirstNaming(form, field);
            && ScalarField(AllLines(form), field) == (if k < |form| then ReadScalar(form[k].content, AllLines(form[k + 1..])) else "")
            && ListField(AllLines(form), field) == if k < |form| then ReadList(form[k].content, AllLines(form[k + 1..])) else []
  {
    hide Lines, Fits, Names, ReadScalar, ReadList, Opens;
    if form != [] {
      FormReads(form[1..], field);
      EntryReads(form[0], AllLines(form[1..]), field);
      var k := FirstNaming(form[1..], field);
      if !Names(form[0].caption, field) && k < |form| - 1 {
        assert form[1..][k] == form[k + 1] && form[1..][k + 1..] == form[k + 2..];
      }
    }
  }

  lemma {:induction false} TrailingBlank(lines: seq<string>, field: string)
    requires field != ""
    ensures ScalarField(lines + [""], field) == ScalarField(lines, field)
    ensures ListField(lines + [""], field) == ListField(lines, field)
  {
    hide Opens, ScalarSection, ListSection;
    BlankOpensNothing(field);
    if lines != [] {
      assert (lines + [""])[1..] == lines[1..] + [""];
      TrailingBlank(lines[1..], field);
      TrailingBlankSection(lines[1..], false);
    }
  }

  lemma {:induction false} TrailingBlankSection(lines: seq<string>, some: bool)
    ensures ScalarSection(lines + [""]) == ScalarSection(lines)
    ensures ListSection(lines + [""], some) == ListSection(lines, some)
  {
    hide Trim, IsBoundary, CleanItem;
    assert Trim("") == "" by { BlankOpensNothing("x"); }
    if lines != [] {
      assert (lines + [""])[1..] == lines[1..] + [""];
      var s := Trim(lines[0]);
      TrailingBlankSection(lines[1..], some);
      TrailingBlankSection(lines[1..], true);
      if s == "" { TrailingBlankSection(lines[1..], false); }
    }
  }

  /** What reading a field of a printed form gives, for every form and every contract field: the content of the first
      entry that names it, or nothing. */
  lemma {:induction false} PrintedFormReads(form: seq<Filled>, field: string)
    requires Form(form) && field in DIRECTIVE_FIELDS
    ensures var lines := SplitLines(Body(EntriesOf(form)));
            var k := FirstNaming(form, field);
            && ScalarField(lines, field) == (if k < |form| then ReadScalar(form[k].content, AllLines(form[k + 1..])) else "")
            && ListField(lines, field) == if k < |form| then ReadList(form[k].content, AllLines(form[k + 1..])) else []
  {
    hide Lines, Fits, Names, ReadScalar, ReadList, Opens, SplitLines, Join, Trim, ScalarField, ListField, AllLines, Printable, Blocks;
    assert field != "" by { assert "" !in DIRECTIVE_FIELDS; }
    BlocksAre(form);
    FormReads(form, field);
    FormPrintable(form);
    var lines := SplitLines(Body(EntriesOf(form)));
    if form == [] {
      EmptyForm(field);
    } else {
      BodyLines(AllLines(form));
      TrailingBlank(lines, field);
    }
  }

  lemma {:induction false} EmptyForm(field: string)
    requires field != ""
    ensures var lines := SplitLines(Body(EntriesOf([]))); ScalarField(lines, field) == "" && ListField(lines, field) == []
  {
  }

  /** A one-line value comes back unchanged under exactly these conditions. */
  predicate Survives(text: string)
    requires text != ""
  {
    if text[0] == '-' || text[0] == '*' then |text| == 1 || text[1] !in SPACES
    else text[0] != '`' && text[|text| - 1] != '`'
  }

  lemma {:induction false} TrimKeeps(s: string, c: char)
    requires c in s && c !in SPACES
    ensures c in Trim(s)
  {
    var l := StripLeft(s, SPACES);
    StripLeftRemoves(s, SPACES);
    StripRightRemoves(l, SPACES);
    var i :| 0 <= i < |s| && s[i] == c;
    assert l[i - (|s| - |l|)] == c;
  }

  lemma {:induction false} DigitsAre(s: string)
    ensures forall i | 0 <= i < Digits(s) :: Digit(s[i])
  {
    if s != "" && Digit(s[0]) { DigitsAre(s[1..]); }
  }

  /** Taking a list mark away takes no colon away. */
  lemma {:induction false} CleanKeepsColon(s: string)
    requires ':' in s
    ensures ':' in CleanItem(s)
  {
    hide Trim, Digits;
    DigitsAre(s);
    var i :| 0 <= i < |s| && s[i] == ':';
    TrimKeeps(s, ':');
    if |s| >= 2 && s[0] in BULLETS && s[1] in SPACES {
      assert s[1..][i - 1] == ':';
      TrimKeeps(s[1..], ':');
    }
    var n := Digits(s);
    if 0 < n && n + 1 < |s| && (s[n] == '.' || s[n] == ')') && i > n {
      assert s[n + 1..][i - (n + 1)] == ':';
      TrimKeeps(s[n + 1..], ':');
    }
  }

  /** What a section reads at the start of an entry is nothing or, for a caption that is no label, its line. */
  lemma {:induction false} NextEntry(form: seq<Filled>)
    requires Form(form)
    ensures var s := ScalarSection(AllLines(form)); s == "" || ':' in s
  {
    hide Trim, Opens, IsBoundary, Line, CleanItem, LabelPart, Names;
    if form != [] {
      var e := form[0];
      var field :| field in DIRECTIVE_FIELDS;
      NoBreaks();
      var line := Lines(e)[0];
      assert e.caption + ":" + "" == e.caption + ":";
      CaptionOpens(e.caption, "", field);
      if e.content.Scalar? {
        SpacedLine(e.content.text);
        assert e.caption + ": " + e.content.text == e.caption + ":" + (" " + e.content.text);
        CaptionOpens(e.caption, " " + e.content.text, field);
      }
      assert line[|e.caption|] == ':' && AllLines(form)[0] == line;
      CleanKeepsColon(line);
    }
  }

  lemma {:induction false} SurvivesIff(text: string, rest: seq<Filled>)
    requires Item(text) && Form(rest)
    ensures ReadScalar(Scalar(text), AllLines(rest)) == text <==> Survives(text)
  {
    hide AllLines, ScalarSection, Strip, Line;
    if text[0] == '-' || text[0] == '*' {
      CleanIsText(text);
    } else {
      StripFixed(text, {'`'});
      StripEmpty(text, {'`'});
      NextEntry(rest);
      assert text[0] in text;
    }
  }

  lemma {:induction false} HoldsOwn(form: seq<Filled>, i: nat)
    requires DistinctNames(form) && i < |form| && LabelPart(form[i].caption)
    ensures FirstNaming(form, FieldName(form[i].caption)) == i
  {
    hide FieldName, LabelPart;
    if i > 0 {
      assert form[1..][i - 1] == form[i];
      HoldsOwn(form[1..], i - 1);
    }
  }

  /** A filled form reads back, field by field. */
  lemma {:induction false} FilledReads(form: seq<Filled>, i: nat)
    requires Form(form) && DistinctNames(form) && i < |form|
    requires LabelPart(form[i].caption) && FieldName(form[i].caption) in DIRECTIVE_FIELDS
    ensures var lines, field := SplitLines(Body(EntriesOf(form))), FieldName(form[i].caption);
            match form[i].content
            case Bullets(items) => ListField(lines, field) == items && items != [] && ScalarField(lines, field) == items[0]
            case Scalar(text) => ScalarField(lines, field) == text <==> text != "" && Survives(text)
  {
    hide SplitLines, FieldName, ListField, ScalarField, FirstNaming, Survives, Caption, Body, AllLines, CleanItem, ScalarSection, LabelPart;
    PrintedFormReads(form, FieldName(form[i].caption));
    HoldsOwn(form, i);
    assert Fits(form[i].caption, form[i].content);
    match form[i].content
    case Bullets(items) =>
    case Scalar(text) => SurvivesIff(text, form[i + 1..]);
  }

  // ---------- from the values put in ----------

  /** The text is put in for the field, under its id, else under its label, else as its first option, with nothing but
      white space after it; or else it is the placeholder, with nothing but line breaks around it, or the preset value. */
  predicate PutIn(f: FormField, values: map<string, string>, text: string)
  {
    var id, caption := Trim(f.id), Trim(f.caption.GetOr(""));
    if id != "" && id in values then RightTrim(values[id]) == text
    else if caption != "" && caption in values then RightTrim(values[caption]) == text
    else if f.options != [] then RightTrim(f.options[0]) == text
    else if f.placeholder.GetOr("") != "" then Strip(f.placeholder.value, {'\n'}) == text
    else f.value.Some? && RightTrim(f.value.value) == text
  }

  lemma {:induction false} MarkedEnd(items: seq<string>)
    requires items != [] && forall i | 0 <= i < |items| :: Item(items[i])
    ensures var s := Join(Marked(items), "\n"); s != "" && s[0] !in SPACES && s[|s| - 1] !in SPACES
  {
    hide Line, SplitLines, Marked, Join;
    MarkedLines(items);
    JoinEnds(Marked(items), "\n");
    MarkedAt(items, 0);
  }

  /** The text of a content has nothing to strip at its end, nor a line break at its start, so putting it in as it is,
      or as a placeholder with a line break after it, puts it in. */
  lemma {:induction false} TextKept(caption: string, c: Content)
    requires Fits(caption, c)
    ensures RightTrim(TextOf(c)) == TextOf(c) != ""
    ensures Strip(TextOf(c) + "\n", {'\n'}) == TextOf(c)
  {
    hide Trim, Join, Marked, Caption, Line;
    match c
    case Scalar(text) =>
      EndKept(text);
    case Bullets(items) =>
      MarkedEnd(items);
      EndKept(TextOf(c));
  }

  lemma {:induction false} PutInIsPrinted(f: FormField, values: map<string, string>, text: string)
    requires PutIn(f, values, text)
    ensures ValueOf(f, values) == text
  {
    hide Trim, RightTrim, Strip;
  }

  lemma {:induction false} EndKept(s: string)
    requires s != "" && s[0] !in SPACES && s[|s| - 1] !in SPACES
    ensures RightTrim(s) == s && Strip(s + "\n", {'\n'}) == s
  {
    var t := s + "\n";
    assert '\n' in SPACES;
    assert StripLeft(t, {'\n'}) == t;
    assert t[..|s|] == s;
    assert StripRight(s, {'\n'}) == s;
  }

  /** The contents that the fields of a form print, put in or preset; None for a field that prints nothing. */
  predicate Entered(fields: seq<FormField>, values: map<string, string>, contents: seq<Option<Content>>)
  {
    |contents| == |fields| && forall i | 0 <= i < |fields| :: EnteredAt(fields[i], values, contents[i])
  }

  predicate EnteredAt(f: FormField, values: map<string, string>, c: Option<Content>)
  {
    match c
    case Some(content) => Fits(CaptionOf(f), content) && ValueOf(f, values) == TextOf(content)
    case None => CaptionOf(f) == "" || ValueOf(f, values) == ""
  }

  function FormOf(fields: seq<FormField>, contents: seq<Option<Content>>): seq<Filled>
    requires |contents| == |fields|
  {
    if fields == [] then []
    else
      var n := |fields| - 1;
      var front := FormOf(fields[..n], contents[..n]);
      if contents[n].Some? then front + [Filled(CaptionOf(fields[n]), contents[n].value)] else front
  }

  lemma {:induction false} PrintsForm(fields: seq<FormField>, values: map<string, string>, contents: seq<Option<Content>>)
    requires Entered(fields, values, contents)
    ensures Entries(fields, values) == EntriesOf(FormOf(fields, contents)) && Form(FormOf(fields, contents))
  {
    hide ValueOf, CaptionOf, TextOf, Fits, PutIn, EntryOf;
    if fields != [] {
      var n := |fields| - 1;
      forall i | 0 <= i < n ensures EnteredAt(fields[..n][i], values, contents[..n][i]) {
        assert EnteredAt(fields[i], values, contents[i]);
      }
      PrintsForm(fields[..n], values, contents[..n]);
      assert EnteredAt(fields[n], values, contents[n]);
      var form := FormOf(fields[..n], contents[..n]);
      if contents[n].Some? {
        var c := contents[n].value;
        TextKept(CaptionOf(fields[n]), c);
        FitsCaption(CaptionOf(fields[n]), c);
        var e := Filled(CaptionOf(fields[n]), c);
        assert (form + [e])[..|form|] == form;
        EntryIs(e);
      }
    }
  }

  lemma {:induction false} FitsCaption(caption: string, c: Content)
    requires Fits(caption, c)
    ensures caption != ""
  {
  }

  lemma {:induction false} EntryIs(e: Filled)
    ensures EntryOf(e) == Entry(e.caption, TextOf(e.content))
  {
  }

  /** No two fields that print something under a label have one name. */
  predicate DistinctFields(fields: seq<FormField>, contents: seq<Option<Content>>)
    requires |contents| == |fields|
  {
    forall i, j | 0 <= i < j < |fields| && contents[i].Some? && contents[j].Some?
                  && LabelPart(CaptionOf(fields[i])) && LabelPart(CaptionOf(fields[j])) ::
      FieldName(CaptionOf(fields[i])) != FieldName(CaptionOf(fields[j]))
  }

  /** The form holds exactly the entries of the fields with something put in. */
  lemma {:induction false} FormHas(fields: seq<FormField>, contents: seq<Option<Content>>)
    requires |contents| == |fields|
    ensures forall i | 0 <= i < |fields| && contents[i].Some? ::
              Filled(CaptionOf(fields[i]), contents[i].value) in FormOf(fields, contents)
    ensures forall e | e in FormOf(fields, contents) ::
              exists i :: 0 <= i < |fields| && contents[i] == Some(e.content) && CaptionOf(fields[i]) == e.caption
  {
    hide CaptionOf;
    if fields != [] {
      var n := |fields| - 1;
      var front := FormOf(fields[..n], contents[..n]);
      FormHas(fields[..n], contents[..n]);
      forall i | 0 <= i < |fields| && contents[i].Some?
        ensures Filled(CaptionOf(fields[i]), contents[i].value) in FormOf(fields, contents)
      {
        if i < n { assert fields[..n][i] == fields[i] && contents[..n][i] == contents[i]; }
      }
      forall e | e in FormOf(fields, contents)
        ensures exists i :: 0 <= i < |fields| && contents[i] == Some(e.content) && CaptionOf(fields[i]) == e.caption
      {
        if e in front {
          var i :| 0 <= i < n && contents[..n][i] == Some(e.content) && CaptionOf(fields[..n][i]) == e.caption;
          assert contents[i] == Some(e.content) && CaptionOf(fields[i]) == e.caption;
        } else {
          assert contents[n] == Some(e.content) && CaptionOf(fields[n]) == e.caption;
        }
      }
    }
  }

  lemma {:induction false} FormDistinct(fields: seq<FormField>, contents: seq<Option<Content>>)
    requires |contents| == |fields| && DistinctFields(fields, contents)
    ensures DistinctNames(FormOf(fields, contents))
  {
    hide CaptionOf, FieldName, LabelPart;
    if fields != [] {
      var n := |fields| - 1;
      var front := FormOf(fields[..n], contents[..n]);
      FormDistinct(fields[..n], contents[..n]);
      FormHas(fields[..n], contents[..n]);
      if contents[n].Some? && LabelPart(CaptionOf(fields[n])) {
        forall k | 0 <= k < |front| && LabelPart(front[k].caption) ensures FieldName(front[k].caption) != FieldName(CaptionOf(fields[n])) {
          assert front[k] in front;
          var i :| 0 <= i < n && contents[..n][i] == Some(front[k].content) && CaptionOf(fields[..n][i]) == front[k].caption;
          assert contents[i].Some? && CaptionOf(fields[i]) == front[k].caption;
        }
      }
    }
  }

  /** The round trip, from the values put into the printer and the presets of its fields: in the printed body every bullet
      list reads back item by item, or as its first item where one value is read, and a one-line value exactly when it
      survives. No item can end its list or pass for another field. */
  lemma {:induction false} RoundTrip(fields: seq<FormField>, values: map<string, string>, contents: seq<Option<Content>>, i: nat)
    requires Entered(fields, values, contents) && DistinctFields(fields, contents)
    requires i < |fields| && contents[i].Some?
    requires LabelPart(CaptionOf(fields[i])) && FieldName(CaptionOf(fields[i])) in DIRECTIVE_FIELDS
    ensures var lines, field := SplitLines(Body(Entries(fields, values))), FieldName(CaptionOf(fields[i]));
            match contents[i].value
            case Bullets(items) => ListField(lines, field) == items && items != [] && ScalarField(lines, field) == items[0]
            case Scalar(text) => ScalarField(lines, field) == text <==> text != "" && Survives(text)
  {
    hide CaptionOf, FieldName, LabelPart, EnteredAt, SplitLines, ListField, ScalarField, Survives, Body, Entries, FormOf, EntriesOf;
    var form := FormOf(fields, contents);
    PrintsForm(fields, values, contents);
    FormHas(fields, contents);
    FormDistinct(fields, contents);
    var j :| 0 <= j < |form| && form[j] == Filled(CaptionOf(fields[i]), contents[i].value);
    FilledReads(form, j);
  }

  /** A contract field that no printed field names reads as empty. */
  lemma {:induction false} AbsentReadsEmpty(fields: seq<FormField>, values: map<string, string>, contents: seq<Option<Content>>, field: string)
    requires Entered(fields, values, contents) && field in DIRECTIVE_FIELDS
    requires forall i | 0 <= i < |fields| && contents[i].Some? :: !Names(CaptionOf(fields[i]), field)
    ensures var lines := SplitLines(Body(Entries(fields, values))); ScalarField(lines, field) == "" && ListField(lines, field) == []
  {
    hide CaptionOf, Names, EnteredAt, SplitLines, ListField, ScalarField, Body, Entries, FormOf, EntriesOf, AllLines, ReadScalar, ReadList;
    var form := FormOf(fields, contents);
    PrintsForm(fields, values, contents);
    FormHas(fields, contents);
    forall e | e in form ensures !Names(e.caption, field) {
      var i :| 0 <= i < |fields| && contents[i] == Some(e.content) && CaptionOf(fields[i]) == e.caption;
    }
    HoldsNothing(form, field);
    PrintedFormReads(form, field);
  }

  lemma {:induction false} HoldsNothing(form: seq<Filled>, field: string)
    requires forall e | e in form :: !Names(e.caption, field)
    ensures FirstNaming(form, field) == |form|
  {
    hide Names;
    if form != [] {
      assert form[0] in form;
      HoldsNothing(form[1..], field);
    }
  }

  /** The caption of a field is its label or, where it has no label attribute, its id, stripped. */
  lemma {:induction false} CaptionIs(f: FormField)
    ensures f.caption.Some? ==> CaptionOf(f) == Trim(f.caption.value)
    ensures f.caption.None? ==> CaptionOf(f) == Trim(f.id)
  {
    hide Trim;
  }
}
