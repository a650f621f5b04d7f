/** The template manager: the "save as template" dialog and its guards,
    the summary of field types on each template card, and the file name
    a template is exported under. */
module Templates {
  import opened Basics
  import opened FormModel
  import opened JsText
  import opened FormDocument
  import opened Store

  // ------------------------------------------------------- save dialog

  /** How a press of the dialog's save button ends. */
  datatype SaveOutcome = NameMissing | EmptyForm | Saved

  /** The save button of the panel is disabled without a form with fields. */
  predicate SaveDisabled(form: Option<Form>) {
    form.None? || |form.value.fields| == 0
  }

  predicate Blank(s: string) {
    forall i :: 0 <= i < |s| ==> IsJsSpace(s[i])
  }

  /** The guard order of `handleSaveTemplate`: the name first, then the
      form. */
  function SaveVerdict(name: string, form: Option<Form>): (o: SaveOutcome)
    ensures o == Saved <==> !Blank(name) && !SaveDisabled(form)
    ensures o == EmptyForm ==> !Blank(name)
    ensures o == NameMissing <==> Blank(name)
    ensures o == EmptyForm <==> !Blank(name) && SaveDisabled(form)
  {
    if Trim(name) == [] then NameMissing
    else if SaveDisabled(form) then EmptyForm
    else Saved
  }

  /** The dialog's own state. */
  class SaveDialog {
    var open: bool
    var name: string
    var description: string

    constructor ()
      ensures !open && name == "" && description == ""
    {
      open := false;
      name := "";
      description := "";
    }

    /** The dialog's trigger button, which is disabled without a form
        with fields: it opens the dialog and leaves the boxes as they
        were. */
    method Open(form: Option<Form>)
      modifies this`open
      ensures open == (old(open) || !SaveDisabled(form))
    {
      if !SaveDisabled(form) {
        open := true;
      }
    }

    /** The Cancel button, or dismissing the dialog: it closes and keeps
        what was typed. */
    method Cancel()
      modifies this`open
      ensures !open
    {
      open := false;
    }

    method Edit(n: string, d: string)
      modifies this`name, this`description
      ensures name == n && description == d
    {
      name := n;
      description := d;
    }

    /** Closes the dialog and empties both inputs. */
    method Close()
      modifies this`open, this`name, this`description
      ensures !open && name == [] && description == []
    {
      open := false;
      name := "";
      description := "";
    }

    /** `handleSaveTemplate`: on success the trimmed name and description
        become a new template of the current form, the dialog closes and
        both inputs are cleared; otherwise nothing changes. */
    method HandleSave(store: FormStore, id: string) returns (o: SaveOutcome)
      requires forall i :: 0 <= i < |store.templates| ==> store.templates[i].id != id
      modifies this`open, this`name, this`description, store`templates
      ensures o == SaveVerdict(old(name), old(store.currentForm))
      ensures o != Saved ==>
        store.templates == old(store.templates) && open == old(open) &&
        name == old(name) && description == old(description)
      ensures o == Saved ==>
        store.templates == old(store.templates) +
          [Template(id, Trim(old(name)), Trim(old(description)), Shape(old(store.currentForm).value))]
      ensures o == Saved ==> !open && name == [] && description == []
    {
      o := SaveVerdict(name, store.currentForm);
      if o == Saved {
        store.SaveAsTemplate(Trim(name), Trim(description), id);
        Close();
      }
    }
  }

  /** A saved template always has a name with something in it. */
  lemma SavedNameIsNotBlank(name: string, form: Option<Form>)
    requires SaveVerdict(name, form) == Saved
    ensures Trim(name) != [] && !IsJsSpace(Trim(name)[0])
  {
  }

  // ------------------------------------------------- field type summary

  /** `[...new Set(kinds)]`: each kind once, in order of first appearance. */
  function Distinct(s: seq<FieldType>): (r: seq<FieldType>)
    ensures forall i, j :: 0 <= i < j < |r| ==> r[i] != r[j]
    ensures forall i :: 0 <= i < |r| ==> r[i] in s
    ensures forall i :: 0 <= i < |s| ==> s[i] in r
    ensures |r| <= |s|
    decreases |s|
  {
    if s == [] then []
    else
      var init := Distinct(s[..|s| - 1]);
      assert forall i :: 0 <= i < |s| - 1 ==> s[..|s| - 1][i] == s[i];
      if s[|s| - 1] in init then init else init + [s[|s| - 1]]
  }

  /** Appending more kinds only extends the distinct list: the kinds seen
      first keep their places. */
  lemma {:induction false} DistinctExtends(s: seq<FieldType>, t: seq<FieldType>)
    ensures Distinct(s) <= Distinct(s + t)
    decreases |t|
  {
    if t == [] {
      assert s + t == s;
    } else {
      var u := s + t[..|t| - 1];
      DistinctExtends(s, t[..|t| - 1]);
      assert (s + t)[..|s + t| - 1] == u;
    }
  }

  function Kinds(fields: seq<Field>): (r: seq<FieldType>)
    ensures |r| == |fields| && forall i :: 0 <= i < |fields| ==> r[i] == fields[i].kind
  {
    if fields == [] then [] else [fields[0].kind] + Kinds(fields[1..])
  }

  /** The chips on a template card: up to three kinds, and `+k` for the
      rest. */
  datatype Summary = Summary(shown: seq<FieldType>, more: Option<nat>)

  function TypeSummary(fields: seq<Field>): (r: Summary)
    ensures |r.shown| <= 3
    ensures r.more.Some? <==> |Distinct(Kinds(fields))| > 3
    ensures |r.shown| + r.more.GetOr(0) == |Distinct(Kinds(fields))|
    ensures r.shown <= Distinct(Kinds(fields))
    ensures forall i :: 0 <= i < |fields| && fields[i].kind !in r.shown ==> r.more.Some?
    ensures var ks := Distinct(Kinds(fields));
      r.shown == ks[..if |ks| > 3 then 3 else |ks|] && (r.more.Some? ==> r.more.value == |ks| - 3)
  {
    var ks := Distinct(Kinds(fields));
    if |ks| > 3 then Summary(ks[..3], Some(|ks| - 3)) else Summary(ks, None)
  }

  // ---------------------------------------------------- export file name

  /** The rest of `s` after its leading run of characters matching `p`. */
  function SkipRun(s: string, p: char -> bool): (r: string)
    ensures |r| <= |s| && r == s[|s| - |r|..]
    ensures r != [] ==> !p(r[0])
    ensures s != [] && p(s[0]) ==> |r| < |s|
  {
    if s != [] && p(s[0]) then SkipRun(s[1..], p) else s
  }

  /** `s.replace(/X+/g, '_')` for the character class `p`: each maximal run
      of matching characters becomes one underscore. */
  function CollapseRuns(s: string, p: char -> bool): (r: string)
    ensures |r| <= |s|
    decreases |s|
  {
    if s == [] then []
    else if p(s[0]) then "_" + CollapseRuns(SkipRun(s, p), p)
    else [s[0]] + CollapseRuns(s[1..], p)
  }

  /** When `_` is not itself a run character, none is left after
      collapsing. */
  lemma {:induction false} CollapseRunsLeavesNone(s: string, p: char -> bool)
    requires !p('_')
    ensures forall i :: 0 <= i < |CollapseRuns(s, p)| ==> !p(CollapseRuns(s, p)[i])
    decreases |s|
  {
    if s != [] {
      var tail := if p(s[0]) then SkipRun(s, p) else s[1..];
      var head := if p(s[0]) then '_' else s[0];
      var rest := CollapseRuns(tail, p);
      var r := CollapseRuns(s, p);
      assert r == [head] + rest;
      CollapseRunsLeavesNone(tail, p);
      forall i | 0 <= i < |r|
        ensures !p(r[i])
      {
        if i > 0 {
          assert r[i] == rest[i - 1];
        }
      }
    }
  }

  /** A prefix with no matching character is copied as it is. */
  lemma {:induction false} CollapseRunsKeepsPlainPrefix(a: string, b: string, p: char -> bool)
    requires forall i :: 0 <= i < |a| ==> !p(a[i])
    ensures CollapseRuns(a + b, p) == a + CollapseRuns(b, p)
    decreases |a|
  {
    if a == [] {
      assert a + b == b;
    } else {
      assert (a + b)[0] == a[0] && (a + b)[1..] == a[1..] + b;
      CollapseRunsKeepsPlainPrefix(a[1..], b, p);
    }
  }

  /** The rest of a string after a whole run is what follows the run. */
  lemma {:induction false} SkipWholeRun(run: string, b: string, p: char -> bool)
    requires forall i :: 0 <= i < |run| ==> p(run[i])
    requires b == [] || !p(b[0])
    ensures SkipRun(run + b, p) == b
    decreases |run|
  {
    if run == [] {
      assert run + b == b;
    } else {
      assert (run + b)[0] == run[0] && (run + b)[1..] == run[1..] + b;
      SkipWholeRun(run[1..], b, p);
    }
  }

  /** A whole run of matching characters, however long, becomes one
      underscore, and collapsing goes on after it. */
  lemma RunCollapses(run: string, b: string, p: char -> bool)
    requires run != [] && forall i :: 0 <= i < |run| ==> p(run[i])
    requires b == [] || !p(b[0])
    ensures CollapseRuns(run + b, p) == "_" + CollapseRuns(b, p)
  {
    SkipWholeRun(run, b, p);
    assert (run + b)[0] == run[0];
  }

  /** A string with no matching character is left alone. */
  lemma CollapseRunsIdentity(s: string, p: char -> bool)
    requires forall i :: 0 <= i < |s| ==> !p(s[i])
    ensures CollapseRuns(s, p) == s
  {
    CollapseRunsKeepsPlainPrefix(s, [], p);
    assert s + [] == s;
  }

  predicate IsLetterS(c: char) {
    c == 's'
  }

  /** The download name of `exportTemplate` as written: `/s+/` matches runs
      of the letter `s`, not white space. */
  function ExportFileName(name: string): (r: string)
    ensures |r| >= 14 && r[|r| - 14..] == "_template.json"
    ensures r[..|r| - 14] == CollapseRuns(name, IsLetterS)
    ensures forall i :: 0 <= i < |r| - 14 ==> r[i] != 's'
  {
    CollapseRunsLeavesNone(name, IsLetterS);
    CollapseRuns(name, IsLetterS) + "_template.json"
  }

  /** The download name with runs of white space collapsed, as `\s+`
      would. */
  function IntendedExportFileName(name: string): (r: string)
    ensures |r| <= |name| + 14
    ensures forall i :: 0 <= i < |r| ==> !IsJsSpace(r[i])
    ensures r == CollapseRuns(name, IsJsSpace) + "_template.json"
  {
    var c := CollapseRuns(name, IsJsSpace);
    var q := "_template.json";
    CollapseRunsLeavesNone(name, IsJsSpace);
    SuffixHasNoSpace(q);
    assert forall i :: 0 <= i < |c + q| ==> (c + q)[i] == if i < |c| then c[i] else q[i - |c|];
    c + q
  }

  /** None of the ASCII characters of the suffix is white space. */
  lemma SuffixHasNoSpace(q: string)
    requires q == "_template.json"
    ensures forall i :: 0 <= i < |q| ==> !IsJsSpace(q[i])
  {
    forall i | 0 <= i < |q| ensures !IsJsSpace(q[i]) {
      assert q[i] == '_' || q[i] == '.' || 'a' <= q[i] <= 'z';
    }
  }

  /** A name without white space is kept as it is by the intended rule. */
  lemma IntendedKeepsPlainNames(name: string)
    requires forall i :: 0 <= i < |name| ==> !IsJsSpace(name[i])
    ensures IntendedExportFileName(name) == name + "_template.json"
  {
    CollapseRunsIdentity(name, IsJsSpace);
  }

  /** "Contact Us" is exported with its space kept and its final `s`
      turned into an underscore, where `Contact_Us` was meant. */
  lemma ExportNameExample()
    ensures ExportFileName("Contact Us") == "Contact U_" + "_template.json"
    ensures IntendedExportFileName("Contact Us") == "Contact_Us" + "_template.json"
  {
    ExportNameAsWritten();
    ExportNameIntended();
  }

  lemma ExportNameAsWritten()
    ensures CollapseRuns("Contact Us", IsLetterS) == "Contact U_"
  {
    var a := "Contact U";
    assert a + "s" == "Contact Us";
    assert a + "_" == "Contact U_";
    assert forall i :: 0 <= i < |a| ==> !IsLetterS(a[i]);
    TrailingRunOfS(a);
  }

  /** Under the rule as written, a final `s` after a word without one is
      turned into an underscore. */
  lemma TrailingRunOfS(a: string)
    requires forall i :: 0 <= i < |a| ==> !IsLetterS(a[i])
    ensures CollapseRuns(a + "s", IsLetterS) == a + "_"
  {
    var t: string := "s";
    assert t[1..] == [];
    assert SkipRun(t, IsLetterS) == [];
    assert CollapseRuns(t, IsLetterS) == "_";
    CollapseRunsKeepsPlainPrefix(a, t, IsLetterS);
  }

  lemma ExportNameIntended()
    ensures CollapseRuns("Contact Us", IsJsSpace) == "Contact_Us"
  {
    var a, b := "Contact", "Us";
    assert a + (" " + b) == "Contact Us";
    assert a + ("_" + b) == "Contact_Us";
    assert forall i :: 0 <= i < |a| ==> !IsJsSpace(a[i]);
    assert forall i :: 0 <= i < |b| ==> !IsJsSpace(b[i]);
    SpacedWordsJoin(a, b);
  }

  /** Two plain words with one space between them are joined by a single
      underscore under the intended rule. */
  lemma SpacedWordsJoin(a: string, b: string)
    requires b != []
    requires forall i :: 0 <= i < |a| ==> !IsJsSpace(a[i])
    requires forall i :: 0 <= i < |b| ==> !IsJsSpace(b[i])
    ensures CollapseRuns(a + (" " + b), IsJsSpace) == a + ("_" + b)
  {
    CollapseRunsKeepsPlainPrefix(a, " " + b, IsJsSpace);
    LeadingSpaceBecomesUnderscore(b);
  }

  /** A run between two plain words, however long, becomes a single
      underscore. */
  lemma RunBetweenWordsCollapses(a: string, run: string, b: string, p: char -> bool)
    requires run != [] && forall i :: 0 <= i < |run| ==> p(run[i])
    requires forall i :: 0 <= i < |a| ==> !p(a[i])
    requires forall i :: 0 <= i < |b| ==> !p(b[i])
    ensures CollapseRuns(a + run + b, p) == a + "_" + b
  {
    var c := run + b;
    assert b == [] || !p(b[0]);
    RunCollapses(run, b, p);
    CollapseRunsIdentity(b, p);
    assert CollapseRuns(c, p) == "_" + b;
    CollapseRunsKeepsPlainPrefix(a, c, p);
    ConcatAssociates(a, run, b);
    ConcatAssociates(a, "_", b);
  }

  lemma ConcatAssociates(x: string, y: string, z: string)
    ensures x + (y + z) == x + y + z
  {
  }

  /** Under the rule as written, a double `s` inside a word is one run:
      "Address" is exported as "Addre_". */
  lemma DoubleSIsOneRun()
    ensures ExportFileName("Address") == "Addre_" + "_template.json"
  {
    var a, run, b: string := "Addre", "ss", [];
    assert a + run + b == "Address" && a + "_" + b == "Addre_";
    assert forall i :: 0 <= i < |a| ==> !IsLetterS(a[i]);
    RunBetweenWordsCollapses(a, run, b, IsLetterS);
  }

  /** Under the intended rule, "Contact   Us" with three spaces is
      exported as "Contact_Us". */
  lemma SpacesCollapseToOne()
    ensures IntendedExportFileName("Contact   Us") == "Contact_Us" + "_template.json"
  {
    var a, gap, b: string := "Contact", "   ", "Us";
    assert a + gap + b == "Contact   Us" && a + "_" + b == "Contact_Us";
    assert forall i :: 0 <= i < |a| ==> !IsJsSpace(a[i]);
    assert forall i :: 0 <= i < |b| ==> !IsJsSpace(b[i]);
    RunBetweenWordsCollapses(a, gap, b, IsJsSpace);
  }

  lemma LeadingSpaceBecomesUnderscore(b: string)
    requires b != []
    requires forall i :: 0 <= i < |b| ==> !IsJsSpace(b[i])
    ensures CollapseRuns(" " + b, IsJsSpace) == "_" + b
  {
    var d := " " + b;
    assert d[1..] == b;
    assert SkipRun(d, IsJsSpace) == b;
    CollapseRunsIdentity(b, IsJsSpace);
  }
}
