/** The value-level transitions of the form document store: what each
    store action computes from the current form, field list, step list or
    saved-form list. The store class applies them to its state. */
module FormDocument {
  import opened Basics
  import opened FormModel
  import opened ListOps

  /** `createDefaultForm` with its generated id and clock reading. */
  function DefaultForm(id: string, now: int): (f: Form)
    ensures f.id == id && f.title == "Untitled Form" && f.description == Some("")
    ensures f.fields == [] && f.steps == Some([]) && !f.isMultiStep
    ensures f.settings == Settings("Submit", None, true)
    ensures f.createdAt == now && f.updatedAt == now
  {
    Form(id, "Untitled Form", Some(""), [], Some([]), false, Settings("Submit", None, true), now, now)
  }

  // ---------------------------------------------------------------- form

  /** `{ ...form, ...updates, updatedAt: now }`. */
  function MergeForm(f: Form, p: FormPatch, now: int): (g: Form)
    ensures p.id.Sets(f.id, g.id) && p.title.Sets(f.title, g.title)
    ensures p.description.Sets(f.description, g.description)
    ensures p.fields.Sets(f.fields, g.fields) && p.steps.Sets(f.steps, g.steps)
    ensures p.isMultiStep.Sets(f.isMultiStep, g.isMultiStep)
    ensures p.settings.Sets(f.settings, g.settings) && p.createdAt.Sets(f.createdAt, g.createdAt)
    ensures g.updatedAt == now
    ensures p == EmptyFormPatch ==> g == f.(updatedAt := now)
  {
    Form(p.id.Over(f.id), p.title.Over(f.title), p.description.Over(f.description),
         p.fields.Over(f.fields), p.steps.Over(f.steps), p.isMultiStep.Over(f.isMultiStep),
         p.settings.Over(f.settings), p.createdAt.Over(f.createdAt), now)
  }

  // -------------------------------------------------------------- fields

  /** The stored field built from an `addField` payload: the payload's keys,
      the fresh id, and a step forced to 0 on a multi-step form and to
      undefined otherwise. */
  function NewField(d: FieldDraft, id: string, multiStep: bool): (x: Field)
    ensures x.id == id
    ensures x.step == if multiStep then Some(0) else None
    ensures x.kind == d.kind && x.labelText == d.labelText && x.placeholder == d.placeholder
    ensures x.required == d.required && x.helpText == d.helpText && x.options == d.options
    ensures x.validation == d.validation && x.accept == d.accept && x.multiple == d.multiple
  {
    Field(id, d.kind, d.labelText, d.placeholder, d.required, d.helpText, d.options,
          d.validation, if multiStep then Some(0) else None, d.accept, d.multiple)
  }

  /** `addField`'s new form. */
  function AppendField(f: Form, d: FieldDraft, id: string, now: int): (g: Form)
    ensures g.fields == f.fields + [NewField(d, id, f.isMultiStep)]
    ensures g == f.(fields := g.fields, updatedAt := now)
  {
    f.(fields := f.fields + [NewField(d, id, f.isMultiStep)], updatedAt := now)
  }

  /** A fresh id keeps the field ids unique. */
  lemma AppendFieldKeepsIdsUnique(f: Form, d: FieldDraft, id: string, now: int)
    requires UniqueFieldIds(f.fields) && !HasFieldId(f.fields, id)
    ensures UniqueFieldIds(AppendField(f, d, id, now).fields)
  {
    var g := AppendField(f, d, id, now);
    forall i, j | 0 <= i < j < |g.fields|
      ensures g.fields[i].id != g.fields[j].id
    {
      if j == |f.fields| {
        assert g.fields[i] == f.fields[i];
      }
    }
  }

  /** A run of `addField` calls, one payload and one generated id per call. */
  function AppendFields(f: Form, ds: seq<FieldDraft>, ids: seq<string>, now: int): (g: Form)
    requires |ds| == |ids|
    decreases |ds|
  {
    if ds == [] then f
    else AppendFields(AppendField(f, ds[0], ids[0], now), ds[1..], ids[1..], now)
  }

  /** Each `addField` lengthens the list by exactly one, and distinct fresh
      ids leave every field id unique. */
  lemma {:induction false} AppendFieldsCountAndUnique(f: Form, ds: seq<FieldDraft>, ids: seq<string>, now: int)
    requires |ds| == |ids|
    requires UniqueFieldIds(f.fields)
    requires forall i, j :: 0 <= i < j < |ids| ==> ids[i] != ids[j]
    requires forall i :: 0 <= i < |ids| ==> !HasFieldId(f.fields, ids[i])
    ensures |AppendFields(f, ds, ids, now).fields| == |f.fields| + |ds|
    ensures UniqueFieldIds(AppendFields(f, ds, ids, now).fields)
    decreases |ds|
  {
    if ds != [] {
      var g := AppendField(f, ds[0], ids[0], now);
      AppendFieldKeepsIdsUnique(f, ds[0], ids[0], now);
      forall i | 1 <= i < |ids|
        ensures !HasFieldId(g.fields, ids[i])
      {
        forall k | 0 <= k < |g.fields|
          ensures g.fields[k].id != ids[i]
        {
          if k < |f.fields| {
            assert g.fields[k] == f.fields[k];
          }
        }
      }
      AppendFieldsCountAndUnique(g, ds[1..], ids[1..], now);
    }
  }

  /** `{ ...field, ...updates }`. */
  function MergeField(x: Field, p: FieldPatch): (y: Field)
    ensures p.id.Sets(x.id, y.id) && p.kind.Sets(x.kind, y.kind)
    ensures p.labelText.Sets(x.labelText, y.labelText) && p.placeholder.Sets(x.placeholder, y.placeholder)
    ensures p.required.Sets(x.required, y.required) && p.helpText.Sets(x.helpText, y.helpText)
    ensures p.options.Sets(x.options, y.options) && p.validation.Sets(x.validation, y.validation)
    ensures p.step.Sets(x.step, y.step) && p.accept.Sets(x.accept, y.accept)
    ensures p.multiple.Sets(x.multiple, y.multiple)
    ensures p == EmptyFieldPatch ==> y == x
  {
    Field(p.id.Over(x.id), p.kind.Over(x.kind), p.labelText.Over(x.labelText),
          p.placeholder.Over(x.placeholder), p.required.Over(x.required),
          p.helpText.Over(x.helpText), p.options.Over(x.options),
          p.validation.Over(x.validation), p.step.Over(x.step), p.accept.Over(x.accept),
          p.multiple.Over(x.multiple))
  }

  /** `fields.map(f => f.id === id ? { ...f, ...updates } : f)`. */
  function UpdateFields(fields: seq<Field>, id: string, p: FieldPatch): (r: seq<Field>)
    ensures |r| == |fields|
    ensures forall i :: 0 <= i < |fields| && fields[i].id == id ==> r[i] == MergeField(fields[i], p)
    ensures forall i :: 0 <= i < |fields| && fields[i].id != id ==> r[i] == fields[i]
  {
    if fields == [] then []
    else [if fields[0].id == id then MergeField(fields[0], p) else fields[0]]
         + UpdateFields(fields[1..], id, p)
  }

  /** An update addressed to an id no field has changes nothing. */
  lemma UpdateFieldsMissingId(fields: seq<Field>, id: string, p: FieldPatch)
    requires !HasFieldId(fields, id)
    ensures UpdateFields(fields, id, p) == fields
  {
  }

  /** An update that leaves `id` alone keeps the id list, so uniqueness. */
  lemma UpdateFieldsKeepsIds(fields: seq<Field>, id: string, p: FieldPatch)
    requires p.id == Keep
    ensures FieldIds(UpdateFields(fields, id, p)) == FieldIds(fields)
  {
  }

  /** `fields.filter(f => f.id !== id)`. */
  function WithoutField(fields: seq<Field>, id: string): (r: seq<Field>)
    ensures |r| <= |fields|
    ensures !HasFieldId(r, id)
    ensures forall i :: 0 <= i < |r| ==> r[i] in fields
    ensures forall i :: 0 <= i < |fields| && fields[i].id != id ==> fields[i] in r
  {
    if fields == [] then []
    else if fields[0].id == id then WithoutField(fields[1..], id)
    else [fields[0]] + WithoutField(fields[1..], id)
  }

  /** Filtering by id distributes over concatenation, so the kept fields
      stay in their original order. */
  lemma {:induction false} WithoutFieldAppend(a: seq<Field>, b: seq<Field>, id: string)
    ensures WithoutField(a + b, id) == WithoutField(a, id) + WithoutField(b, id)
  {
    if a == [] {
      assert a + b == b;
    } else {
      assert (a + b)[1..] == a[1..] + b;
      WithoutFieldAppend(a[1..], b, id);
    }
  }

  /** Removing an id no field carries leaves the list as it is. */
  lemma {:induction false} WithoutFieldMissingId(fields: seq<Field>, id: string)
    requires !HasFieldId(fields, id)
    ensures WithoutField(fields, id) == fields
  {
    if fields != [] {
      assert !HasFieldId(fields[1..], id) by {
        forall i | 0 <= i < |fields[1..]| ensures fields[1..][i].id != id {
          assert fields[1..][i] == fields[i + 1];
        }
      }
      WithoutFieldMissingId(fields[1..], id);
    }
  }

  /** A second `removeField` of the same id changes nothing. */
  lemma WithoutFieldIdempotent(fields: seq<Field>, id: string)
    ensures WithoutField(WithoutField(fields, id), id) == WithoutField(fields, id)
  {
    WithoutFieldMissingId(WithoutField(fields, id), id);
  }

  // --------------------------------------------------------------- steps

  /** `addStep`'s new form: the step appended to the (possibly absent) step
      list and the form forced into multi-step mode. */
  function AppendStep(f: Form, d: StepDraft, id: string, now: int): (g: Form)
    ensures g.steps == Some(f.steps.GetOr([]) + [Step(id, d.title, d.description, d.fieldIds)])
    ensures g.isMultiStep
    ensures g == f.(steps := g.steps, isMultiStep := true, updatedAt := now)
  {
    f.(steps := Some(f.steps.GetOr([]) + [Step(id, d.title, d.description, d.fieldIds)]),
       isMultiStep := true, updatedAt := now)
  }

  function MergeStep(s: Step, p: StepPatch): Step {
    Step(p.id.Over(s.id), p.title.Over(s.title), p.description.Over(s.description),
         p.fieldIds.Over(s.fieldIds))
  }

  /** `steps.map(s => s.id === id ? { ...s, ...updates } : s)`. */
  function UpdateSteps(steps: seq<Step>, id: string, p: StepPatch): (r: seq<Step>)
    ensures |r| == |steps|
    ensures forall i :: 0 <= i < |steps| && steps[i].id == id ==> r[i] == MergeStep(steps[i], p)
    ensures forall i :: 0 <= i < |steps| && steps[i].id != id ==> r[i] == steps[i]
  {
    if steps == [] then []
    else [if steps[0].id == id then MergeStep(steps[0], p) else steps[0]]
         + UpdateSteps(steps[1..], id, p)
  }

  /** `steps.filter(s => s.id !== id)`. */
  function WithoutStep(steps: seq<Step>, id: string): (r: seq<Step>)
    ensures |r| <= |steps|
    ensures !HasStepId(r, id)
    ensures forall i :: 0 <= i < |r| ==> r[i] in steps
    ensures forall i :: 0 <= i < |steps| && steps[i].id != id ==> steps[i] in r
  {
    if steps == [] then []
    else if steps[0].id == id then WithoutStep(steps[1..], id)
    else [steps[0]] + WithoutStep(steps[1..], id)
  }

  /** Filtering steps distributes over concatenation, so the kept steps
      stay in their order, each as often as before. */
  lemma {:induction false} WithoutStepAppend(a: seq<Step>, b: seq<Step>, id: string)
    ensures WithoutStep(a + b, id) == WithoutStep(a, id) + WithoutStep(b, id)
  {
    if a == [] {
      assert a + b == b;
    } else {
      assert (a + b)[1..] == a[1..] + b;
      WithoutStepAppend(a[1..], b, id);
    }
  }

  /** `removeStep`'s new form: the step dropped and multi-step mode kept
      only while more than one step remains. */
  function RemoveStepFrom(f: Form, id: string, now: int): (g: Form)
    requires f.steps.Some?
    ensures g.steps == Some(WithoutStep(f.steps.value, id))
    ensures g.isMultiStep <==> |g.steps.value| > 1
    ensures g == f.(steps := g.steps, isMultiStep := g.isMultiStep, updatedAt := now)
  {
    var rest := WithoutStep(f.steps.value, id);
    f.(steps := Some(rest), isMultiStep := |rest| > 1, updatedAt := now)
  }

  /** Two steps, one removed: the form falls back to single-step mode. */
  lemma RemoveOfTwoStepsLeavesSingleStep(f: Form, now: int)
    requires f.steps.Some? && |f.steps.value| == 2
    requires f.steps.value[0].id != f.steps.value[1].id
    ensures !RemoveStepFrom(f, f.steps.value[0].id, now).isMultiStep
  {
    var s := f.steps.value;
    assert s[1..] == [s[1]];
    assert WithoutStep(s, s[0].id) == [s[1]];
  }

  // ------------------------------------------------------------ templates

  /** What `saveAsTemplate` keeps of a form. */
  function Shape(f: Form): FormShape {
    FormShape(f.title, f.description, f.fields, f.steps, f.isMultiStep, f.settings)
  }

  /** `loadTemplate`'s new form: the template's content with a fresh id and
      fresh timestamps. */
  function Instantiate(s: FormShape, id: string, now: int): (f: Form)
    ensures Shape(f) == s
    ensures f.id == id && f.createdAt == now && f.updatedAt == now
  {
    Form(id, s.title, s.description, s.fields, s.steps, s.isMultiStep, s.settings, now, now)
  }

  /** Instantiating a form's own shape gives the form back when the id and
      the timestamps are its own. */
  lemma InstantiateShape(f: Form)
    requires f.createdAt == f.updatedAt
    ensures Instantiate(Shape(f), f.id, f.createdAt) == f
  {
  }

  /** Loading one template twice gives two forms with the same content and
      different identities. */
  lemma InstancesShareContent(s: FormShape, id1: string, id2: string, t1: int, t2: int)
    requires id1 != id2
    ensures Instantiate(s, id1, t1) != Instantiate(s, id2, t2)
    ensures Shape(Instantiate(s, id1, t1)) == Shape(Instantiate(s, id2, t2))
  {
  }

  /** `templates.find(t => t.id === id)`. */
  function FindTemplate(ts: seq<Template>, id: string): (r: Option<Template>)
    ensures r.Some? ==> r.value in ts && r.value.id == id
    ensures r.None? ==> forall i :: 0 <= i < |ts| ==> ts[i].id != id
  {
    if ts == [] then None
    else if ts[0].id == id then Some(ts[0])
    else FindTemplate(ts[1..], id)
  }

  /** `find` returns the first template carrying the id. */
  lemma {:induction false} FindTemplateFirst(ts: seq<Template>, id: string, i: nat)
    requires i < |ts| && ts[i].id == id
    requires forall j :: 0 <= j < i ==> ts[j].id != id
    ensures FindTemplate(ts, id) == Some(ts[i])
  {
    if i > 0 {
      FindTemplateFirst(ts[1..], id, i - 1);
    }
  }

  /** The number of ids generated at load time for the built-in templates
      (seven field ids and two step ids). */
  const TemplateSeedCount := 9

  function SeedField(id: string, kind: FieldType, labelText: string, placeholder: Option<string>,
                     required: bool, options: Option<seq<string>>, validation: Option<Rules>,
                     step: int): Field
  {
    Field(id, kind, labelText, placeholder, required, None, options, validation, Some(step), None, None)
  }

  /** The built-in `contact-us` and `survey` templates; their field and
      step ids are the ones generated when the store module loads. */
  function DefaultTemplates(seeds: seq<string>): (ts: seq<Template>)
    requires |seeds| == TemplateSeedCount
    ensures |ts| == 2 && ts[0].id == "contact-us" && ts[1].id == "survey"
    ensures |ts[0].form.fields| == 3 && !ts[0].form.isMultiStep
    ensures |ts[1].form.fields| == 4 && ts[1].form.isMultiStep
    ensures ts[1].form.steps.Some? && |ts[1].form.steps.value| == 2
  {
    [ Template("contact-us", "Contact Us", "Basic contact form template",
        FormShape("Contact Us", Some("Get in touch with us"),
          [ SeedField(seeds[0], Text, "Full Name", Some("Enter your full name"), true, None, None, 0),
            SeedField(seeds[1], Email, "Email Address", Some("Enter your email"), true, None, None, 0),
            SeedField(seeds[2], Textarea, "Message", Some("Enter your message"), true, None,
                      Some(Rules(Some(10), Some(500), None, None, None)), 0) ],
          Some([]), false, Settings("Send Message", None, true))),
      Template("survey", "Survey Form", "Multi-step survey template",
        FormShape("Customer Survey", Some("Help us improve our services"),
          [ SeedField(seeds[3], Text, "Name", Some("Your name"), true, None, None, 0),
            SeedField(seeds[4], Select, "How did you hear about us?", None, true,
                      Some(["Google", "Social Media", "Friend", "Advertisement", "Other"]), None, 0),
            SeedField(seeds[5], Radio, "Overall satisfaction", None, true,
                      Some(["Very Satisfied", "Satisfied", "Neutral", "Dissatisfied", "Very Dissatisfied"]), None, 1),
            SeedField(seeds[6], Textarea, "Additional Comments", Some("Any additional feedback?"), false,
                      None, None, 1) ],
          Some([ Step(seeds[7], "Basic Information", Some("Tell us about yourself"), []),
                 Step(seeds[8], "Feedback", Some("Share your experience"), []) ]),
          true, Settings("Submit Survey", None, true))) ]
  }

  // ---------------------------------------------------------- saved forms

  /** `forms.findIndex(f => f.id === id)`: the first index, or -1. */
  function IndexOfId(forms: seq<Form>, id: string): (i: int)
    ensures -1 <= i < |forms|
    ensures i >= 0 ==> forms[i].id == id && forall j :: 0 <= j < i ==> forms[j].id != id
    ensures i < 0 ==> forall j :: 0 <= j < |forms| ==> forms[j].id != id
  {
    if forms == [] then -1
    else if forms[0].id == id then 0
    else var k := IndexOfId(forms[1..], id); if k < 0 then -1 else k + 1
  }

  /** `forms.find(f => f.id === id) || null`. */
  function FindForm(forms: seq<Form>, id: string): (r: Option<Form>)
    ensures r.Some? ==> r.value.id == id
    ensures r.None? ==> forall j :: 0 <= j < |forms| ==> forms[j].id != id
  {
    if forms == [] then None
    else if forms[0].id == id then Some(forms[0])
    else FindForm(forms[1..], id)
  }

  /** `find` returns the element `findIndex` points at. */
  lemma {:induction false} FindFormAtIndex(forms: seq<Form>, id: string)
    ensures FindForm(forms, id) ==
      if IndexOfId(forms, id) >= 0 then Some(forms[IndexOfId(forms, id)]) else None
  {
    if forms != [] && forms[0].id != id {
      FindFormAtIndex(forms[1..], id);
    }
  }

  /** The save/autosave upsert: replace the first form with the same id,
      or append. */
  function Upsert(forms: seq<Form>, f: Form): (r: seq<Form>)
    ensures IndexOfId(forms, f.id) >= 0 ==>
      |r| == |forms| && r[IndexOfId(forms, f.id)] == f &&
      forall j :: 0 <= j < |forms| && j != IndexOfId(forms, f.id) ==> r[j] == forms[j]
    ensures IndexOfId(forms, f.id) < 0 ==> r == forms + [f]
  {
    var i := IndexOfId(forms, f.id);
    if i >= 0 then forms[i := f] else forms + [f]
  }

  /** After a save, looking the form up by its id returns exactly it. */
  lemma SaveThenLoad(forms: seq<Form>, f: Form)
    ensures FindForm(Upsert(forms, f), f.id) == Some(f)
  {
    var r := Upsert(forms, f);
    FindFormAtIndex(r, f.id);
    var i := IndexOfId(forms, f.id);
    if i >= 0 {
      assert r[i].id == f.id;
      assert IndexOfId(r, f.id) == i by {
        var k := IndexOfId(r, f.id);
        assert forall j :: 0 <= j < i ==> r[j] == forms[j];
      }
    } else {
      assert r[|forms|] == f;
      assert forall j :: 0 <= j < |forms| ==> r[j] == forms[j];
    }
  }

  /** A save leaves the lookup of every other id as it was. */
  lemma SaveKeepsOthers(forms: seq<Form>, f: Form, id: string)
    requires id != f.id
    ensures FindForm(Upsert(forms, f), id) == FindForm(forms, id)
  {
    var r := Upsert(forms, f);
    FindFormAtIndex(r, id);
    FindFormAtIndex(forms, id);
    assert forall j :: 0 <= j < |forms| ==> (r[j].id == id <==> forms[j].id == id);
    var k := IndexOfId(forms, id);
    var m := IndexOfId(r, id);
    if k >= 0 {
      assert r[k] == forms[k];
      assert m == k;
    } else if |r| > |forms| {
      assert r[|forms|].id == f.id;
    }
  }

  /** Saving the same form twice gives the same list as saving it once. */
  lemma UpsertIdempotent(forms: seq<Form>, f: Form)
    ensures Upsert(Upsert(forms, f), f) == Upsert(forms, f)
  {
    var r := Upsert(forms, f);
    var i := IndexOfId(forms, f.id);
    var m := IndexOfId(r, f.id);
    if i >= 0 {
      assert forall j :: 0 <= j < i ==> r[j] == forms[j];
      assert m == i;
    } else {
      assert forall j :: 0 <= j < |forms| ==> r[j] == forms[j];
      assert r[|forms|] == f;
      assert m == |forms|;
    }
  }
}
