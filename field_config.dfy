/** The field configuration panel: finds the selected field and turns
    each edit of its properties, options, validation rules and step
    into one `updateField` call on the store. */
module FieldConfig {
  import opened Basics
  import opened FormModel
  import opened JsText
  import opened ListOps
  import opened FormDocument
  import opened Store
  import opened Validator
  import opened StepWalker

  /** `fields.find(f => f.id === id)`; a null selection matches nothing. */
  function FindField(fields: seq<Field>, id: Option<string>): (r: Option<Field>)
    ensures r.Some? ==> id == Some(r.value.id)
    ensures r.Some? ==>
      exists i :: 0 <= i < |fields| && fields[i] == r.value && forall j :: 0 <= j < i ==> fields[j].id != r.value.id
    ensures r.None? ==> id.None? || !HasFieldId(fields, id.value)
  {
    if fields == [] || id.None? then None
    else if fields[0].id == id.value then Some(fields[0])
    else
      var r := FindField(fields[1..], id);
      assert r.Some? ==> fields[1..][0] == fields[1];
      r
  }

  /** The field the panel shows, if any. */
  function SelectedField(form: Option<Form>, sel: Option<string>): Option<Field> {
    if form.None? then None else FindField(form.value.fields, sel)
  }

  predicate SupportsOptions(k: FieldType) {
    k == Select || k == Radio || k == Checkbox
  }

  predicate SupportsPattern(k: FieldType) {
    k == Text || k == Email || k == Phone
  }

  predicate SupportsLength(k: FieldType) {
    k == Text || k == Textarea || k == Email || k == Phone
  }

  predicate SupportsMinMax(k: FieldType) {
    k == Number
  }

  /** The panel's sections by field type: option lists and rules never
      share a type, a pattern always comes with length bounds, and min/max
      belong to numbers alone. Dates and media get none of them. */
  lemma ConfigSectionsByKind(k: FieldType)
    ensures SupportsOptions(k) ==> !SupportsLength(k) && !SupportsPattern(k) && !SupportsMinMax(k)
    ensures SupportsPattern(k) ==> SupportsLength(k)
    ensures SupportsMinMax(k) <==> k == Number
    ensures SupportsLength(k) ==> !SupportsMinMax(k)
    ensures k in {Date, Image, File} <==>
      !SupportsOptions(k) && !SupportsLength(k) && !SupportsPattern(k) && !SupportsMinMax(k)
  {
  }

  /** `addOption`: the typed text, trimmed, appended to the options; no
      edit (`None`) when the trimmed text is empty or the field has no
      option list. */
  function AddedOption(options: Option<seq<string>>, typed: string): (r: Option<seq<string>>)
    ensures r.Some? <==> options.Some? && !(forall i :: 0 <= i < |typed| ==> IsJsSpace(typed[i]))
    ensures r.Some? ==> r.value == options.value + [Trim(typed)]
    ensures r.Some? ==>
      var t := r.value[|options.value|];
      t != [] && !IsJsSpace(t[0]) && !IsJsSpace(t[|t| - 1]) && Contains(typed, t)
  {
    var t := Trim(typed);
    if t != [] && options.Some? then
      var r := options.value + [t];
      assert r[..|options.value|] == options.value;
      Some(r)
    else None
  }

  /** One edit of the validation rules: an empty number box gives `None`. */
  datatype RuleEdit =
    | SetMinLength(n: Option<int>)
    | SetMaxLength(n: Option<int>)
    | SetMin(n: Option<int>)
    | SetMax(n: Option<int>)
    | SetPattern(text: string)

  /** `{ ...validation, key: value }`: the edited key takes its new value
      and every other key keeps the old one (or is absent when there were
      no rules). */
  function EditRules(v: Option<Rules>, e: RuleEdit): (r: Rules)
    ensures r.minLength == if e.SetMinLength? then e.n else v.GetOr(NoRules).minLength
    ensures r.maxLength == if e.SetMaxLength? then e.n else v.GetOr(NoRules).maxLength
    ensures r.min == if e.SetMin? then e.n else v.GetOr(NoRules).min
    ensures r.max == if e.SetMax? then e.n else v.GetOr(NoRules).max
    ensures r.pattern == if e.SetPattern? then Some(e.text) else v.GetOr(NoRules).pattern
  {
    var base := v.GetOr(NoRules);
    match e
    case SetMinLength(n) => base.(minLength := n)
    case SetMaxLength(n) => base.(maxLength := n)
    case SetMin(n) => base.(min := n)
    case SetMax(n) => base.(max := n)
    case SetPattern(t) => base.(pattern := Some(t))
  }

  /** Edits of two different rule boxes commute, and repeating an edit
      changes nothing. */
  lemma EditRulesCommuteAndRepeat(v: Option<Rules>, e1: RuleEdit, e2: RuleEdit)
    ensures EditRules(Some(EditRules(v, e1)), e1) == EditRules(v, e1)
    ensures !(e1.SetMinLength? && e2.SetMinLength?) && !(e1.SetMaxLength? && e2.SetMaxLength?) &&
            !(e1.SetMin? && e2.SetMin?) && !(e1.SetMax? && e2.SetMax?) &&
            !(e1.SetPattern? && e2.SetPattern?) ==>
      EditRules(Some(EditRules(v, e1)), e2) == EditRules(Some(EditRules(v, e2)), e1)
  {
  }

  /** Emptying the pattern box switches the pattern check off: the
      validator skips an empty pattern. */
  lemma ClearedPatternIsIgnored(v: Option<Rules>, s: string, test: PatternTest)
    ensures StringIssue(EditRules(v, SetPattern("")), s, test) != Some(BadPattern)
  {
  }

  /** Emptying a min or max box switches that bound off. */
  lemma ClearedBoundIsIgnored(v: Option<Rules>, n: int)
    ensures NumberIssue(EditRules(v, SetMin(None)), n).Some? ==> NumberIssue(EditRules(v, SetMin(None)), n).value.AboveMax?
    ensures NumberIssue(EditRules(v, SetMax(None)), n).Some? ==> NumberIssue(EditRules(v, SetMax(None)), n).value.BelowMin?
  {
  }

  /** The step the "Assign to Step" select shows: `step || 0`. */
  function StepChoice(x: Field): int {
    x.step.GetOr(0)
  }

  /** A field of a multi-step form that has no step shows "Step 1" in the
      select, yet the first step does not show it. */
  lemma UnplacedFieldShowsFirstStep(form: Form, x: Field)
    requires form.isMultiStep && x.step.None?
    ensures StepChoice(x) == 0
    ensures x !in FieldsForStep(form, 0)
  {
    UnplacedFieldIsHidden(form, x, 0);
  }

  /** The panel's own state: the text typed in the "New option" box. */
  class ConfigPanel {
    var newOption: string

    constructor ()
      ensures newOption == ""
    {
      newOption := "";
    }

    method TypeOption(text: string)
      modifies this`newOption
      ensures newOption == text
    {
      newOption := text;
    }

    /** `handleUpdateField`: the patch goes to the selected field, if any. */
    method Edit(store: FormStore, p: FieldPatch, now: int)
      modifies store`currentForm, store`savedForms
      ensures var sel := SelectedField(old(store.currentForm), store.selectedFieldId);
        (sel.None? ==> store.currentForm == old(store.currentForm) && store.savedForms == old(store.savedForms)) &&
        (sel.Some? ==>
          store.currentForm == Some(old(store.currentForm).value.(
            fields := UpdateFields(old(store.currentForm).value.fields, sel.value.id, p), updatedAt := now)) &&
          store.savedForms == Upsert(old(store.savedForms), store.currentForm.value))
    {
      var sel := SelectedField(store.currentForm, store.selectedFieldId);
      if sel.Some? {
        store.UpdateField(sel.value.id, p, now);
      }
    }

    /** `addOption`: appends the trimmed text and empties the box. */
    method AddOption(store: FormStore, now: int)
      modifies this`newOption, store`currentForm, store`savedForms
      ensures var sel := SelectedField(old(store.currentForm), store.selectedFieldId);
        var added := if sel.Some? then AddedOption(sel.value.options, old(newOption)) else None;
        (added.None? ==>
           newOption == old(newOption) &&
           store.currentForm == old(store.currentForm) && store.savedForms == old(store.savedForms)) &&
        (added.Some? ==>
           newOption == "" &&
           store.currentForm == Some(old(store.currentForm).value.(
             fields := UpdateFields(old(store.currentForm).value.fields, sel.value.id,
                                    EmptyFieldPatch.(options := Put(added))),
             updatedAt := now)) &&
           store.savedForms == Upsert(old(store.savedForms), store.currentForm.value))
    {
      var sel := SelectedField(store.currentForm, store.selectedFieldId);
      if sel.Some? {
        var added := AddedOption(sel.value.options, newOption);
        if added.Some? {
          Edit(store, EmptyFieldPatch.(options := Put(added)), now);
          newOption := "";
        }
      }
    }

    /** `removeOption`: drops the option at index `i`. */
    method RemoveOption(store: FormStore, i: int, now: int)
      modifies store`currentForm, store`savedForms
      ensures var sel := SelectedField(old(store.currentForm), store.selectedFieldId);
        (sel.Some? && sel.value.options.Some? ==>
           store.currentForm == Some(old(store.currentForm).value.(
             fields := UpdateFields(old(store.currentForm).value.fields, sel.value.id,
                                    EmptyFieldPatch.(options := Put(Some(RemoveAt(sel.value.options.value, i))))),
             updatedAt := now)) &&
           store.savedForms == Upsert(old(store.savedForms), store.currentForm.value)) &&
        (!(sel.Some? && sel.value.options.Some?) ==>
           store.currentForm == old(store.currentForm) && store.savedForms == old(store.savedForms))
    {
      var sel := SelectedField(store.currentForm, store.selectedFieldId);
      if sel.Some? && sel.value.options.Some? {
        Edit(store, EmptyFieldPatch.(options := Put(Some(RemoveAt(sel.value.options.value, i)))), now);
      }
    }

    /** `updateOption`: replaces the text of the option at index `i`, one
        of the indices the panel lists. */
    method UpdateOption(store: FormStore, i: nat, text: string, now: int)
      requires var sel := SelectedField(store.currentForm, store.selectedFieldId);
        sel.Some? && sel.value.options.Some? ==> i < |sel.value.options.value|
      modifies store`currentForm, store`savedForms
      ensures var sel := SelectedField(old(store.currentForm), store.selectedFieldId);
        (sel.Some? && sel.value.options.Some? ==>
           store.currentForm == Some(old(store.currentForm).value.(
             fields := UpdateFields(old(store.currentForm).value.fields, sel.value.id,
                                    EmptyFieldPatch.(options := Put(Some(sel.value.options.value[i := text])))),
             updatedAt := now)) &&
           store.savedForms == Upsert(old(store.savedForms), store.currentForm.value)) &&
        (!(sel.Some? && sel.value.options.Some?) ==>
           store.currentForm == old(store.currentForm) && store.savedForms == old(store.savedForms))
    {
      var sel := SelectedField(store.currentForm, store.selectedFieldId);
      if sel.Some? && sel.value.options.Some? {
        Edit(store, EmptyFieldPatch.(options := Put(Some(sel.value.options.value[i := text]))), now);
      }
    }

    /** A change in one of the validation boxes. */
    method EditRule(store: FormStore, e: RuleEdit, now: int)
      modifies store`currentForm, store`savedForms
      ensures var sel := SelectedField(old(store.currentForm), store.selectedFieldId);
        (sel.Some? ==>
           store.currentForm == Some(old(store.currentForm).value.(
             fields := UpdateFields(old(store.currentForm).value.fields, sel.value.id,
                                    EmptyFieldPatch.(validation := Put(Some(EditRules(sel.value.validation, e))))),
             updatedAt := now)) &&
           store.savedForms == Upsert(old(store.savedForms), store.currentForm.value)) &&
        (sel.None? ==> store.currentForm == old(store.currentForm) && store.savedForms == old(store.savedForms))
    {
      var sel := SelectedField(store.currentForm, store.selectedFieldId);
      if sel.Some? {
        Edit(store, EmptyFieldPatch.(validation := Put(Some(EditRules(sel.value.validation, e)))), now);
      }
    }
  }

  /** Removing the option at a listed index keeps the others in order. */
  lemma RemovedOptionKeepsOthers(options: seq<string>, i: nat, k: nat)
    requires i < |options| && k < |options| - 1
    ensures |RemoveAt(options, i)| == |options| - 1
    ensures RemoveAt(options, i)[k] == if k < i then options[k] else options[k + 1]
  {
    RemoveAtIndex(options, i, k);
  }
}
