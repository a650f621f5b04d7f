/** The form document store: one mutable object holding the form under
    edit, the selected field, the UI flags, the templates and the saved
    forms. Every field, step and metadata action is a no-op without a
    current form and otherwise ends with an autosave. Ids that the source
    draws at random and clock readings are parameters. */
module Store {
  import opened Basics
  import opened FormModel
  import opened ListOps
  import opened FormDocument

  /** `findIndex` over the saved forms, as a scan. */
  method FindIndex(forms: seq<Form>, id: string) returns (i: int)
    ensures -1 <= i < |forms|
    ensures i >= 0 ==> forms[i].id == id && forall j :: 0 <= j < i ==> forms[j].id != id
    ensures i < 0 ==> forall j :: 0 <= j < |forms| ==> forms[j].id != id
    ensures i == IndexOfId(forms, id)
  {
    i := 0;
    while i < |forms|
      invariant 0 <= i <= |forms|
      invariant forall j :: 0 <= j < i ==> forms[j].id != id
    {
      if forms[i].id == id {
        return;
      }
      i := i + 1;
    }
    i := -1;
  }

  class FormStore {
    var currentForm: Option<Form>
    var selectedFieldId: Option<string>
    var previewMode: PreviewMode
    var showPreview: bool
    var isDraggingOver: bool
    var templates: seq<Template>
    var savedForms: seq<Form>

    /** The store at start-up: no form, the built-in templates (saved
        templates are not reloaded) and the forms read back from storage. */
    constructor (persisted: seq<Form>, seeds: seq<string>)
      requires |seeds| == TemplateSeedCount
      ensures currentForm == None && selectedFieldId == None
      ensures previewMode == Desktop && !showPreview && !isDraggingOver
      ensures templates == DefaultTemplates(seeds) && savedForms == persisted
    {
      currentForm := None;
      selectedFieldId := None;
      previewMode := Desktop;
      showPreview := false;
      isDraggingOver := false;
      templates := DefaultTemplates(seeds);
      savedForms := persisted;
    }

    /** Upsert the current form into the saved forms by id. */
    method AutoSave()
      modifies this`savedForms
      ensures savedForms == if currentForm.Some? then Upsert(old(savedForms), currentForm.value) else old(savedForms)
    {
      if currentForm.Some? {
        var f := currentForm.value;
        var i := FindIndex(savedForms, f.id);
        if i >= 0 {
          savedForms := savedForms[i := f];
        } else {
          savedForms := savedForms + [f];
        }
      }
    }

    method CreateNewForm(id: string, now: int)
      modifies this`currentForm, this`selectedFieldId
      ensures currentForm == Some(DefaultForm(id, now)) && selectedFieldId == None
    {
      currentForm := Some(DefaultForm(id, now));
      selectedFieldId := None;
    }

    method LoadForm(f: Form)
      modifies this`currentForm, this`selectedFieldId
      ensures currentForm == Some(f) && selectedFieldId == None
    {
      currentForm := Some(f);
      selectedFieldId := None;
    }

    method UpdateForm(p: FormPatch, now: int)
      modifies this`currentForm, this`savedForms
      ensures old(currentForm).None? ==> currentForm == None && savedForms == old(savedForms)
      ensures old(currentForm).Some? ==>
        currentForm == Some(MergeForm(old(currentForm).value, p, now)) &&
        savedForms == Upsert(old(savedForms), currentForm.value)
    {
      if currentForm.Some? {
        currentForm := Some(MergeForm(currentForm.value, p, now));
        AutoSave();
      }
    }

    method AddField(d: FieldDraft, id: string, now: int)
      requires currentForm.Some? ==> !HasFieldId(currentForm.value.fields, id)
      modifies this`currentForm, this`selectedFieldId, this`savedForms
      ensures old(currentForm).None? ==>
        currentForm == None && selectedFieldId == old(selectedFieldId) && savedForms == old(savedForms)
      ensures old(currentForm).Some? ==>
        currentForm == Some(AppendField(old(currentForm).value, d, id, now)) &&
        selectedFieldId == Some(id) &&
        savedForms == Upsert(old(savedForms), currentForm.value)
    {
      if currentForm.Some? {
        currentForm := Some(AppendField(currentForm.value, d, id, now));
        selectedFieldId := Some(id);
        AutoSave();
      }
    }

    method UpdateField(id: string, p: FieldPatch, now: int)
      modifies this`currentForm, this`savedForms
      ensures old(currentForm).None? ==> currentForm == None && savedForms == old(savedForms)
      ensures old(currentForm).Some? ==>
        currentForm == Some(old(currentForm).value.(fields := UpdateFields(old(currentForm).value.fields, id, p), updatedAt := now)) &&
        savedForms == Upsert(old(savedForms), currentForm.value)
    {
      if currentForm.Some? {
        var f := currentForm.value;
        currentForm := Some(f.(fields := UpdateFields(f.fields, id, p), updatedAt := now));
        AutoSave();
      }
    }

    method RemoveField(id: string, now: int)
      modifies this`currentForm, this`selectedFieldId, this`savedForms
      ensures old(currentForm).None? ==>
        currentForm == None && selectedFieldId == old(selectedFieldId) && savedForms == old(savedForms)
      ensures old(currentForm).Some? ==>
        currentForm == Some(old(currentForm).value.(fields := WithoutField(old(currentForm).value.fields, id), updatedAt := now)) &&
        selectedFieldId == (if old(selectedFieldId) == Some(id) then None else old(selectedFieldId)) &&
        savedForms == Upsert(old(savedForms), currentForm.value)
    {
      if currentForm.Some? {
        var f := currentForm.value;
        currentForm := Some(f.(fields := WithoutField(f.fields, id), updatedAt := now));
        if selectedFieldId == Some(id) {
          selectedFieldId := None;
        }
        AutoSave();
      }
    }

    method ReorderFields(from: nat, to: nat, now: int)
      requires currentForm.Some? ==> from < |currentForm.value.fields| && to < |currentForm.value.fields|
      modifies this`currentForm, this`savedForms
      ensures old(currentForm).None? ==> currentForm == None && savedForms == old(savedForms)
      ensures old(currentForm).Some? ==>
        currentForm == Some(old(currentForm).value.(fields := Moved(old(currentForm).value.fields, from, to), updatedAt := now)) &&
        savedForms == Upsert(old(savedForms), currentForm.value)
    {
      if currentForm.Some? {
        var f := currentForm.value;
        var moved := SpliceMove(f.fields, from, to);
        currentForm := Some(f.(fields := moved, updatedAt := now));
        AutoSave();
      }
    }

    /** Selection is not checked against the form's fields. */
    method SelectField(id: Option<string>)
      modifies this`selectedFieldId
      ensures selectedFieldId == id
    {
      selectedFieldId := id;
    }

    method AddStep(d: StepDraft, id: string, now: int)
      requires currentForm.Some? ==> !HasStepId(currentForm.value.steps.GetOr([]), id)
      modifies this`currentForm, this`savedForms
      ensures old(currentForm).None? ==> currentForm == None && savedForms == old(savedForms)
      ensures old(currentForm).Some? ==>
        currentForm == Some(AppendStep(old(currentForm).value, d, id, now)) &&
        savedForms == Upsert(old(savedForms), currentForm.value)
    {
      if currentForm.Some? {
        currentForm := Some(AppendStep(currentForm.value, d, id, now));
        AutoSave();
      }
    }

    method UpdateStep(id: string, p: StepPatch, now: int)
      modifies this`currentForm, this`savedForms
      ensures old(currentForm).None? || old(currentForm).value.steps.None? ==>
        currentForm == old(currentForm) && savedForms == old(savedForms)
      ensures old(currentForm).Some? && old(currentForm).value.steps.Some? ==>
        currentForm == Some(old(currentForm).value.(steps := Some(UpdateSteps(old(currentForm).value.steps.value, id, p)), updatedAt := now)) &&
        savedForms == Upsert(old(savedForms), currentForm.value)
    {
      if currentForm.Some? && currentForm.value.steps.Some? {
        var f := currentForm.value;
        currentForm := Some(f.(steps := Some(UpdateSteps(f.steps.value, id, p)), updatedAt := now));
        AutoSave();
      }
    }

    method RemoveStep(id: string, now: int)
      modifies this`currentForm, this`savedForms
      ensures old(currentForm).None? || old(currentForm).value.steps.None? ==>
        currentForm == old(currentForm) && savedForms == old(savedForms)
      ensures old(currentForm).Some? && old(currentForm).value.steps.Some? ==>
        currentForm == Some(RemoveStepFrom(old(currentForm).value, id, now)) &&
        savedForms == Upsert(old(savedForms), currentForm.value)
    {
      if currentForm.Some? && currentForm.value.steps.Some? {
        currentForm := Some(RemoveStepFrom(currentForm.value, id, now));
        AutoSave();
      }
    }

    method SetPreviewMode(mode: PreviewMode)
      modifies this`previewMode
      ensures previewMode == mode
    {
      previewMode := mode;
    }

    method TogglePreview()
      modifies this`showPreview
      ensures showPreview == !old(showPreview)
    {
      showPreview := !showPreview;
    }

    method SetDraggingOver(over: bool)
      modifies this`isDraggingOver
      ensures isDraggingOver == over
    {
      isDraggingOver := over;
    }

    /** An unknown template id changes nothing; a known one replaces the
        current form by a fresh instance and clears the selection. */
    method LoadTemplate(templateId: string, id: string, now: int)
      modifies this`currentForm, this`selectedFieldId
      ensures FindTemplate(templates, templateId).None? ==>
        currentForm == old(currentForm) && selectedFieldId == old(selectedFieldId)
      ensures FindTemplate(templates, templateId).Some? ==>
        currentForm == Some(Instantiate(FindTemplate(templates, templateId).value.form, id, now)) &&
        selectedFieldId == None
    {
      var t := FindTemplate(templates, templateId);
      if t.Some? {
        currentForm := Some(Instantiate(t.value.form, id, now));
        selectedFieldId := None;
      }
    }

    method SaveAsTemplate(name: string, description: string, id: string)
      requires forall i :: 0 <= i < |templates| ==> templates[i].id != id
      modifies this`templates
      ensures old(currentForm).None? ==> templates == old(templates)
      ensures old(currentForm).Some? ==>
        templates == old(templates) + [Template(id, name, description, Shape(currentForm.value))]
    {
      if currentForm.Some? {
        templates := templates + [Template(id, name, description, Shape(currentForm.value))];
      }
    }

    /** Explicit save: the same upsert as autosave, returning the form's id
        or the empty string when there is nothing to save. */
    method SaveForm() returns (id: string)
      modifies this`savedForms
      ensures currentForm.None? ==> id == "" && savedForms == old(savedForms)
      ensures currentForm.Some? ==>
        id == currentForm.value.id && savedForms == Upsert(old(savedForms), currentForm.value)
      ensures currentForm.Some? ==> FindForm(savedForms, id) == currentForm
    {
      id := "";
      if currentForm.Some? {
        AutoSave();
        id := currentForm.value.id;
        SaveThenLoad(old(savedForms), currentForm.value);
      }
    }

    /** The saved form with this id, or nothing. */
    method LoadFormById(id: string) returns (r: Option<Form>)
      ensures r.Some? ==> r.value in savedForms && r.value.id == id
      ensures r.None? ==> forall j :: 0 <= j < |savedForms| ==> savedForms[j].id != id
      ensures r == FindForm(savedForms, id)
    {
      var i := FindIndex(savedForms, id);
      FindFormAtIndex(savedForms, id);
      r := if i >= 0 then Some(savedForms[i]) else None;
    }
  }

  /** Saving and then loading by the returned id gives back the current
      form, and a second save leaves the saved list as the first left it. */
  method SaveTwiceThenLoad(store: FormStore) returns (loaded: Option<Form>)
    requires store.currentForm.Some?
    modifies store`savedForms
    ensures loaded == store.currentForm
    ensures store.savedForms == Upsert(old(store.savedForms), store.currentForm.value)
  {
    var id := store.SaveForm();
    var again := store.SaveForm();
    UpsertIdempotent(old(store.savedForms), store.currentForm.value);
    loaded := store.LoadFormById(id);
  }

  /** Removing a field twice: the second call leaves the field list as the
      first one left it. */
  method RemoveFieldTwice(store: FormStore, id: string, now: int)
    requires store.currentForm.Some?
    modifies store`currentForm, store`selectedFieldId, store`savedForms
    ensures store.currentForm.Some?
    ensures store.currentForm.value.fields == WithoutField(old(store.currentForm).value.fields, id)
  {
    store.RemoveField(id, now);
    store.RemoveField(id, now);
    WithoutFieldIdempotent(old(store.currentForm).value.fields, id);
  }
}
