/** The builder canvas: dropping palette payloads onto the form, dragging
    field cards to reorder them, and switching between single-step and
    multi-step layouts. */
module Canvas {
  import opened Basics
  import opened FormModel
  import opened ListOps
  import opened FormDocument
  import opened Store
  import opened StepWalker

  /** What `JSON.parse` of the dropped data gives: text that does not
      parse, an object with no truthy `type`, or a field payload. */
  datatype DropPayload = Unparsable | Untyped | Payload(draft: FieldDraft)

  /** The patch `toggleMultiStep` hands to `updateForm`. */
  function TogglePatch(f: Form, stepId: string): (p: FormPatch)
    ensures p.isMultiStep == Put(!f.isMultiStep)
    ensures f.isMultiStep ==> p.steps == Put(Some([]))
    ensures !f.isMultiStep ==>
      p.steps == Put(Some([Step(stepId, "Step 1", Some("First step of the form"), FieldIds(f.fields))]))
    ensures p.fields == Keep && p.id == Keep && p.title == Keep && p.settings == Keep
    ensures p.description == Keep && p.createdAt == Keep
  {
    if f.isMultiStep then
      EmptyFormPatch.(isMultiStep := Put(false), steps := Put(Some([])))
    else
      EmptyFormPatch.(isMultiStep := Put(true),
                      steps := Put(Some([Step(stepId, "Step 1", Some("First step of the form"), FieldIds(f.fields))])))
  }

  /** Going back to a single step keeps every field as it was, step
      assignments included: nothing clears them. */
  lemma ToSingleKeepsFieldSteps(f: Form, stepId: string, now: int)
    requires f.isMultiStep
    ensures var g := MergeForm(f, TogglePatch(f, stepId), now);
      !g.isMultiStep && g.steps == Some([]) && g.fields == f.fields && TotalSteps(g) == 1
  {
  }

  /** Going to multiple steps lists every field on the new first step, yet
      a field added while the form had one step has no step number, so the
      first step of the filler shows none of them. */
  lemma ToMultiListsButHidesFields(f: Form, stepId: string, now: int, i: nat)
    requires !f.isMultiStep && i < |f.fields| && f.fields[i].step.None?
    ensures var g := MergeForm(f, TogglePatch(f, stepId), now);
      g.isMultiStep && TotalSteps(g) == 1 &&
      f.fields[i].id in g.steps.value[0].fieldIds &&
      f.fields[i] !in FieldsForStep(g, 0)
  {
    var g := MergeForm(f, TogglePatch(f, stepId), now);
    assert g.steps.value[0].fieldIds[i] == f.fields[i].id;
    UnplacedFieldIsHidden(g, f.fields[i], 0);
  }

  /** Toggling twice from a single-step form gives back the form, with an
      emptied step list. */
  lemma ToggleTwice(f: Form, stepId: string, t1: int, t2: int)
    requires !f.isMultiStep
    ensures var g := MergeForm(f, TogglePatch(f, stepId), t1);
      MergeForm(g, TogglePatch(g, stepId), t2) == f.(steps := Some([]), updatedAt := t2)
  {
  }

  /** The canvas's own drag state: which card is being dragged and which
      card it hovers over. */
  class CanvasState {
    var draggedIndex: Option<nat>
    var dragOverIndex: Option<nat>

    constructor ()
      ensures draggedIndex == None && dragOverIndex == None
    {
      draggedIndex := None;
      dragOverIndex := None;
    }

    method HandleDragOver(store: FormStore)
      modifies store`isDraggingOver
      ensures store.isDraggingOver
    {
      store.SetDraggingOver(true);
    }

    method HandleDragLeave(store: FormStore)
      modifies store`isDraggingOver
      ensures !store.isDraggingOver
    {
      store.SetDraggingOver(false);
    }

    /** `handleDrop`: a payload with a type becomes a new field; anything
        else is ignored. The highlight goes off either way. */
    method HandleDrop(store: FormStore, payload: DropPayload, id: string, now: int)
      requires payload.Payload? && store.currentForm.Some? ==> !HasFieldId(store.currentForm.value.fields, id)
      modifies store`isDraggingOver, store`currentForm, store`selectedFieldId, store`savedForms
      ensures !store.isDraggingOver
      ensures !payload.Payload? || old(store.currentForm).None? ==>
        store.currentForm == old(store.currentForm) && store.selectedFieldId == old(store.selectedFieldId) &&
        store.savedForms == old(store.savedForms)
      ensures payload.Payload? && old(store.currentForm).Some? ==>
        store.currentForm == Some(AppendField(old(store.currentForm).value, payload.draft, id, now)) &&
        store.selectedFieldId == Some(id) &&
        store.savedForms == Upsert(old(store.savedForms), store.currentForm.value)
    {
      store.SetDraggingOver(false);
      if payload.Payload? {
        store.AddField(payload.draft, id, now);
      }
    }

    method FieldDragStart(index: nat)
      modifies this`draggedIndex
      ensures draggedIndex == Some(index)
    {
      draggedIndex := Some(index);
    }

    method FieldDragOver(index: nat)
      modifies this`dragOverIndex
      ensures dragOverIndex == Some(index)
    {
      dragOverIndex := Some(index);
    }

    /** `handleFieldDrop`: moves the dragged card to the target's place
        when they differ, then clears the drag state. */
    method FieldDrop(store: FormStore, target: nat, now: int)
      requires store.currentForm.Some? && draggedIndex.Some? && draggedIndex.value != target ==>
        draggedIndex.value < |store.currentForm.value.fields| && target < |store.currentForm.value.fields|
      modifies this`draggedIndex, this`dragOverIndex, store`currentForm, store`savedForms
      ensures draggedIndex == None && dragOverIndex == None
      ensures old(draggedIndex).Some? && old(draggedIndex).value != target && old(store.currentForm).Some? ==>
        store.currentForm == Some(old(store.currentForm).value.(
          fields := Moved(old(store.currentForm).value.fields, old(draggedIndex).value, target),
          updatedAt := now)) &&
        store.savedForms == Upsert(old(store.savedForms), store.currentForm.value)
      ensures !(old(draggedIndex).Some? && old(draggedIndex).value != target) ==>
        store.currentForm == old(store.currentForm) && store.savedForms == old(store.savedForms)
    {
      if draggedIndex.Some? && draggedIndex.value != target {
        store.ReorderFields(draggedIndex.value, target, now);
      }
      draggedIndex := None;
      dragOverIndex := None;
    }

    method FieldDragEnd()
      modifies this`draggedIndex, this`dragOverIndex
      ensures draggedIndex == None && dragOverIndex == None
    {
      draggedIndex := None;
      dragOverIndex := None;
    }

    /** `toggleMultiStep`: switches the layout through `updateForm`. */
    method ToggleMultiStep(store: FormStore, stepId: string, now: int)
      modifies store`currentForm, store`savedForms
      ensures old(store.currentForm).None? ==> store.currentForm == None && store.savedForms == old(store.savedForms)
      ensures old(store.currentForm).Some? ==>
        store.currentForm == Some(MergeForm(old(store.currentForm).value, TogglePatch(old(store.currentForm).value, stepId), now)) &&
        store.savedForms == Upsert(old(store.savedForms), store.currentForm.value)
    {
      if store.currentForm.Some? {
        store.UpdateForm(TogglePatch(store.currentForm.value, stepId), now);
      }
    }
  }
}
