/** The form document's data shapes: fields, steps, forms and templates.
    Ids are opaque strings; timestamps are abstract clock readings. */
module FormModel {
  import opened Basics

  /** The field types the builder produces: the store's nine plus the two
      media types the renderer and palette add. */
  datatype FieldType =
    | Text | Textarea | Select | Checkbox | Radio | Date | Email | Phone | Number
    | Image | File

  /** The optional constraints of one field. Numbers are integers here. */
  datatype Rules = Rules(
    minLength: Option<int>,
    maxLength: Option<int>,
    pattern: Option<string>,
    min: Option<int>,
    max: Option<int>)

  const NoRules := Rules(None, None, None, None, None)

  /** One input of a form. `accept` and `multiple` are the extra keys the
      palette attaches to media fields; they travel through `addField`. */
  datatype Field = Field(
    id: string,
    kind: FieldType,
    labelText: string,
    placeholder: Option<string>,
    required: bool,
    helpText: Option<string>,
    options: Option<seq<string>>,
    validation: Option<Rules>,
    step: Option<int>,
    accept: Option<string>,
    multiple: Option<bool>)

  /** The payload of `addField`: a field without its id. */
  datatype FieldDraft = FieldDraft(
    kind: FieldType,
    labelText: string,
    placeholder: Option<string>,
    required: bool,
    helpText: Option<string>,
    options: Option<seq<string>>,
    validation: Option<Rules>,
    step: Option<int>,
    accept: Option<string>,
    multiple: Option<bool>)

  /** `Partial<FormField>`: every key may be present or absent. */
  datatype FieldPatch = FieldPatch(
    id: Patch<string>,
    kind: Patch<FieldType>,
    labelText: Patch<string>,
    placeholder: Patch<Option<string>>,
    required: Patch<bool>,
    helpText: Patch<Option<string>>,
    options: Patch<Option<seq<string>>>,
    validation: Patch<Option<Rules>>,
    step: Patch<Option<int>>,
    accept: Patch<Option<string>>,
    multiple: Patch<Option<bool>>)

  const EmptyFieldPatch := FieldPatch(Keep, Keep, Keep, Keep, Keep, Keep, Keep, Keep, Keep, Keep, Keep)

  datatype Step = Step(id: string, title: string, description: Option<string>, fieldIds: seq<string>)

  /** The payload of `addStep`: a step without its id. */
  datatype StepDraft = StepDraft(title: string, description: Option<string>, fieldIds: seq<string>)

  datatype StepPatch = StepPatch(
    id: Patch<string>,
    title: Patch<string>,
    description: Patch<Option<string>>,
    fieldIds: Patch<seq<string>>)

  datatype Settings = Settings(submitText: string, redirectUrl: Option<string>, showProgressBar: bool)

  datatype Form = Form(
    id: string,
    title: string,
    description: Option<string>,
    fields: seq<Field>,
    steps: Option<seq<Step>>,
    isMultiStep: bool,
    settings: Settings,
    createdAt: int,
    updatedAt: int)

  /** `Partial<Form>` as passed to `updateForm`. */
  datatype FormPatch = FormPatch(
    id: Patch<string>,
    title: Patch<string>,
    description: Patch<Option<string>>,
    fields: Patch<seq<Field>>,
    steps: Patch<Option<seq<Step>>>,
    isMultiStep: Patch<bool>,
    settings: Patch<Settings>,
    createdAt: Patch<int>)

  const EmptyFormPatch := FormPatch(Keep, Keep, Keep, Keep, Keep, Keep, Keep, Keep)

  /** A form without identity and timestamps: what a template embeds. */
  datatype FormShape = FormShape(
    title: string,
    description: Option<string>,
    fields: seq<Field>,
    steps: Option<seq<Step>>,
    isMultiStep: bool,
    settings: Settings)

  datatype Template = Template(id: string, name: string, description: string, form: FormShape)

  datatype PreviewMode = Desktop | Tablet | Mobile

  function FieldIds(fields: seq<Field>): (ids: seq<string>)
    ensures |ids| == |fields|
    ensures forall i :: 0 <= i < |fields| ==> ids[i] == fields[i].id
  {
    if fields == [] then [] else [fields[0].id] + FieldIds(fields[1..])
  }

  /** No two fields share an id. */
  predicate UniqueFieldIds(fields: seq<Field>) {
    forall i, j :: 0 <= i < j < |fields| ==> fields[i].id != fields[j].id
  }

  predicate HasFieldId(fields: seq<Field>, id: string) {
    exists i :: 0 <= i < |fields| && fields[i].id == id
  }

  predicate HasStepId(steps: seq<Step>, id: string) {
    exists i :: 0 <= i < |steps| && steps[i].id == id
  }
}
