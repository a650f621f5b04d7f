# Form builder core in Dafny

This project models the core of a drag-and-drop form builder, a React and TypeScript application. A user builds a form out of typed fields, optionally splits it into steps, and previews and fills it.

- **Store.** One store holds the form being edited, the selected field, the preview flags, the template list and the saved forms. Every edit to the current form is followed by an autosave, which upserts the form into the saved list by id.
- **Builder panels.** These call the store:
  - the palette creates fields;
  - the canvas drops, reorders and toggles the step layout;
  - the configuration panel edits the selected field, its options and its validation rules;
  - the template manager saves the current form as a template and loads templates.
- **Filling.** The filler page and the preview panel each carry their own copy of the field validator. They walk the form step by step and allow moving forward or submitting only when the current step has no errors.

## Modules

| module | file | what it holds |
|---|---|---|
| `Basics` | `basics.dfy` | `Option` (a nullable/optional value) and `Patch` (one key of a spread update) |
| `JsText` | `js_text.dfy` | the JavaScript string behaviour used by the core: `\s`, `trim`, ASCII `toLowerCase`, `includes`, number-to-string |
| `FormModel` | `form_model.dfy` | fields, rules, steps, settings, forms, patches, templates |
| `ListOps` | `list_ops.dfy` | removal by index or value, and the splice move; `SpliceMove` does it on an array as the store does |
| `FormDocument` | `form_document.dfy` | the store's pure transitions: default form, field and step edits, templates, upsert and lookup of saved forms |
| `Store` | `form_store.dfy` | class `FormStore`: the store's state and every action |
| `Validator` | `validator.dfy` | `validateField` as one chain with two dialects: `Filler` for the filler page, `Preview` for the preview panel |
| `StepWalker` | `step_walker.dfy` | fields of a step, error collection (a loop method and its specification), class `StepCursor` for the step navigation |
| `FieldConfig` | `field_config.dfy` | selected field, option and rule edits, class `ConfigPanel` |
| `Canvas` | `form_canvas.dfy` | drop handling, card drag-and-drop, the step-layout toggle, class `CanvasState` |
| `Templates` | `template_manager.dfy` | class `SaveDialog`, the save checks, the type summary of a template card, the export file name |
| `Renderer` | `field_renderer.dfy` | what each input kind reports to its owner, and the rule hints shown while editing |
| `Palette` | `field_palette.dfy` | the palette entries, the new-field payload, the search filter, class `PaletteState` |
| `PreviewLayout` | `preview_layout.dfy` | the width class of the preview frame and the progress percentage |

### Conventions

- A step's list of field ids is the source key `fields`; it is called `fieldIds` here.
- Store methods that change state are stated against the pure functions of `FormDocument`. Their ensures give the whole new state. The lemmas beside those functions carry the properties: unique ids, round trips, idempotence and permutation.
- New ids and the current time are parameters, named `id` and `now`.
- A `PatternTest` parameter stands for `new RegExp(pattern).test(value)` on a user-supplied pattern.

## Model

| member | source | states |
|---|---|---|
| `JsText.TrimStartDropsLeadingSpace` | src/components/FormBuilder/FieldConfigPanel.tsx:54-60 | trimming the start gives a suffix of the input; every dropped character is whitespace and the result does not start with whitespace |
| `JsText.TrimEndDropsTrailingSpace` | src/components/FormBuilder/FieldConfigPanel.tsx:54-60 | trimming the end gives a prefix of the input; every dropped character is whitespace and the result does not end with whitespace |
| `JsText.Trim` | src/components/FormBuilder/TemplateManager.tsx:43-61 | `trim()` removes white space at both ends and nothing else: the input is the result with white space before and after it; the result neither starts nor ends with white space, and it is empty exactly when the input is all white space |
| `JsText.TrimUnpads` | src/components/FormBuilder/TemplateManager.tsx:43-61 | any string made of white space, a text that neither starts nor ends with white space, and white space trims to exactly that text |
| `JsText.LowerChar` | src/components/FormBuilder/FieldPalette.tsx:45-50 | upper-case ASCII letters map to lower case (code + 32); every other character is unchanged |
| `JsText.Lower` | src/components/FormBuilder/FieldPalette.tsx:88-91 | `toLowerCase()` keeps the length and lowers character by character |
| `JsText.NatDecimal` | src/components/FormFiller.tsx:122-124 | a natural number prints as a non-empty string of decimal digits that denote the number, with no leading zero except in "0" |
| `JsText.Decimal` | src/components/FormFiller.tsx:133-138 | `${n}` prints a '-' exactly for a negative number, then decimal digits; reading the text back gives `n` |
| `JsText.DecimalInjective` | src/components/FormFiller.tsx:122-138 | different numbers print as different texts |
| `JsText.DecimalExamples` | src/components/FormFiller.tsx:122-138 | 10 prints as "10" and -5 as "-5" |
| `FormModel.FieldIds` | src/components/FormBuilder/FormCanvas.tsx:85-114 | the list of field ids has one entry per field, in field order |
| `ListOps.RemoveAt` | src/components/FormBuilder/FieldConfigPanel.tsx:62-67 | filtering out index i shortens the list by one when i is in range and leaves it unchanged otherwise |
| `ListOps.RemoveAtIndex` | src/components/FormBuilder/FieldConfigPanel.tsx:62-67 | after removing index i, the elements before i stay in place and those after it move down by one |
| `ListOps.RemoveAll` | src/store/formStore.ts:300-315 | filtering a value out removes every copy of it and keeps every other element |
| `ListOps.RemoveAllAppend` | src/store/formStore.ts:300-315 | filtering distributes over concatenation |
| `ListOps.RemoveAllAbsent` | src/store/formStore.ts:300-315 | filtering out a value the list does not hold leaves the list unchanged |
| `ListOps.MovedIndex` | src/store/formStore.ts:317-333 | gives, for each index of a moved list, the index of the original element found there |
| `ListOps.MovedPermutes` | src/store/formStore.ts:317-333 | a move is a permutation (same multiset) that puts the moved element at the target index |
| `ListOps.MovedKeepsOthersInOrder` | src/store/formStore.ts:317-333 | apart from the moved element, the move keeps every element in its relative order |
| `ListOps.ShiftDown` | src/store/formStore.ts:317-333 | moving forward, the elements after the source up to the target each move one place down; the others stay |
| `ListOps.ShiftUp` | src/store/formStore.ts:317-333 | moving backward, the elements from the target up to before the source each move one place up; the others stay |
| `ListOps.SpliceMove` | src/store/formStore.ts:317-333 | the splice-out/splice-in on an array gives exactly `Moved` |
| `FormDocument.DefaultForm` | src/store/formStore.ts:105-118 | a new form is titled "Untitled Form" with an empty description, no fields, an empty step list and single-step layout; its settings are "Submit", no redirect URL and the progress bar on; both timestamps are `now` |
| `FormDocument.MergeForm` | src/store/formStore.ts:247-259 | `{...form, ...updates, updatedAt}`: every key the patch carries takes the patch's value, every other key keeps the form's, and the timestamp is `now` |
| `FormDocument.NewField` | src/store/formStore.ts:261-280 | a new field copies every key of the payload, gets the given id, and gets step 0 when the form is multi-step (otherwise no step) |
| `FormDocument.AppendField` | src/store/formStore.ts:261-280 | adding a field appends exactly the new field and changes nothing else in the form apart from the timestamp |
| `FormDocument.AppendFieldKeepsIdsUnique` | src/store/formStore.ts:261-280 | adding a field with a fresh id keeps the field ids unique |
| `FormDocument.AppendFieldsCountAndUnique` | src/store/formStore.ts:261-280 | adding n fields with distinct fresh ids adds exactly n fields and keeps the ids unique |
| `FormDocument.MergeField` | src/store/formStore.ts:282-298 | `{...field, ...updates}`: every key the patch carries takes the patch's value and every other key keeps the field's; an empty patch changes nothing |
| `FormDocument.UpdateFields` | src/store/formStore.ts:282-298 | every field with the id is merged with the patch and every other field is left as is |
| `FormDocument.UpdateFieldsMissingId` | src/store/formStore.ts:282-298 | updating an id that no field has leaves the fields unchanged |
| `FormDocument.UpdateFieldsKeepsIds` | src/store/formStore.ts:282-298 | a patch that does not touch `id` keeps the list of field ids |
| `FormDocument.WithoutField` | src/store/formStore.ts:300-315 | removing a field drops every field with that id and keeps all the others |
| `FormDocument.WithoutFieldAppend` | src/store/formStore.ts:300-315 | removal distributes over concatenation |
| `FormDocument.WithoutFieldMissingId` | src/store/formStore.ts:300-315 | removing an absent id changes nothing |
| `FormDocument.WithoutFieldIdempotent` | src/store/formStore.ts:300-315 | removing the same id twice is the same as removing it once |
| `FormDocument.AppendStep` | src/store/formStore.ts:339-357 | adding a step appends it (to an empty list if there was none) and makes the form multi-step; nothing else changes but the timestamp |
| `FormDocument.UpdateSteps` | src/store/formStore.ts:359-375 | the step with the id is merged with the patch and every other step is left as is |
| `FormDocument.WithoutStep` | src/store/formStore.ts:377-392 | removing a step drops every step with that id and keeps all the others |
| `FormDocument.WithoutStepAppend` | src/store/formStore.ts:377-392 | removal distributes over concatenation, so the kept steps stay in order, each as often as before |
| `FormDocument.RemoveStepFrom` | src/store/formStore.ts:377-392 | after removing a step the form holds the filtered step list and is multi-step exactly when more than one step remains; the timestamp is `now` and every other key is kept |
| `FormDocument.RemoveOfTwoStepsLeavesSingleStep` | src/store/formStore.ts:377-392 | removing one of two distinct steps turns the form back to single-step |
| `FormDocument.Instantiate` | src/store/formStore.ts:406-418 | an instance of a template keeps its content and gets the new id and both timestamps |
| `FormDocument.InstantiateShape` | src/store/formStore.ts:420-441 | a form whose timestamps agree is recovered from its content, its id and its timestamp (saving as a template then loading is a round trip) |
| `FormDocument.InstancesShareContent` | src/store/formStore.ts:406-418 | two loads of one template are different forms with the same content |
| `FormDocument.FindTemplate` | src/store/formStore.ts:406-409 | `templates.find`: a found template is in the list and has the id; nothing found means no template has it |
| `FormDocument.FindTemplateFirst` | src/store/formStore.ts:406-409 | `find` returns the first template carrying the id |
| `FormDocument.DefaultTemplates` | src/store/formStore.ts:120-227 | two built-in templates: "contact-us" (three fields, single-step) and "survey" (four fields, two steps, multi-step) |
| `FormDocument.IndexOfId` | src/store/formStore.ts:443-462 | `findIndex`: the first index with the id, or -1 when no form has it |
| `FormDocument.FindForm` | src/store/formStore.ts:464-467 | `savedForms.find(...) \|\| null`: a found form has the id; none found means no saved form has it |
| `FormDocument.FindFormAtIndex` | src/store/formStore.ts:464-467 | the form found by id is the one at `findIndex` |
| `FormDocument.Upsert` | src/store/formStore.ts:469-485 | the saved form with the same id is replaced in place, or the form is appended when there is none |
| `FormDocument.SaveThenLoad` | src/store/formStore.ts:443-467 | after saving, loading by the form's id gives the form back |
| `FormDocument.SaveKeepsOthers` | src/store/formStore.ts:443-467 | saving a form does not change what any other id loads |
| `FormDocument.UpsertIdempotent` | src/store/formStore.ts:469-485 | saving the same form twice leaves the list as one save does |
| `Store.FindIndex` | src/store/formStore.ts:446 | the loop finds the first saved form with the id, or -1; it agrees with `IndexOfId` |
| `Store.FormStore.constructor` | src/store/formStore.ts:230-237 | the store starts with no form, no selection, desktop preview, preview and drag flags off, the built-in templates and the persisted forms |
| `Store.FormStore.AutoSave` | src/store/formStore.ts:469-485 | upserts the current form into the saved forms; with no form it does nothing |
| `Store.FormStore.CreateNewForm` | src/store/formStore.ts:239-241 | the current form becomes the default form and the selection is cleared |
| `Store.FormStore.LoadForm` | src/store/formStore.ts:243-245 | the current form becomes the given form and the selection is cleared |
| `Store.FormStore.UpdateForm` | src/store/formStore.ts:247-259 | merges the patch and autosaves; with no form nothing changes |
| `Store.FormStore.AddField` | src/store/formStore.ts:261-280 | appends the new field, selects it and autosaves; with no form nothing changes |
| `Store.FormStore.UpdateField` | src/store/formStore.ts:282-298 | patches the field with the id and autosaves |
| `Store.FormStore.RemoveField` | src/store/formStore.ts:300-315 | removes the field and autosaves; the selection is cleared only when it was that field |
| `Store.FormStore.ReorderFields` | src/store/formStore.ts:317-333 | moves the field from one index to the other (`Moved`) and autosaves |
| `Store.FormStore.SelectField` | src/store/formStore.ts:335-337 | the selection becomes the given id or null, unchecked |
| `Store.FormStore.AddStep` | src/store/formStore.ts:339-357 | appends the step, turns the layout multi-step and autosaves |
| `Store.FormStore.UpdateStep` | src/store/formStore.ts:359-375 | patches the step with the id and autosaves; with no form or no step list nothing changes |
| `Store.FormStore.RemoveStep` | src/store/formStore.ts:377-392 | removes the step, sets the layout from the remaining count and autosaves |
| `Store.FormStore.SetPreviewMode` | src/store/formStore.ts:394-396 | the preview mode becomes the given one |
| `Store.FormStore.TogglePreview` | src/store/formStore.ts:398-400 | the preview flag flips |
| `Store.FormStore.SetDraggingOver` | src/store/formStore.ts:402-404 | the drop-highlight flag becomes the given value |
| `Store.FormStore.LoadTemplate` | src/store/formStore.ts:406-418 | a known template becomes a new current form, with the selection cleared; an unknown id changes nothing; no autosave |
| `Store.FormStore.SaveAsTemplate` | src/store/formStore.ts:420-441 | appends a template holding the current form's content; with no form nothing changes |
| `Store.FormStore.SaveForm` | src/store/formStore.ts:443-462 | upserts the current form and returns its id, which then loads that form; returns "" with no form |
| `Store.FormStore.LoadFormById` | src/store/formStore.ts:464-467 | returns the first saved form with the id, or null when none has it |
| `Store.SaveTwiceThenLoad` | src/store/formStore.ts:443-467 | saving twice and loading by the returned id gives the current form back; the saved list is as after one save |
| `Store.RemoveFieldTwice` | src/store/formStore.ts:300-315 | removing a field twice leaves the fields as one removal does |
| `Validator.Message` | src/components/FormFiller.tsx:113-160 | every issue has a non-empty message, and the message reads back as its issue, bound included (the source's texts, with the bound printed in decimal) |
| `Validator.MessagesDistinct` | src/components/FormFiller.tsx:113-160 | two issues have the same message exactly when they are the same issue with the same bound |
| `Validator.StripChars` | src/components/FormFiller.tsx:152-157 | `replace(/[...]/g, '')`: the result is no longer, holds none of the removed characters, and is the input itself when nothing is to be removed |
| `Validator.StripCharsAppend` | src/components/FormFiller.tsx:152-157 | stripping distributes over concatenation, so the kept characters survive in their order |
| `Validator.StringIssue` | src/components/FormFiller.tsx:121-131 | the string checks in order: a truthy minLength above the length gives "too short" with that bound; failing that, a truthy maxLength below it gives "too long" with that bound; failing both, a non-empty pattern that does not match gives "invalid format"; no issue exactly when all three hold |
| `Validator.NumberIssue` | src/components/FormFiller.tsx:133-140 | the number checks in order: below a set min gives that min; failing that, above a set max gives that max; no issue exactly when the value lies within the bounds that are set (a bound of 0 counts) |
| `Validator.ValidateField` | src/components/FormFiller.tsx:113-160 | no error exactly when the required check, every applicable rule and the type's shape all hold; "required" exactly for a required field with an empty answer |
| `Validator.FirstFailingCheck` | src/components/FormFiller.tsx:113-160 | past the required check, a failed rule gives the string or number checks' issue; with every rule met, a failed shape gives the email or phone error, or the throw of `replace` on a non-string phone answer |
| `Validator.StringChecksComeFirst` | src/components/FormFiller.tsx:118-157 | for a non-empty string answer, the first failing string check decides; otherwise the email or phone shape does |
| `Validator.DialectsAgreeBeforeShapes` | src/components/FormBuilder/PreviewPanel.tsx:42-89 | the filler and preview copies agree on every field that is neither email nor phone, and on every issue other than those two |
| `Validator.FillerEmailAccepts` | src/components/FormFiller.tsx:144-149 | every `local@host.tld` whose parts are non-empty and free of whitespace and '@' passes the email check |
| `Validator.FillerEmailShape` | src/components/FormFiller.tsx:144-149 | an accepted address has no whitespace and exactly one '@', which is neither its first nor its last character |
| `Validator.StripCleanIsIdentity` | src/components/FormFiller.tsx:152-157 | stripping characters that do not occur leaves the string unchanged |
| `Validator.FillerPhoneAcceptsDigits` | src/components/FormFiller.tsx:152-157 | 1 to 16 digits with a non-zero first digit pass the filler's phone check |
| `Validator.PreviewPhoneRefusesSecondDigit` | src/components/FormBuilder/PreviewPanel.tsx:81-86 | the preview's phone check refuses every all-digit number longer than one digit |
| `Validator.RequiredExamples` | src/components/FormFiller.tsx:114-116 | an empty string or an empty list fails a required field; "x" passes |
| `Validator.NumberExamples` | src/components/FormFiller.tsx:133-140 | with bounds 5..10, 12 and 3 fail and 7 passes; a minimum of 0 refuses -1, and an answer of 0 is skipped as falsy |
| `Validator.EmailExamples` | src/components/FormFiller.tsx:144-149 | "a@b.com" passes the filler's email check and "not-an-email" fails it |
| `Validator.PreviewEmailRefusesLetterS` | src/components/FormBuilder/PreviewPanel.tsx:73-78 | "sam@x.com" passes the filler's check and fails the preview's |
| `Validator.PreviewEmailAcceptsNoDot` | src/components/FormBuilder/PreviewPanel.tsx:73-78 | "a@bxc" passes the preview's check and fails the filler's |
| `Validator.PreviewPhoneExamples` | src/components/FormBuilder/PreviewPanel.tsx:81-86 | "5551234" passes the filler's phone check and fails the preview's; "5" passes the preview's |
| `Validator.PreviewRefusesFillerEmail` | src/components/FormBuilder/PreviewPanel.tsx:73-78 | the same email answer is valid on the filler page and reported invalid in the preview |
| `StepWalker.FieldsOnStep` | src/components/FormFiller.tsx:101-106 | the fields on step k are exactly the form's fields whose step is k |
| `StepWalker.FieldsOnStepAppend` | src/components/FormFiller.tsx:101-106 | the per-step filter distributes over concatenation, so field order is kept |
| `StepWalker.FieldsForStep` | src/components/FormFiller.tsx:101-106 | a single-step form shows all its fields; a multi-step one exactly the fields on step k, in order |
| `StepWalker.UnplacedFieldIsHidden` | src/components/FormFiller.tsx:101-106 | in a multi-step form a field whose step is not k is not shown on step k |
| `StepWalker.TotalSteps` | src/components/FormFiller.tsx:109 | there is at least one step; a multi-step form with steps has one per step; a single-step form, and a multi-step form whose steps are absent or empty, has one (`steps?.length || 1`) |
| `StepWalker.SubmitOnLastStep` | src/components/FormFiller.tsx:340-352 | the footer shows the submit button exactly on a single-step form or on the last step; "Next" only where another step follows |
| `StepWalker.StepErrorsAbortSticks` | src/components/FormFiller.tsx:162-177 | once a field's check throws, collecting over any longer run throws too |
| `StepWalker.StepErrorsAborts` | src/components/FormFiller.tsx:162-177 | collection aborts exactly when some field's check throws |
| `StepWalker.StepErrorsKeys` | src/components/FormFiller.tsx:162-177 | a completed collection holds an error under an id exactly when some field with that id failed |
| `StepWalker.StepErrorsIssue` | src/components/FormFiller.tsx:162-177 | with unique ids, a failing field's entry is its own issue |
| `StepWalker.StepPassesIffAllPass` | src/components/FormFiller.tsx:162-177 | the step is valid (no errors) exactly when every field on it passes |
| `StepWalker.CollectStepErrors` | src/components/FormFiller.tsx:162-177 | the `forEach` loop computes exactly `StepErrors` |
| `StepWalker.StepCursor.constructor` | src/components/FormFiller.tsx:27-29 | a filling session starts at step 0 with no answers and no errors |
| `StepWalker.StepCursor.ValidateCurrentStep` | src/components/FormFiller.tsx:162-177 | the errors shown become the current step's errors and the result says whether there are none; a throw leaves the errors as they were |
| `StepWalker.StepCursor.HandleFieldChange` | src/components/FormFiller.tsx:179-190 | stores the answer and clears that field's error and no other |
| `StepWalker.StepCursor.HandleNext` | src/components/FormFiller.tsx:192-196 | advances exactly when the step is valid and is not the last; the step stays in range; the errors shown are the step's |
| `StepWalker.StepCursor.HandlePrevious` | src/components/FormFiller.tsx:198-202 | goes back one step, never below 0 |
| `StepWalker.StepCursor.HandleSubmit` | src/components/FormFiller.tsx:204-205 | submission goes ahead exactly when the current step has no errors |
| `FieldConfig.FindField` | src/components/FormBuilder/FieldConfigPanel.tsx:25 | the selected field is the first field with the selected id; there is none when nothing is selected or no field has the id |
| `FieldConfig.AddedOption` | src/components/FormBuilder/FieldConfigPanel.tsx:54-60 | an option is added exactly when the field has options and the typed text is not blank; the new list is the old one with `Trim(typed)` appended |
| `FieldConfig.ConfigSectionsByKind` | src/components/FormBuilder/FieldConfigPanel.tsx:77-80 | the option section and the rule sections never share a type; a pattern comes with length bounds; min/max belong to numbers alone; dates and media get no section |
| `FieldConfig.EditRules` | src/components/FormBuilder/FieldConfigPanel.tsx:242-318 | a rule box sets its own key (a cleared box sets it to undefined) and keeps every other key |
| `FieldConfig.EditRulesCommuteAndRepeat` | src/components/FormBuilder/FieldConfigPanel.tsx:242-318 | repeating an edit changes nothing, and edits to different keys commute |
| `FieldConfig.ClearedPatternIsIgnored` | src/components/FormBuilder/FieldConfigPanel.tsx:314-318 | after the pattern box is cleared, no answer gets "Invalid format" |
| `FieldConfig.ClearedBoundIsIgnored` | src/components/FormBuilder/FieldConfigPanel.tsx:280-301 | after a min (max) box is cleared, only the other bound can fail |
| `FieldConfig.UnplacedFieldShowsFirstStep` | src/components/FormBuilder/FieldConfigPanel.tsx:337-349 | a field without a step shows "Step 1" in the selector, yet is not on step 1 of a multi-step form |
| `FieldConfig.ConfigPanel.constructor` | src/components/FormBuilder/FieldConfigPanel.tsx:22 | the new-option box starts empty |
| `FieldConfig.ConfigPanel.TypeOption` | src/components/FormBuilder/FieldConfigPanel.tsx:22 | the new-option box holds what was typed |
| `FieldConfig.ConfigPanel.Edit` | src/components/FormBuilder/FieldConfigPanel.tsx:50-52 | the patch goes to the selected field and autosaves; with no selected field nothing changes |
| `FieldConfig.ConfigPanel.AddOption` | src/components/FormBuilder/FieldConfigPanel.tsx:54-60 | the trimmed option is appended, autosaved and the box emptied; otherwise nothing changes |
| `FieldConfig.ConfigPanel.RemoveOption` | src/components/FormBuilder/FieldConfigPanel.tsx:62-67 | the option at the index is filtered out and autosaved |
| `FieldConfig.ConfigPanel.UpdateOption` | src/components/FormBuilder/FieldConfigPanel.tsx:69-75 | the option at a listed index is replaced and autosaved |
| `FieldConfig.ConfigPanel.EditRule` | src/components/FormBuilder/FieldConfigPanel.tsx:242-318 | the selected field's rules become `EditRules` of the old ones, autosaved |
| `FieldConfig.RemovedOptionKeepsOthers` | src/components/FormBuilder/FieldConfigPanel.tsx:62-67 | removing a listed option keeps the others in order |
| `Canvas.TogglePatch` | src/components/FormBuilder/FormCanvas.tsx:85-114 | the toggle flips `isMultiStep`; leaving multi-step empties the step list, and entering it makes one step titled "Step 1", described "First step of the form", listing every field id; fields, id, title, description, settings and creation time are not patched |
| `Canvas.ToSingleKeepsFieldSteps` | src/components/FormBuilder/FormCanvas.tsx:85-114 | going back to single-step keeps every field, including its step number |
| `Canvas.ToMultiListsButHidesFields` | src/components/FormBuilder/FormCanvas.tsx:85-114 | entering multi-step lists an unplaced field in the new step's ids, yet the filler does not show it on that step |
| `Canvas.ToggleTwice` | src/components/FormBuilder/FormCanvas.tsx:85-114 | toggling twice from single-step gives back the same form, except that the step list is now empty |
| `Canvas.CanvasState.constructor` | src/components/FormBuilder/FormCanvas.tsx:30-31 | no card is dragged and none is hovered |
| `Canvas.CanvasState.HandleDragOver` | src/components/FormBuilder/FormCanvas.tsx:34-37 | the drop highlight turns on |
| `Canvas.CanvasState.HandleDragLeave` | src/components/FormBuilder/FormCanvas.tsx:39-41 | the drop highlight turns off |
| `Canvas.CanvasState.HandleDrop` | src/components/FormBuilder/FormCanvas.tsx:43-55 | a payload with a type adds that field, selects it and autosaves; anything else changes nothing; the highlight goes off either way |
| `Canvas.CanvasState.FieldDragStart` | src/components/FormBuilder/FormCanvas.tsx:57-61 | the dragged index is recorded |
| `Canvas.CanvasState.FieldDragOver` | src/components/FormBuilder/FormCanvas.tsx:63-66 | the hovered index is recorded |
| `Canvas.CanvasState.FieldDrop` | src/components/FormBuilder/FormCanvas.tsx:68-78 | dropping on another index moves the dragged card there and autosaves; dropping on itself changes nothing; the drag state is cleared |
| `Canvas.CanvasState.FieldDragEnd` | src/components/FormBuilder/FormCanvas.tsx:80-83 | the drag state is cleared |
| `Canvas.CanvasState.ToggleMultiStep` | src/components/FormBuilder/FormCanvas.tsx:85-114 | the form is merged with the toggle patch and autosaved |
| `Templates.SaveVerdict` | src/components/FormBuilder/TemplateManager.tsx:43-61 | a template is saved exactly when the name is not blank and the form exists with at least one field; "name required" exactly when the name is blank, whatever the form; "empty form" exactly when the name is not blank and the form is missing or has no fields |
| `Templates.SaveDialog.constructor` | src/components/FormBuilder/TemplateManager.tsx:30-32 | the dialog starts closed with empty name and description |
| `Templates.SaveDialog.Open` | src/components/FormBuilder/TemplateManager.tsx:100-110 | the Save trigger opens the dialog only when there is a form with fields (the button is disabled otherwise); the boxes keep their text |
| `Templates.SaveDialog.Cancel` | src/components/FormBuilder/TemplateManager.tsx:137-142 | Cancel closes the dialog and keeps what was typed in both boxes |
| `Templates.SaveDialog.Edit` | src/components/FormBuilder/TemplateManager.tsx:30-32 | the boxes hold what was typed |
| `Templates.SaveDialog.Close` | src/components/FormBuilder/TemplateManager.tsx:62-64 | the dialog closes and both boxes are emptied |
| `Templates.SaveDialog.HandleSave` | src/components/FormBuilder/TemplateManager.tsx:43-71 | the outcome is `SaveVerdict`; a refusal changes nothing; a save appends a template with the trimmed name and description and the form's content, then closes and clears the dialog |
| `Templates.SavedNameIsNotBlank` | src/components/FormBuilder/TemplateManager.tsx:43-50 | a saved template's name is non-empty and does not start with whitespace |
| `Templates.Distinct` | src/components/FormBuilder/TemplateManager.tsx:188 | `[...new Set(...)]`: no duplicates, and the same members as the input |
| `Templates.DistinctExtends` | src/components/FormBuilder/TemplateManager.tsx:188 | a set built from a longer list starts with the set of its prefix (first-occurrence order) |
| `Templates.Kinds` | src/components/FormBuilder/TemplateManager.tsx:188 | the list of field types, one per field in order |
| `Templates.TypeSummary` | src/components/FormBuilder/TemplateManager.tsx:186-202 | a card shows exactly the first three distinct types in order of first appearance (all of them when there are three or fewer), then "+n" with n the number of distinct types less three, present exactly when there are more than three |
| `Templates.SkipRun` | src/components/FormBuilder/TemplateManager.tsx:80 | skipping a run leaves a suffix that does not start with a run character |
| `Templates.CollapseRuns` | src/components/FormBuilder/TemplateManager.tsx:80 | `replace(/c+/g, '_')` never makes the name longer; `RunCollapses` and `CollapseRunsKeepsPlainPrefix` give its effect on runs and on plain text |
| `Templates.RunCollapses` | src/components/FormBuilder/TemplateManager.tsx:80 | a whole run of run characters, however long, becomes one '_' and the rest is collapsed in turn |
| `Templates.RunBetweenWordsCollapses` | src/components/FormBuilder/TemplateManager.tsx:80 | a run of any length between two plain words becomes a single '_' |
| `Templates.CollapseRunsLeavesNone` | src/components/FormBuilder/TemplateManager.tsx:80 | when '_' is not a run character, none is left after the replacement |
| `Templates.CollapseRunsKeepsPlainPrefix` | src/components/FormBuilder/TemplateManager.tsx:80 | a prefix without run characters is kept as is |
| `Templates.CollapseRunsIdentity` | src/components/FormBuilder/TemplateManager.tsx:80 | a string without run characters is unchanged |
| `Templates.ExportFileName` | src/components/FormBuilder/TemplateManager.tsx:80 | as written: the name with its runs of the letter 's' collapsed, then "_template.json"; no letter 's' remains before that suffix |
| `Templates.IntendedExportFileName` | src/components/FormBuilder/TemplateManager.tsx:80 | as intended: the name with its white-space runs collapsed, then "_template.json"; the file name contains no white space |
| `Templates.IntendedKeepsPlainNames` | src/components/FormBuilder/TemplateManager.tsx:80 | as intended: a name without whitespace is kept and suffixed |
| `Templates.ExportNameExample` | src/components/FormBuilder/TemplateManager.tsx:80 | "Contact Us" exports as "Contact U__template.json" as written, against "Contact_Us_template.json" as intended |
| `Templates.ExportNameAsWritten` | src/components/FormBuilder/TemplateManager.tsx:80 | collapsing runs of 's' turns "Contact Us" into "Contact U_" |
| `Templates.ExportNameIntended` | src/components/FormBuilder/TemplateManager.tsx:80 | collapsing whitespace runs turns "Contact Us" into "Contact_Us" |
| `Templates.TrailingRunOfS` | src/components/FormBuilder/TemplateManager.tsx:80 | as written: a final 's' after a word without one becomes '_' |
| `Templates.SpacedWordsJoin` | src/components/FormBuilder/TemplateManager.tsx:80 | as intended: two whitespace-free words separated by one space are joined by one '_' |
| `Templates.DoubleSIsOneRun` | src/components/FormBuilder/TemplateManager.tsx:80 | as written: "Address" is exported as "Addre__template.json", its "ss" being one run |
| `Templates.SpacesCollapseToOne` | src/components/FormBuilder/TemplateManager.tsx:80 | as intended: "Contact   Us" with three spaces is exported as "Contact_Us_template.json" |
| `Templates.LeadingSpaceBecomesUnderscore` | src/components/FormBuilder/TemplateManager.tsx:80 | a single leading space before a plain word becomes one '_' |
| `Renderer.ToggledItems` | src/components/FormBuilder/FieldRenderer.tsx:124-150 | ticking a box gives the current items (none if the value is not an array) with the option appended; clearing gives them with every copy of the option filtered out |
| `Renderer.Emitted` | src/components/FormBuilder/FieldRenderer.tsx:40-216 | in editing mode nothing is reported; text, email, phone, number and textarea inputs report the typed text; select and radio the chosen option; a checkbox the toggled list; a file input the picked file; image and date inputs report nothing |
| `Renderer.Delivered` | src/components/FormBuilder/FieldRenderer.tsx:40-44 | a value reaches the owner exactly when there is an `onChange` and a value was emitted |
| `Renderer.ToggleShowsState` | src/components/FormBuilder/FieldRenderer.tsx:124-150 | after a toggle, the box shows checked exactly when it was ticked |
| `Renderer.TickThenClear` | src/components/FormBuilder/FieldRenderer.tsx:124-150 | ticking then unticking an option gives the original list with every copy of that option removed |
| `Renderer.NumberRulesNeverFire` | src/components/FormBuilder/FieldRenderer.tsx:78-90 | what a number input reports is a string, so its min and max rules never apply |
| `Renderer.Hints` | src/components/FormBuilder/FieldRenderer.tsx:238-249 | hints appear only while editing a field with rules; each hint repeats a rule that is set (truthy for lengths and the pattern), and each such rule has its hint |
| `Renderer.HintsInDisplayOrder` | src/components/FormBuilder/FieldRenderer.tsx:242-250 | the hints are listed in the editor's order (min length, max length, pattern, min, max), each kind at most once |
| `Renderer.HintsAnnounceChecks` | src/components/FormBuilder/FieldRenderer.tsx:238-249 | every string or number issue a field can raise comes from a rule its editing hints announce |
| `Palette.BasicInRankOrder` | src/components/FormBuilder/FieldPalette.tsx:22-28 | the basic section lists text, textarea, number, email and phone |
| `Palette.AdvancedInRankOrder` | src/components/FormBuilder/FieldPalette.tsx:29-34 | the advanced section lists dropdown, checkbox, radio and date |
| `Palette.MediaInRankOrder` | src/components/FormBuilder/FieldPalette.tsx:35-38 | the media section lists image and file |
| `Palette.PaletteInRankOrder` | src/components/FormBuilder/FieldPalette.tsx:21-39 | the three sections together list the eleven kinds, each once, in a fixed order |
| `Palette.EveryKindOfferedOnce` | src/components/FormBuilder/FieldPalette.tsx:21-39 | every field type appears in the palette exactly once |
| `Palette.CreateFieldData` | src/components/FormBuilder/FieldPalette.tsx:45-77 | a new field from the palette has the entry's type and label, is optional, has placeholder "Enter " plus the lowered label, options 1-3 for choice types, and accept/multiple set for image ("image/*", single) and file ("*/*", multiple) |
| `Palette.NewFieldOptionsMatchPanel` | src/components/FormBuilder/FieldPalette.tsx:45-77 | a new field carries an option list exactly when the configuration panel offers the options section for its type |
| `Palette.Filtered` | src/components/FormBuilder/FieldPalette.tsx:88-91 | the search keeps exactly the entries whose label contains the search text, ignoring case |
| `Palette.FilteredAppend` | src/components/FormBuilder/FieldPalette.tsx:88-91 | filtering distributes over concatenation, so the survivors keep their catalogue order |
| `Palette.SectionShownIffSomeMatch` | src/components/FormBuilder/FieldPalette.tsx:125-130 | a section is drawn exactly when one of its labels matches; an empty search draws every section that has entries |
| `Palette.EmptySearchShowsAll` | src/components/FormBuilder/FieldPalette.tsx:88-91 | an empty search shows every entry |
| `Palette.LowerIdempotent` | src/components/FormBuilder/FieldPalette.tsx:88-91 | lowering twice is lowering once |
| `Palette.SearchIgnoresCase` | src/components/FormBuilder/FieldPalette.tsx:88-91 | searching for the lowered text shows the same entries |
| `Palette.PaletteState.constructor` | src/components/FormBuilder/FieldPalette.tsx:42 | the search box starts empty |
| `Palette.PaletteState.SetSearch` | src/components/FormBuilder/FieldPalette.tsx:42 | the search box holds what was typed |
| `Palette.PaletteState.HandleAddField` | src/components/FormBuilder/FieldPalette.tsx:84-86 | a click adds the entry's new field through `addField` |
| `Palette.DragEqualsClick` | src/components/FormBuilder/FieldPalette.tsx:79-86 | dragging an entry onto the canvas adds the same field as clicking it, and selects it |
| `PreviewLayout.ContainerClass` | src/components/FormBuilder/PreviewPanel.tsx:140-150 | the frame's classes are the base classes, a space and the device's width class |
| `PreviewLayout.ContainerClassDistinguishesModes` | src/components/FormBuilder/PreviewPanel.tsx:140-150 | different devices get different frame classes |
| `PreviewLayout.Progress` | src/components/FormFiller.tsx:110 | on a step in range the bar is above 0 and at most 100, and exactly 100 on the last step |
| `PreviewLayout.ProgressGrows` | src/components/FormFiller.tsx:110 | moving to the next step always raises the bar |

## Left out

- Persistence: `localStorage` reads and writes and the JSON round trip are not modelled. The constructor takes the persisted forms as a parameter, and saving updates only the in-memory list. The store never reads templates back from storage: its initial template list is always the two built-in ones, which the constructor reflects.
- Ids and clocks: `generateId`, `Date.now` and `new Date()` become parameters. Callers pass ids that are fresh among the siblings; the `requires` of `AddField`, `AddStep`, `SaveAsTemplate` and `HandleSave` say so.
- Regular expressions supplied by the user are the `PatternTest` parameter. A pattern that makes `new RegExp` throw is not modelled.
- Numbers are integers: `min`, `max` and number answers are floats in the source (from `parseFloat`), and `NaN` from an unparsable box is not modelled. `parseInt` of a non-numeric step choice is not modelled either.
- String length counts characters, not UTF-16 code units.
- `Lower` only folds ASCII letters; `toLowerCase` on other scripts is not modelled.
- `FieldConfig.ConfigPanel.UpdateOption`: requires an index the panel lists. The source would also write past the end for other indices, which the panel never does.
- `Store.FormStore.ReorderFields` and `Canvas.CanvasState.FieldDrop`: require indices within the field list, the only ones the canvas produces; the splice on an out-of-range index is not modelled.
- The configuration panel's close button calls `selectField(null)`, which is `Store.FormStore.SelectField`; it is not repeated as a panel method.
- The drop payload is parsed by `JSON.parse`; the model takes its outcome (`Unparsable`, `Untyped` or `Payload`) instead of the text.
- `handleLoadTemplate` in the template manager calls `loadTemplate` and shows a toast. It is `Store.FormStore.LoadTemplate`; toasts everywhere are left out.
- Renderer.Emitted: a date input reports nothing here; the ISO string the date picker emits comes from `Date`, a browser facility.
- The file reader, the date picker, date formatting, the export's JSON content, `Blob`, download links and the clipboard are browser facilities, not modelled.
- `handleSubmit` in the filler: the simulated delay, the stored submission record and the toasts are left out; only its validation gate is modelled.
- The loading and "form not found" screens are rendering; loading by id is `Store.FormStore.LoadFormById`.
- Rendering (JSX, icons, CSS classes other than the preview frame's) and routing are not modelled.
- `FormHeader` and the pages other than the filler are not part of this model.

## Findings

| source | as written | input that shows it | evidently intended | confidence | as-written member | corrected member |
|---|---|---|---|---|---|---|
| src/components/FormBuilder/PreviewPanel.tsx:74 | the preview's email pattern `/^[^s@]+@[^s@]+.[^s@]+$/` has lost its backslashes: it refuses the letter 's' and accepts any character in place of the dot | "sam@x.com" is refused; "a@bxc" is accepted | the filler's pattern `/^[^\s@]+@[^\s@]+\.[^\s@]+$/` | not executed | `Validator.PreviewEmailRefusesLetterS` | `Validator.FillerEmailAccepts` |
| src/components/FormBuilder/PreviewPanel.tsx:82-83 | the preview's phone pattern `/^[+]?[1-9][d]{0,15}$/` accepts only the letter 'd' after the first digit, and the cleanup strips the letter 's' instead of whitespace | "5551234" is refused | the filler's `/^[\+]?[1-9][\d]{0,15}$/` after removing `[-\s()]` | not executed | `Validator.PreviewPhoneExamples` | `Validator.FillerPhoneAcceptsDigits` |
| src/components/FormBuilder/TemplateManager.tsx:80 | the export file name uses `/s+/g`, which replaces runs of the letter 's' and leaves spaces in the name | "Contact Us" becomes "Contact U__template.json" | `/\s+/g`: "Contact_Us_template.json" | not executed | `Templates.ExportNameExample` | `Templates.IntendedExportFileName` |
