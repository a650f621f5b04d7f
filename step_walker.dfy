/** Walking a form one step at a time, as the form filler and the live
    preview both do: which fields a step shows, how many steps there are,
    validating the current step's answers, and moving between steps. */
module StepWalker {
  import opened Basics
  import opened FormModel
  import opened Validator

  /** The fields of a multi-step form assigned to step `k`, in form order. */
  function FieldsOnStep(fields: seq<Field>, k: nat): (r: seq<Field>)
    ensures |r| <= |fields|
    ensures forall i :: 0 <= i < |r| ==> r[i].step == Some(k as int) && r[i] in fields
    ensures forall i :: 0 <= i < |fields| && fields[i].step == Some(k as int) ==> fields[i] in r
  {
    if fields == [] then []
    else if fields[0].step == Some(k as int) then [fields[0]] + FieldsOnStep(fields[1..], k)
    else FieldsOnStep(fields[1..], k)
  }

  /** Filtering a step's fields out of two runs of fields is filtering
      each run: a step keeps the relative order of its fields. */
  lemma {:induction false} FieldsOnStepAppend(a: seq<Field>, b: seq<Field>, k: nat)
    ensures FieldsOnStep(a + b, k) == FieldsOnStep(a, k) + FieldsOnStep(b, k)
  {
    if a == [] {
      assert a + b == b;
    } else {
      assert (a + b)[0] == a[0];
      assert (a + b)[1..] == a[1..] + b;
      FieldsOnStepAppend(a[1..], b, k);
    }
  }

  /** `getFieldsForStep`: every field of a single-step form, or the fields
      assigned to step `k`. */
  function FieldsForStep(form: Form, k: nat): (r: seq<Field>)
    ensures !form.isMultiStep ==> r == form.fields
    ensures form.isMultiStep ==> r == FieldsOnStep(form.fields, k)
  {
    if !form.isMultiStep then form.fields else FieldsOnStep(form.fields, k)
  }

  /** On a multi-step form a field with no step, or with a step number no
      step has, is shown on no step at all. */
  lemma UnplacedFieldIsHidden(form: Form, x: Field, k: nat)
    requires form.isMultiStep && x.step != Some(k as int)
    ensures x !in FieldsForStep(form, k)
  {
  }

  /** `totalSteps`: the number of steps of a multi-step form that has any,
      else one. */
  function TotalSteps(form: Form): (n: nat)
    ensures n >= 1
    ensures form.isMultiStep && form.steps.Some? && |form.steps.value| > 0 ==> n == |form.steps.value|
    ensures !form.isMultiStep ==> n == 1
    ensures form.isMultiStep && (form.steps.None? || |form.steps.value| == 0) ==> n == 1
  {
    if form.isMultiStep && form.steps.Some? && |form.steps.value| > 0 then |form.steps.value| else 1
  }

  /** The answer stored for a field id; missing answers are `undefined`. */
  function Answer(data: map<string, Value>, id: string): Value {
    if id in data then data[id] else Absent
  }

  function OutcomeOf(d: Dialect, x: Field, data: map<string, Value>, test: PatternTest): Outcome {
    ValidateField(d, x, Answer(data, x.id), test)
  }

  /** The errors of a run of fields, collected in order: a failing field
      records its first issue under its id; a field whose check throws
      aborts the whole collection (`None`). */
  function StepErrors(d: Dialect, fields: seq<Field>, data: map<string, Value>, test: PatternTest): Option<map<string, Issue>>
    decreases |fields|
  {
    if fields == [] then Some(map[])
    else
      var before := StepErrors(d, fields[..|fields| - 1], data, test);
      var x := fields[|fields| - 1];
      match OutcomeOf(d, x, data, test)
      case Threw => None
      case Pass => before
      case Fail(issue) => if before.None? then None else Some(before.value[x.id := issue])
  }

  /** Once a field has thrown, collecting a longer run throws as well. */
  lemma {:induction false} StepErrorsAbortSticks(d: Dialect, fields: seq<Field>, i: nat, data: map<string, Value>, test: PatternTest)
    requires i <= |fields|
    requires StepErrors(d, fields[..i], data, test).None?
    ensures StepErrors(d, fields, data, test).None?
    decreases |fields| - i
  {
    if i < |fields| {
      assert fields[..i + 1][..i] == fields[..i];
      StepErrorsAbortSticks(d, fields, i + 1, data, test);
    } else {
      assert fields[..i] == fields;
    }
  }

  /** Collection aborts exactly when some field's check throws. */
  lemma {:induction false} StepErrorsAborts(d: Dialect, fields: seq<Field>, data: map<string, Value>, test: PatternTest)
    ensures StepErrors(d, fields, data, test).None? <==>
      exists i :: 0 <= i < |fields| && OutcomeOf(d, fields[i], data, test).Threw?
    decreases |fields|
  {
    if fields != [] {
      var init := fields[..|fields| - 1];
      StepErrorsAborts(d, init, data, test);
      assert forall i :: 0 <= i < |init| ==> init[i] == fields[i];
    }
  }

  /** When collection completes, an id carries an error exactly when some
      field with that id failed. */
  lemma {:induction false} StepErrorsKeys(d: Dialect, fields: seq<Field>, data: map<string, Value>, test: PatternTest, id: string)
    requires StepErrors(d, fields, data, test).Some?
    ensures id in StepErrors(d, fields, data, test).value <==>
      exists i :: 0 <= i < |fields| && fields[i].id == id && OutcomeOf(d, fields[i], data, test).Fail?
    decreases |fields|
  {
    if fields != [] {
      var init := fields[..|fields| - 1];
      assert StepErrors(d, init, data, test).Some?;
      StepErrorsKeys(d, init, data, test, id);
      assert forall i :: 0 <= i < |init| ==> init[i] == fields[i];
    }
  }

  /** With distinct ids, the error recorded under a failing field's id is
      that field's first issue. */
  lemma {:induction false} StepErrorsIssue(d: Dialect, fields: seq<Field>, data: map<string, Value>, test: PatternTest, j: nat)
    requires UniqueFieldIds(fields) && j < |fields|
    requires StepErrors(d, fields, data, test).Some?
    requires OutcomeOf(d, fields[j], data, test).Fail?
    ensures fields[j].id in StepErrors(d, fields, data, test).value
    ensures StepErrors(d, fields, data, test).value[fields[j].id] == OutcomeOf(d, fields[j], data, test).issue
    decreases |fields|
  {
    var init := fields[..|fields| - 1];
    assert StepErrors(d, init, data, test).Some?;
    if j < |fields| - 1 {
      assert UniqueFieldIds(init) by {
        forall a, b | 0 <= a < b < |init| ensures init[a].id != init[b].id {
          assert init[a] == fields[a] && init[b] == fields[b];
        }
      }
      StepErrorsIssue(d, init, data, test, j);
      assert fields[j] == init[j];
      assert fields[j].id != fields[|fields| - 1].id;
    }
  }

  /** A step passes exactly when every one of its fields passes. */
  lemma StepPassesIffAllPass(d: Dialect, fields: seq<Field>, data: map<string, Value>, test: PatternTest)
    ensures StepErrors(d, fields, data, test) == Some(map[]) <==>
      forall i :: 0 <= i < |fields| ==> OutcomeOf(d, fields[i], data, test).Pass?
  {
    StepErrorsAborts(d, fields, data, test);
    if StepErrors(d, fields, data, test).Some? {
      var m := StepErrors(d, fields, data, test).value;
      forall i | 0 <= i < |fields| && m == map[]
        ensures OutcomeOf(d, fields[i], data, test).Pass?
      {
        StepErrorsKeys(d, fields, data, test, fields[i].id);
      }
      if forall i :: 0 <= i < |fields| ==> OutcomeOf(d, fields[i], data, test).Pass? {
        forall id ensures id !in m {
          StepErrorsKeys(d, fields, data, test, id);
        }
      }
    }
  }

  /** The `forEach` of `validateCurrentStep` over a step's fields. */
  method CollectStepErrors(d: Dialect, fields: seq<Field>, data: map<string, Value>, test: PatternTest)
    returns (r: Option<map<string, Issue>>)
    ensures r == StepErrors(d, fields, data, test)
  {
    var acc: map<string, Issue> := map[];
    var i := 0;
    while i < |fields|
      invariant 0 <= i <= |fields|
      invariant StepErrors(d, fields[..i], data, test) == Some(acc)
    {
      assert fields[..i + 1][..i] == fields[..i];
      var o := OutcomeOf(d, fields[i], data, test);
      if o.Threw? {
        StepErrorsAbortSticks(d, fields, i + 1, data, test);
        return None;
      }
      if o.Fail? {
        acc := acc[fields[i].id := o.issue];
      }
      i := i + 1;
    }
    assert fields[..i] == fields;
    r := Some(acc);
  }

  /** Whether the footer shows "Next" (otherwise it shows the submit
      button). */
  predicate ShowsNext(form: Form, k: nat) {
    form.isMultiStep && k + 1 < TotalSteps(form)
  }

  /** On any step the footer offers submitting exactly when the form has a
      single step or the step is the last one; "Next" is shown only where
      `handleNext` can move on. */
  lemma SubmitOnLastStep(form: Form, k: nat)
    requires k < TotalSteps(form)
    ensures !ShowsNext(form, k) <==> !form.isMultiStep || k == TotalSteps(form) - 1
    ensures ShowsNext(form, k) ==> k + 1 < TotalSteps(form)
    ensures !form.isMultiStep ==> !ShowsNext(form, k) && k == 0
  {
  }

  /** The state of one filling session: the step shown, the answers given
      so far and the errors on display. */
  class StepCursor {
    var currentStep: nat
    var formData: map<string, Value>
    var errors: map<string, Issue>

    constructor ()
      ensures currentStep == 0 && formData == map[] && errors == map[]
    {
      currentStep := 0;
      formData := map[];
      errors := map[];
    }

    function CurrentErrors(form: Form, d: Dialect, test: PatternTest): Option<map<string, Issue>>
      reads this
    {
      StepErrors(d, FieldsForStep(form, currentStep), formData, test)
    }

    /** `validateCurrentStep`: replaces the shown errors by the current
        step's and says whether there are none; `None` when a check threw,
        which leaves the errors as they were. */
    method ValidateCurrentStep(form: Form, d: Dialect, test: PatternTest) returns (ok: Option<bool>)
      modifies this`errors
      ensures var s := CurrentErrors(form, d, test);
        (s.None? ==> ok.None? && errors == old(errors)) &&
        (s.Some? ==> ok == Some(s.value == map[]) && errors == s.value)
    {
      var s := CollectStepErrors(d, FieldsForStep(form, currentStep), formData, test);
      if s.None? {
        return None;
      }
      errors := s.value;
      ok := Some(s.value == map[]);
    }

    /** `handleFieldChange`: stores the answer and clears that field's
        error, and no other. */
    method HandleFieldChange(id: string, v: Value)
      modifies this`formData, this`errors
      ensures formData == old(formData)[id := v]
      ensures errors == old(errors) - {id}
    {
      formData := formData[id := v];
      if id in errors {
        errors := errors - {id};
      }
    }

    /** `handleNext`: advances one step when the current step is valid and
        is not the last. */
    method HandleNext(form: Form, d: Dialect, test: PatternTest)
      modifies this`errors, this`currentStep
      ensures currentStep ==
        if old(CurrentErrors(form, d, test)) == Some(map[]) && old(currentStep) + 1 < TotalSteps(form)
        then old(currentStep) + 1 else old(currentStep)
      ensures old(currentStep) < TotalSteps(form) ==> currentStep < TotalSteps(form)
      ensures var s := old(CurrentErrors(form, d, test));
        errors == if s.Some? then s.value else old(errors)
    {
      var ok := ValidateCurrentStep(form, d, test);
      if ok == Some(true) && currentStep + 1 < TotalSteps(form) {
        currentStep := currentStep + 1;
      }
    }

    /** `handlePrevious`: goes back one step unless on the first. */
    method HandlePrevious()
      modifies this`currentStep
      ensures currentStep == if old(currentStep) > 0 then old(currentStep) - 1 else 0
    {
      if currentStep > 0 {
        currentStep := currentStep - 1;
      }
    }

    /** The gate of `handleSubmit`: submission goes ahead only when the
        current step has no errors. */
    method HandleSubmit(form: Form, d: Dialect, test: PatternTest) returns (submitted: bool)
      modifies this`errors
      ensures submitted <==> old(CurrentErrors(form, d, test)) == Some(map[])
      ensures var s := old(CurrentErrors(form, d, test));
        errors == if s.Some? then s.value else old(errors)
    {
      var ok := ValidateCurrentStep(form, d, test);
      submitted := ok == Some(true);
    }
  }
}
