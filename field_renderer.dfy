/** How one field turns user input into the value it hands to its
    `onChange` callback, and which rule hints it shows while the form is
    being edited. */
module Renderer {
  import opened Basics
  import opened FormModel
  import opened ListOps
  import opened Validator

  /** One input event, as the browser delivers it to the field. */
  datatype InputEvent =
    | Typed(raw: string)                   // text, email, phone, number, textarea
    | Chose(option: string)                // select, radio
    | Toggled(option: string, on: bool)    // one box of a checkbox group
    | Picked(file: Option<string>)         // file or image input; the name of the first file

  /** Whether a box of a checkbox group is ticked for the current value. */
  predicate Checked(current: Value, option: string) {
    current.List? && option in current.items
  }

  /** The array a checkbox toggle emits: the option appended when ticked,
      every copy of it removed when cleared. */
  function ToggledItems(current: Value, option: string, on: bool): (r: seq<string>)
    ensures on ==> r == (if current.List? then current.items else []) + [option]
    ensures !on ==> r == RemoveAll(if current.List? then current.items else [], option)
    ensures !on ==> option !in r
  {
    var items := if current.List? then current.items else [];
    if on then items + [option] else RemoveAll(items, option)
  }

  /** The value a field emits for an event, or `None`. Inputs are disabled
      while editing, and the checkbox toggle checks that as well; a picked
      image only updates the preview; a number box emits its text. */
  function Emitted(kind: FieldType, isEditing: bool, current: Value, e: InputEvent): (r: Option<Value>)
    ensures isEditing ==> r.None?
    ensures !isEditing && kind in {Text, Email, Phone, Number, Textarea} ==>
      r == if e.Typed? then Some(Str(e.raw)) else None
    ensures !isEditing && kind in {Select, Radio} ==>
      r == if e.Chose? then Some(Str(e.option)) else None
    ensures !isEditing && kind == Checkbox ==>
      r == if e.Toggled? then Some(List(ToggledItems(current, e.option, e.on))) else None
    ensures !isEditing && kind == File ==>
      r == if e.Picked? && e.file.Some? then Some(Upload(e.file.value)) else None
    ensures kind == Image || kind == Date ==> r.None?
  {
    if isEditing then None
    else match kind
      case Text | Email | Phone | Number | Textarea =>
        if e.Typed? then Some(Str(e.raw)) else None
      case Select | Radio =>
        if e.Chose? then Some(Str(e.option)) else None
      case Checkbox =>
        if e.Toggled? then Some(List(ToggledItems(current, e.option, e.on))) else None
      case Date => None
      case Image => None
      case File =>
        if e.Picked? && e.file.Some? then Some(Upload(e.file.value)) else None
  }

  /** `handleChange`: the value reaches the form only when the field has an
      `onChange` callback. */
  function Delivered(hasOnChange: bool, emitted: Option<Value>): (r: Option<Value>)
    ensures r.Some? <==> hasOnChange && emitted.Some?
    ensures r.Some? ==> r == emitted
  {
    if hasOnChange then emitted else None
  }

  /** Ticking a box shows it ticked, and clearing it shows it cleared. */
  lemma ToggleShowsState(current: Value, option: string, on: bool)
    ensures Checked(List(ToggledItems(current, option, on)), option) == on
  {
  }

  /** Ticking and then clearing a box gives the value it would have had
      with every copy of the option cleared. */
  lemma TickThenClear(items: seq<string>, option: string)
    ensures ToggledItems(List(ToggledItems(List(items), option, true)), option, false) ==
            RemoveAll(items, option)
  {
    RemoveAllAppend(items, [option], option);
    assert RemoveAll([option], option) == [];
    assert RemoveAll(items, option) + [] == RemoveAll(items, option);
  }

  /** A number field is filled with the text of its box, so the min and max
      rules of the validator never fire on what the renderer emits. */
  lemma NumberRulesNeverFire(d: Dialect, x: Field, current: Value, e: InputEvent, test: PatternTest)
    requires x.kind == Number
    requires Emitted(Number, false, current, e).Some?
    ensures var o := ValidateField(d, x, Emitted(Number, false, current, e).value, test);
      !(o.Fail? && (o.issue.BelowMin? || o.issue.AboveMax?))
  {
  }

  /** A rule hint under a field in edit mode. */
  datatype Hint = MinLengthHint(n: int) | MaxLengthHint(n: int) | PatternHint(p: string) | MinHint(n: int) | MaxHint(n: int)

  /** The place of each kind of hint in the list the editor renders. */
  function HintRank(h: Hint): nat {
    match h
    case MinLengthHint(_) => 0
    case MaxLengthHint(_) => 1
    case PatternHint(_) => 2
    case MinHint(_) => 3
    case MaxHint(_) => 4
  }

  /** Hints listed in strictly increasing rank: in display order, and no
      kind twice. */
  predicate RankSorted(r: seq<Hint>) {
    forall i, j :: 0 <= i < j < |r| ==> HintRank(r[i]) < HintRank(r[j])
  }

  /** A hint belongs to the rules: it repeats a set rule's value, and a
      length or pattern hint needs a truthy value. */
  predicate HintFor(h: Hint, rl: Rules) {
    match h
    case MinLengthHint(n) => rl.minLength == Some(n) && n != 0
    case MaxLengthHint(n) => rl.maxLength == Some(n) && n != 0
    case PatternHint(p) => rl.pattern == Some(p) && p != ""
    case MinHint(n) => rl.min == Some(n)
    case MaxHint(n) => rl.max == Some(n)
  }

  /** One hint, shown only when its rule is set. */
  function OptHint(on: bool, h: Hint): (b: seq<Hint>)
    ensures on ==> b == [h]
    ensures !on ==> b == []
  {
    if on then [h] else []
  }

  /** The hints shown in edit mode: length and pattern hints when their
      value is truthy, min and max hints whenever they are set. */
  function Hints(isEditing: bool, v: Option<Rules>): (r: seq<Hint>)
    ensures !isEditing || v.None? ==> r == []
    ensures |r| <= 5
    ensures forall h :: h in r ==> v.Some? && HintFor(h, v.value)
    ensures isEditing && v.Some? ==>
      var rl := v.value;
      (rl.minLength.Some? && rl.minLength.value != 0 ==> MinLengthHint(rl.minLength.value) in r) &&
      (rl.maxLength.Some? && rl.maxLength.value != 0 ==> MaxLengthHint(rl.maxLength.value) in r) &&
      (rl.pattern.Some? && rl.pattern.value != "" ==> PatternHint(rl.pattern.value) in r) &&
      (rl.min.Some? ==> MinHint(rl.min.value) in r) &&
      (rl.max.Some? ==> MaxHint(rl.max.value) in r)
  {
    if !isEditing || v.None? then []
    else
      var rl := v.value;
      OptHint(rl.minLength.Some? && rl.minLength.value != 0, MinLengthHint(rl.minLength.GetOr(0))) +
      OptHint(rl.maxLength.Some? && rl.maxLength.value != 0, MaxLengthHint(rl.maxLength.GetOr(0))) +
      OptHint(rl.pattern.Some? && rl.pattern.value != "", PatternHint(rl.pattern.GetOr(""))) +
      OptHint(rl.min.Some?, MinHint(rl.min.GetOr(0))) +
      OptHint(rl.max.Some?, MaxHint(rl.max.GetOr(0)))
  }

  /** Every listed hint ranks below `k`. */
  predicate RanksBelow(a: seq<Hint>, k: nat) {
    forall i :: 0 <= i < |a| ==> HintRank(a[i]) < k
  }

  /** Appending at most one hint that ranks after everything listed keeps
      the list in display order. */
  lemma RankSortedSnoc(a: seq<Hint>, b: seq<Hint>, h: Hint)
    requires RankSorted(a) && RanksBelow(a, HintRank(h))
    requires b == [] || b == [h]
    ensures RankSorted(a + b) && RanksBelow(a + b, HintRank(h) + 1)
  {
  }

  /** The hints come in the editor's display order (min length, max
      length, pattern, min, max), so no kind of hint is shown twice. */
  lemma HintsInDisplayOrder(isEditing: bool, v: Option<Rules>)
    ensures RankSorted(Hints(isEditing, v))
  {
    if isEditing && v.Some? {
      var rl := v.value;
      var h0, h1, h2 := MinLengthHint(rl.minLength.GetOr(0)), MaxLengthHint(rl.maxLength.GetOr(0)), PatternHint(rl.pattern.GetOr(""));
      var h3, h4 := MinHint(rl.min.GetOr(0)), MaxHint(rl.max.GetOr(0));
      var b0 := OptHint(rl.minLength.Some? && rl.minLength.value != 0, h0);
      var b1 := OptHint(rl.maxLength.Some? && rl.maxLength.value != 0, h1);
      var b2 := OptHint(rl.pattern.Some? && rl.pattern.value != "", h2);
      var b3 := OptHint(rl.min.Some?, h3);
      var b4 := OptHint(rl.max.Some?, h4);
      var c1, c2, c3 := b0 + b1, b0 + b1 + b2, b0 + b1 + b2 + b3;
      assert Hints(isEditing, v) == c3 + b4;
      assert RankSorted(b0) && RanksBelow(b0, 1);
      RankSortedSnoc(b0, b1, h1);
      RankSortedSnoc(c1, b2, h2);
      RankSortedSnoc(c2, b3, h3);
      RankSortedSnoc(c3, b4, h4);
    }
  }

  /** Every rule failure the validator can report is announced by a hint in
      edit mode: the hints and the checks skip the same unset rules. */
  lemma HintsAnnounceChecks(x: Field, v: Value, test: PatternTest, d: Dialect)
    requires x.validation.Some?
    ensures var o := ValidateField(d, x, v, test);
      var h := Hints(true, x.validation);
      (o.Fail? && o.issue.TooShort? ==> MinLengthHint(o.issue.minLength) in h) &&
      (o.Fail? && o.issue.TooLong? ==> MaxLengthHint(o.issue.maxLength) in h) &&
      (o == Fail(BadPattern) ==> PatternHint(x.validation.value.pattern.value) in h) &&
      (o.Fail? && o.issue.BelowMin? ==> MinHint(o.issue.min) in h) &&
      (o.Fail? && o.issue.AboveMax? ==> MaxHint(o.issue.max) in h)
  {
    var o := ValidateField(d, x, v, test);
    var rl := x.validation.value;
    var h := Hints(true, x.validation);
    if o.Fail? && o.issue.TooShort? {
      assert rl.minLength.Some? && rl.minLength.value != 0;
    }
  }
}
