/** The field palette: the catalogue of field kinds in three sections, the
    payload a palette entry creates, and the label search. */
module Palette {
  import opened Basics
  import opened FormModel
  import opened JsText
  import opened FormDocument
  import opened Store
  import Canvas
  import FieldConfig

  /** One palette entry (its icon is left out). */
  datatype Entry = Entry(kind: FieldType, labelText: string, description: string)

  const BasicEntries: seq<Entry> := [
    Entry(Text, "Text Input", "Single line input"),
    Entry(Textarea, "Textarea", "Multi-line input"),
    Entry(Number, "Number", "Numeric input"),
    Entry(Email, "Email", "Email input"),
    Entry(Phone, "Phone", "Phone input")]

  const AdvancedEntries: seq<Entry> := [
    Entry(Select, "Dropdown", "Select from options"),
    Entry(Checkbox, "Checkbox", "Multiple options"),
    Entry(Radio, "Radio Button", "Single choice"),
    Entry(Date, "Date Picker", "Pick a date")]

  const MediaEntries: seq<Entry> := [
    Entry(Image, "Image Upload", "Upload an image"),
    Entry(File, "File Upload", "Upload any file")]

  function AllEntries(): seq<Entry> {
    BasicEntries + AdvancedEntries + MediaEntries
  }

  /** The position of each kind in the palette, top to bottom. */
  function KindRank(k: FieldType): nat {
    match k
    case Text => 0 case Textarea => 1 case Number => 2 case Email => 3
    case Phone => 4 case Select => 5 case Checkbox => 6 case Radio => 7
    case Date => 8 case Image => 9 case File => 10
  }

  /** Each section lists its kinds in rank order, starting at `offset`. */
  predicate RanksFrom(entries: seq<Entry>, offset: nat) {
    forall i :: 0 <= i < |entries| ==> KindRank(entries[i].kind) == offset + i
  }

  lemma BasicInRankOrder()
    ensures |BasicEntries| == 5 && RanksFrom(BasicEntries, 0)
  {
    var b := BasicEntries;
    assert b[0].kind == Text && b[1].kind == Textarea && b[2].kind == Number;
    assert b[3].kind == Email && b[4].kind == Phone;
  }

  lemma AdvancedInRankOrder()
    ensures |AdvancedEntries| == 4 && RanksFrom(AdvancedEntries, 5)
  {
    var a := AdvancedEntries;
    assert a[0].kind == Select && a[1].kind == Checkbox && a[2].kind == Radio && a[3].kind == Date;
  }

  lemma MediaInRankOrder()
    ensures |MediaEntries| == 2 && RanksFrom(MediaEntries, 9)
  {
    var m := MediaEntries;
    assert m[0].kind == Image && m[1].kind == File;
  }

  /** The palette lists the eleven kinds in rank order. */
  lemma PaletteInRankOrder()
    ensures |AllEntries()| == 11
    ensures RanksFrom(AllEntries(), 0)
  {
    BasicInRankOrder();
    AdvancedInRankOrder();
    MediaInRankOrder();
    var b, a, m := BasicEntries, AdvancedEntries, MediaEntries;
    var all := AllEntries();
    assert all == b + a + m;
    forall i | 0 <= i < |all|
      ensures KindRank(all[i].kind) == i
    {
      if i < 5 {
        assert all[i] == b[i];
      } else if i < 9 {
        assert all[i] == a[i - 5];
      } else {
        assert all[i] == m[i - 9];
      }
    }
  }

  /** Every field kind is offered by exactly one palette entry. */
  lemma EveryKindOfferedOnce(k: FieldType)
    ensures exists i :: 0 <= i < |AllEntries()| && AllEntries()[i].kind == k
    ensures forall i, j :: 0 <= i < j < |AllEntries()| ==> AllEntries()[i].kind != AllEntries()[j].kind
  {
    PaletteInRankOrder();
    var i := KindRank(k);
    var x := AllEntries()[i].kind;
    assert KindRank(x) == i;
    assert x == k by {
      match k
      case Text => case Textarea => case Number => case Email =>
      case Phone => case Select => case Checkbox => case Radio =>
      case Date => case Image => case File =>
    }
  }

  /** `createFieldData`: an optional field labelled like the entry, with
      placeholder "Enter <label in lower case>", three stock options for
      choice kinds, and the accept/multiple keys for media kinds. */
  function CreateFieldData(e: Entry): (d: FieldDraft)
    ensures d.kind == e.kind && d.labelText == e.labelText && !d.required
    ensures d.placeholder == Some("Enter " + Lower(e.labelText))
    ensures d.options.Some? <==> e.kind == Select || e.kind == Radio || e.kind == Checkbox
    ensures d.options.Some? ==> d.options.value == ["Option 1", "Option 2", "Option 3"]
    ensures d.accept.Some? <==> e.kind == Image || e.kind == File
    ensures e.kind == Image ==> d.accept == Some("image/*") && d.multiple == Some(false)
    ensures e.kind == File ==> d.accept == Some("*/*") && d.multiple == Some(true)
    ensures d.multiple.Some? <==> d.accept.Some?
    ensures d.helpText.None? && d.validation.None? && d.step.None?
  {
    var base := FieldDraft(e.kind, e.labelText, Some("Enter " + Lower(e.labelText)), false,
                           None, None, None, None, None, None);
    if e.kind == Select || e.kind == Radio || e.kind == Checkbox then
      base.(options := Some(["Option 1", "Option 2", "Option 3"]))
    else if e.kind == Image then base.(accept := Some("image/*"), multiple := Some(false))
    else if e.kind == File then base.(accept := Some("*/*"), multiple := Some(true))
    else base
  }

  /** A new field carries an option list exactly when the configuration
      panel offers the options section for its type. */
  lemma NewFieldOptionsMatchPanel(e: Entry)
    ensures CreateFieldData(e).options.Some? <==> FieldConfig.SupportsOptions(e.kind)
  {
  }

  /** What a drag from the palette carries onto the canvas. */
  function DragPayload(e: Entry): Canvas.DropPayload {
    Canvas.Payload(CreateFieldData(e))
  }

  /** The search test: the lower-cased label contains the lower-cased
      query. */
  predicate Matches(e: Entry, search: string) {
    Contains(Lower(e.labelText), Lower(search))
  }

  /** The entries of a section that survive the search, in catalogue
      order. */
  function Filtered(entries: seq<Entry>, search: string): (r: seq<Entry>)
    ensures |r| <= |entries|
    ensures forall i :: 0 <= i < |r| ==> r[i] in entries && Matches(r[i], search)
    ensures forall i :: 0 <= i < |entries| && Matches(entries[i], search) ==> entries[i] in r
  {
    if entries == [] then []
    else if Matches(entries[0], search) then [entries[0]] + Filtered(entries[1..], search)
    else Filtered(entries[1..], search)
  }

  /** Filtering two runs of entries is filtering each: the survivors keep
      their catalogue order. */
  lemma {:induction false} FilteredAppend(a: seq<Entry>, b: seq<Entry>, search: string)
    ensures Filtered(a + b, search) == Filtered(a, search) + Filtered(b, search)
  {
    if a == [] {
      assert a + b == b;
    } else {
      assert (a + b)[0] == a[0] && (a + b)[1..] == a[1..] + b;
      FilteredAppend(a[1..], b, search);
    }
  }

  /** A section is drawn only when some entry survives the search. */
  predicate SectionShown(entries: seq<Entry>, search: string) {
    Filtered(entries, search) != []
  }

  /** A section is hidden exactly when none of its labels matches, and an
      empty search hides no section that has entries. */
  lemma SectionShownIffSomeMatch(entries: seq<Entry>, search: string)
    ensures SectionShown(entries, search) <==> exists i :: 0 <= i < |entries| && Matches(entries[i], search)
    ensures entries != [] ==> SectionShown(entries, "")
  {
    if SectionShown(entries, search) {
      var r := Filtered(entries, search);
      var k :| 0 <= k < |entries| && entries[k] == r[0];
    }
    if entries != [] {
      EmptySearchShowsAll(entries);
    }
  }

  /** An empty search shows every entry of every section. */
  lemma {:induction false} EmptySearchShowsAll(entries: seq<Entry>)
    ensures Filtered(entries, "") == entries
  {
    if entries != [] {
      assert OccursAt(Lower(entries[0].labelText), Lower(""), 0);
      EmptySearchShowsAll(entries[1..]);
    }
  }

  /** Lower-casing twice is lower-casing once. */
  lemma LowerIdempotent(s: string)
    ensures Lower(Lower(s)) == Lower(s)
  {
    forall i | 0 <= i < |s| ensures Lower(Lower(s))[i] == Lower(s)[i] {
      var c := s[i];
      if 'A' <= c <= 'Z' {
        assert LowerChar(c) as int == c as int + 32;
      }
    }
  }

  /** The search ignores the case of the query. */
  lemma SearchIgnoresCase(entries: seq<Entry>, search: string)
    ensures Filtered(entries, Lower(search)) == Filtered(entries, search)
  {
    LowerIdempotent(search);
  }

  /** The palette's own state: the search text. */
  class PaletteState {
    var search: string

    constructor ()
      ensures search == ""
    {
      search := "";
    }

    method SetSearch(text: string)
      modifies this`search
      ensures search == text
    {
      search := text;
    }

    /** `handleAddField`: a click adds the entry's payload to the form. */
    method HandleAddField(store: FormStore, e: Entry, id: string, now: int)
      requires store.currentForm.Some? ==> !HasFieldId(store.currentForm.value.fields, id)
      modifies store`currentForm, store`selectedFieldId, store`savedForms
      ensures old(store.currentForm).None? ==>
        store.currentForm == None && store.selectedFieldId == old(store.selectedFieldId) &&
        store.savedForms == old(store.savedForms)
      ensures old(store.currentForm).Some? ==>
        store.currentForm == Some(AppendField(old(store.currentForm).value, CreateFieldData(e), id, now)) &&
        store.selectedFieldId == Some(id) &&
        store.savedForms == Upsert(old(store.savedForms), store.currentForm.value)
    {
      store.AddField(CreateFieldData(e), id, now);
    }
  }

  /** Dragging an entry onto the canvas adds the same field as clicking it;
      only the drag also turns the drop highlight off. */
  method DragEqualsClick(store: FormStore, canvas: Canvas.CanvasState, e: Entry, id: string, now: int)
    requires store.currentForm.Some? && !HasFieldId(store.currentForm.value.fields, id)
    modifies store`currentForm, store`selectedFieldId, store`savedForms, store`isDraggingOver
    ensures store.currentForm == Some(AppendField(old(store.currentForm).value, CreateFieldData(e), id, now))
    ensures store.selectedFieldId == Some(id) && !store.isDraggingOver
  {
    canvas.HandleDrop(store, DragPayload(e), id, now);
  }
}
