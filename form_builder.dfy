/** The data-collection form builder (src/components/settings/FormBuilder.tsx):
    a list of form fields edited by index, reordered by dragging one field over
    another, with select fields carrying a list of option texts. */
module FormBuilder {
  import opened Seqs

  datatype FieldType = Text | Number | Date | Select | Checkbox | Textarea

  /** A form field (`label` is written `fieldLabel`, `type` `fieldType`); `options` is present only for fields that have been made selects. */
  datatype FormField = FormField(id: string, fieldLabel: string, fieldType: FieldType, required: bool, options: Option<seq<string>>)

  /** `Partial<FormField>`.  For `options` the patch distinguishes a missing key
      (`None`: keep) from a key written as `undefined` (`Some(None)`: clear). */
  datatype FieldPatch = FieldPatch(
    id: Option<string>,
    fieldLabel: Option<string>,
    fieldType: Option<FieldType>,
    required: Option<bool>,
    options: Option<Option<seq<string>>>)

  const NoChange := FieldPatch(None, None, None, None, None)

  /** `{ ...field, ...updates }`. */
  function MergeField(f: FormField, u: FieldPatch): (r: FormField)
    ensures u == NoChange ==> r == f
    ensures u.id.Some? ==> r.id == u.id.value
    ensures u.id.None? ==> r.id == f.id
    ensures u.fieldLabel.Some? ==> r.fieldLabel == u.fieldLabel.value
    ensures u.fieldLabel.None? ==> r.fieldLabel == f.fieldLabel
    ensures u.fieldType.Some? ==> r.fieldType == u.fieldType.value
    ensures u.fieldType.None? ==> r.fieldType == f.fieldType
    ensures u.required.Some? ==> r.required == u.required.value
    ensures u.required.None? ==> r.required == f.required
    ensures u.options.Some? ==> r.options == u.options.value
    ensures u.options.None? ==> r.options == f.options
  {
    FormField(Pick(u.id, f.id), Pick(u.fieldLabel, f.fieldLabel), Pick(u.fieldType, f.fieldType),
              Pick(u.required, f.required), Pick(u.options, f.options))
  }

  /** The blank field `addField` appends at instant `now`. */
  function BlankField(now: nat): (f: FormField)
    ensures f.id == NatToString(now) && f.fieldLabel == "" && f.fieldType == Text && !f.required && f.options.None?
  {
    FormField(NatToString(now), "", Text, false, None)
  }

  /** The patch the type selector sends: a select starts with one empty option, any other type drops the options. */
  function TypeChange(t: FieldType): (u: FieldPatch)
    ensures u.fieldType == Some(t) && u.options.Some?
    ensures u.options.value == if t == Select then Some([""]) else None
    ensures u.id.None? && u.fieldLabel.None? && u.required.None?
  {
    FieldPatch(None, None, Some(t), None, Some(if t == Select then Some([""]) else None))
  }

  /** `s.filter((_, i) => i !== k)`: the element at `k` dropped, when there is one. */
  function RemoveAt<T>(s: seq<T>, k: int): (r: seq<T>)
    ensures 0 <= k < |s| ==> |r| == |s| - 1
    ensures !(0 <= k < |s|) ==> r == s
    ensures 0 <= k < |s| ==> forall i :: 0 <= i < |r| ==> r[i] == if i < k then s[i] else s[i + 1]
  {
    if 0 <= k < |s| then s[..k] + s[k + 1..] else s
  }

  /** `s.splice(k, 0, x)`: `x` inserted before position `k`. */
  function Insert<T>(s: seq<T>, k: int, x: T): (r: seq<T>)
    requires 0 <= k <= |s|
    ensures |r| == |s| + 1 && r[k] == x
    ensures forall i :: 0 <= i < |r| && i != k ==> r[i] == if i < k then s[i] else s[i - 1]
  {
    s[..k] + [x] + s[k..]
  }

  /** The two splices of a drag-over: the dragged field taken out and put back at `to`. */
  function Move<T>(s: seq<T>, from: int, to: int): seq<T>
    requires 0 <= from < |s| && 0 <= to < |s|
  {
    Insert(RemoveAt(s, from), to, s[from])
  }

  /** `fields.map((field, i) => i === index ? { ...field, ...updates } : field)`. */
  function UpdateAt(fields: seq<FormField>, index: int, u: FieldPatch): (r: seq<FormField>)
    ensures |r| == |fields|
    ensures forall i :: 0 <= i < |fields| ==> r[i] == if i == index then MergeField(fields[i], u) else fields[i]
  {
    seq(|fields|, i requires 0 <= i < |fields| => if i == index then MergeField(fields[i], u) else fields[i])
  }

  /** The option list after typing `value` into option `k`. */
  function EditOption(options: Option<seq<string>>, k: int, value: string): seq<string>
    requires options.Some? && 0 <= k < |options.value|
  {
    options.value[k := value]
  }

  /** The option list after removing option `k` (absent options stay absent). */
  function DropOption(options: Option<seq<string>>, k: int): Option<seq<string>> {
    if options.Some? then Some(RemoveAt(options.value, k)) else None
  }

  /** The option list after `+ Add Option`. */
  function AddOption(options: Option<seq<string>>): seq<string> {
    (if options.Some? then options.value else []) + [""]
  }

  /** The builder's state. */
  class Builder {
    var fields: seq<FormField>
    var draggedField: Option<int>

    constructor()
      ensures fields == [] && draggedField.None?
    {
      fields := [];
      draggedField := None;
    }

    method AddField(now: nat)
      modifies this
      ensures fields == old(fields) + [BlankField(now)] && draggedField == old(draggedField)
    {
      fields := fields + [BlankField(now)];
    }

    method UpdateField(index: int, updates: FieldPatch)
      modifies this
      ensures fields == UpdateAt(old(fields), index, updates) && draggedField == old(draggedField)
    {
      fields := UpdateAt(fields, index, updates);
    }

    method RemoveField(index: int)
      modifies this
      ensures fields == RemoveAt(old(fields), index) && draggedField == old(draggedField)
    {
      fields := RemoveAt(fields, index);
    }

    method HandleDragStart(index: int)
      modifies this
      ensures draggedField == Some(index) && fields == old(fields)
    {
      draggedField := Some(index);
    }

    /** A drag-over on row `index`; both the dragged and the hovered index are rows on screen. */
    method HandleDragOver(index: int)
      requires 0 <= index < |fields|
      requires draggedField.Some? ==> 0 <= draggedField.value < |fields|
      modifies this
      ensures old(draggedField).None? ==> fields == old(fields) && draggedField == old(draggedField)
      ensures old(draggedField).Some? ==>
        fields == Move(old(fields), old(draggedField).value, index) && draggedField == Some(index)
    {
      if draggedField.None? {
        return;
      }
      var newFields := fields;
      var draggedItem := newFields[draggedField.value];
      newFields := RemoveAt(newFields, draggedField.value);
      newFields := Insert(newFields, index, draggedItem);
      fields := newFields;
      draggedField := Some(index);
    }

    method HandleDragEnd()
      modifies this
      ensures draggedField.None? && fields == old(fields)
    {
      draggedField := None;
    }

    /** The Save button hands the fields over, and is disabled while there are none. */
    method Save() returns (saved: Option<seq<FormField>>)
      ensures saved.Some? <==> |fields| > 0
      ensures saved.Some? ==> saved.value == fields
    {
      if |fields| == 0 {
        return None;
      }
      return Some(fields);
    }
  }

  // ---------------------------------------------------------------------

  /** Removing after inserting at the same place gives back the list. */
  lemma RemoveInsert<T>(s: seq<T>, k: int, x: T)
    requires 0 <= k <= |s|
    ensures RemoveAt(Insert(s, k, x), k) == s
  {
    assert Insert(s, k, x)[..k] == s[..k];
    assert Insert(s, k, x)[k + 1..] == s[k..];
  }

  /** Inserting an element back where it was taken from gives back the list. */
  lemma InsertRemove<T>(s: seq<T>, k: int)
    requires 0 <= k < |s|
    ensures Insert(RemoveAt(s, k), k, s[k]) == s
  {
    assert RemoveAt(s, k)[..k] == s[..k];
    assert RemoveAt(s, k)[k..] == s[k + 1..];
    assert s == s[..k] + [s[k]] + s[k + 1..];
  }

  /** A move puts the dragged element at the target and keeps the others in their order. */
  lemma MoveFacts<T>(s: seq<T>, from: int, to: int)
    requires 0 <= from < |s| && 0 <= to < |s|
    ensures |Move(s, from, to)| == |s|
    ensures Move(s, from, to)[to] == s[from]
    ensures RemoveAt(Move(s, from, to), to) == RemoveAt(s, from)
  {
    RemoveInsert(RemoveAt(s, from), to, s[from]);
  }

  lemma RemoveAtMultiset<T>(s: seq<T>, k: int)
    requires 0 <= k < |s|
    ensures multiset(RemoveAt(s, k)) + multiset{s[k]} == multiset(s)
  {
    assert s == s[..k] + [s[k]] + s[k + 1..];
  }

  lemma InsertMultiset<T>(s: seq<T>, k: int, x: T)
    requires 0 <= k <= |s|
    ensures multiset(Insert(s, k, x)) == multiset(s) + multiset{x}
  {
    assert s == s[..k] + s[k..];
  }

  /** A move is a permutation of the fields. */
  lemma MovePermutes<T>(s: seq<T>, from: int, to: int)
    requires 0 <= from < |s| && 0 <= to < |s|
    ensures multiset(Move(s, from, to)) == multiset(s)
  {
    RemoveAtMultiset(s, from);
    InsertMultiset(RemoveAt(s, from), to, s[from]);
  }

  /** Dragging back to the original row undoes a move. */
  lemma MoveInverse<T>(s: seq<T>, from: int, to: int)
    requires 0 <= from < |s| && 0 <= to < |s|
    ensures Move(Move(s, from, to), to, from) == s
  {
    MoveFacts(s, from, to);
    InsertRemove(s, from);
  }

  /** Because the dragged index follows the field, two drag-overs in a row are one move from the first row to the last. */
  lemma MovesCompose<T>(s: seq<T>, a: int, b: int, c: int)
    requires 0 <= a < |s| && 0 <= b < |s| && 0 <= c < |s|
    ensures Move(Move(s, a, b), b, c) == Move(s, a, c)
  {
    MoveFacts(s, a, b);
  }

  /** An update at an index outside the list changes nothing. */
  lemma UpdateOutsideIsNoop(fields: seq<FormField>, index: int, u: FieldPatch)
    requires !(0 <= index < |fields|)
    ensures UpdateAt(fields, index, u) == fields
  {
  }

  /** A type change keeps the rest of the field, gives a select one empty option and any other type none. */
  lemma TypeChangeOptions(f: FormField, t: FieldType)
    ensures MergeField(f, TypeChange(t)).fieldType == t
    ensures MergeField(f, TypeChange(t)).options == if t == Select then Some([""]) else None
    ensures MergeField(f, TypeChange(t)).(fieldType := f.fieldType, options := f.options) == f
  {
  }

  /** Editing, removing and adding options replace, drop or append exactly one option. */
  lemma OptionEditsTouchOne(options: seq<string>, k: int, value: string)
    requires 0 <= k < |options|
    ensures var r := EditOption(Some(options), k, value);
      |r| == |options| && r[k] == value && forall i :: 0 <= i < |r| && i != k ==> r[i] == options[i]
    ensures var r := DropOption(Some(options), k).value;
      |r| == |options| - 1 && r == options[..k] + options[k + 1..]
    ensures AddOption(Some(options)) == options + [""] && AddOption(None) == [""]
  {
  }
}
