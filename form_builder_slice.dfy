/**
 * The form builder slice: the form being edited (its name and field list) and the
 * list of saved schemas, with the reducers that edit them. Fresh ids and time
 * stamps, which the source draws from `uuidv4()` and the clock, are parameters.
 */
module FormBuilderSlice {
  import opened Wrappers
  import opened JsValues
  import opened FormTypes
  import opened Seqs

  /** A field as the page hands it to `addField`: everything but `id` and `order`. */
  datatype FieldDraft = FieldDraft(
    fieldType: FieldType,
    labelText: string,
    required: bool,
    defaultValue: JsValue,
    validationRules: seq<ValidationRule>,
    options: Option<seq<FieldOption>>,
    isDerived: bool,
    derivedLogic: Option<DerivedLogic>)

  /** `{ ...draft, id, order }`. */
  function Complete(d: FieldDraft, id: string, order: int): (f: FormField)
    ensures f.id == id && f.order == order
    ensures f.fieldType == d.fieldType && f.labelText == d.labelText && f.required == d.required
    ensures f.validationRules == d.validationRules && f.options == d.options
    ensures f.isDerived == d.isDerived && f.derivedLogic == d.derivedLogic && f.defaultValue == d.defaultValue
  {
    FormField(id, d.fieldType, d.labelText, d.required, d.defaultValue, d.validationRules,
              d.options, d.isDerived, d.derivedLogic, order)
  }

  /** Every field's `order` is its position: 0, 1, ..., n-1. */
  predicate DenseOrder(fs: seq<FormField>) {
    forall k :: 0 <= k < |fs| ==> fs[k].order == k
  }

  /** A field with its `order` blanked, to compare fields up to renumbering. */
  function Unordered(f: FormField): FormField {
    f.(order := 0)
  }

  /** The list with every `order` blanked. */
  function Erase(fs: seq<FormField>): (r: seq<FormField>)
    ensures |r| == |fs| && forall k :: 0 <= k < |fs| ==> r[k] == Unordered(fs[k])
  {
    seq(|fs|, k requires 0 <= k < |fs| => Unordered(fs[k]))
  }

  /** `.map((field, index) => ({ ...field, order: index }))`. */
  function Renumber(fs: seq<FormField>): (r: seq<FormField>)
    ensures |r| == |fs| && DenseOrder(r)
    ensures Erase(r) == Erase(fs)
    ensures forall k :: 0 <= k < |fs| ==> r[k] == fs[k].(order := k)
  {
    seq(|fs|, k requires 0 <= k < |fs| => fs[k].(order := k))
  }

  /** The field list after `addField`: the draft appended with the next `order`. */
  function AppendField(fs: seq<FormField>, d: FieldDraft, id: string): (r: seq<FormField>)
    ensures |r| == |fs| + 1 && r[..|fs|] == fs
    ensures r[|fs|] == Complete(d, id, |fs|)
  {
    fs + [Complete(d, id, |fs|)]
  }

  /** Appending keeps the order dense, and keeps ids unique when the new id is fresh. */
  lemma AppendFieldInvariants(fs: seq<FormField>, d: FieldDraft, id: string)
    ensures DenseOrder(fs) ==> DenseOrder(AppendField(fs, d, id))
    ensures UniqueIds(fs) && (forall k :: 0 <= k < |fs| ==> fs[k].id != id) ==> UniqueIds(AppendField(fs, d, id))
  {
    var r := AppendField(fs, d, id);
    assert forall k :: 0 <= k < |fs| ==> r[k] == fs[k];
  }

  /** `findIndex(field => field.id === id)`, with `None` for -1. */
  function FindIndex(fs: seq<FormField>, id: string): (r: Option<nat>)
    ensures r.None? <==> forall k :: 0 <= k < |fs| ==> fs[k].id != id
    ensures r.Some? ==>
      (r.value < |fs| && fs[r.value].id == id && forall k :: 0 <= k < r.value ==> fs[k].id != id)
  {
    if fs == [] then None
    else if fs[0].id == id then Some(0)
    else
      match FindIndex(fs[1..], id)
      case None => None
      case Some(i) => Some(i + 1)
  }

  /** The field list after `updateField(f)`: the first field with `f`'s id replaced, if any. */
  function ReplaceField(fs: seq<FormField>, f: FormField): (r: seq<FormField>)
    ensures |r| == |fs|
    ensures FindIndex(fs, f.id).None? ==> r == fs
    ensures FindIndex(fs, f.id).Some? ==> r[FindIndex(fs, f.id).value] == f
    ensures forall k :: 0 <= k < |fs| && Some(k) != FindIndex(fs, f.id) ==> r[k] == fs[k]
  {
    match FindIndex(fs, f.id)
    case None => fs
    case Some(i) => fs[i := f]
  }

  /** A replacement that keeps the replaced field's `order` keeps the order dense. */
  lemma ReplaceFieldKeepsDenseOrder(fs: seq<FormField>, f: FormField)
    requires DenseOrder(fs)
    requires FindIndex(fs, f.id).Some? ==> f.order == FindIndex(fs, f.id).value
    ensures DenseOrder(ReplaceField(fs, f))
  {
  }

  /** The `filter` test of `deleteField`: a field with another id. */
  function Other(id: string): FormField -> bool {
    (f: FormField) => f.id != id
  }

  /** The fields whose id is not `id`, in their order (the `filter` of `deleteField`). */
  function KeepOthers(fs: seq<FormField>, id: string): (r: seq<FormField>)
    ensures forall k :: 0 <= k < |r| ==> r[k].id != id
  {
    Filter(fs, Other(id))
  }

  /** The field list after `deleteField(id)`: the other fields, in order, renumbered. */
  function RemoveField(fs: seq<FormField>, id: string): (r: seq<FormField>)
    ensures DenseOrder(r)
    ensures forall k :: 0 <= k < |r| ==> r[k].id != id
    ensures Erase(r) == Erase(KeepOthers(fs, id))
  {
    Renumber(KeepOthers(fs, id))
  }

  /** Deleting keeps exactly the fields with another id, each as often as it occurred. */
  lemma RemoveFieldSpec(fs: seq<FormField>, id: string, x: FormField)
    ensures x in KeepOthers(fs, id) <==> x in fs && x.id != id
    ensures multiset(KeepOthers(fs, id))[x] == if x.id != id then multiset(fs)[x] else 0
  {
    FilterMembers(fs, Other(id), x);
    FilterMultiset(fs, Other(id), x);
  }

  /** Deleting keeps the relative order of the others: it distributes over concatenation. */
  lemma RemoveFieldAppend(a: seq<FormField>, b: seq<FormField>, id: string)
    ensures Erase(RemoveField(a + b, id)) == Erase(KeepOthers(a, id)) + Erase(KeepOthers(b, id))
  {
    FilterAppend(a, b, Other(id));
    var fa, fb := KeepOthers(a, id), KeepOthers(b, id);
    assert KeepOthers(a + b, id) == fa + fb;
    EraseAppend(fa, fb);
  }

  /**
   * The field list after `reorderFields(drag, hover)`: the dragged field taken out
   * and spliced back in at `hover` (at the end when `hover` is past it), then renumbered.
   */
  function MoveField(fs: seq<FormField>, drag: nat, hover: nat): (r: seq<FormField>)
    requires drag < |fs|
    ensures |r| == |fs| && DenseOrder(r)
    ensures var at := if hover < |fs| - 1 then hover else |fs| - 1;
      r[at] == fs[drag].(order := at)
  {
    var rest := fs[..drag] + fs[drag + 1..];
    var at := if hover < |rest| then hover else |rest|;
    Renumber(rest[..at] + [fs[drag]] + rest[at..])
  }

  /** Blanking the `order`s distributes over concatenation. */
  lemma EraseAppend(a: seq<FormField>, b: seq<FormField>)
    ensures Erase(a + b) == Erase(a) + Erase(b)
  {
  }

  /** The blanked fields of `l + [x] + r`, as a multiset. */
  lemma EraseMultiset3(l: seq<FormField>, x: FormField, r: seq<FormField>)
    ensures multiset(Erase(l + [x] + r)) == multiset(Erase(l)) + multiset{Unordered(x)} + multiset(Erase(r))
  {
    EraseAppend(l + [x], r);
    EraseAppend(l, [x]);
    assert Erase([x]) == [Unordered(x)];
  }

  /** Moving a field permutes the list (up to the renumbered `order`s). */
  lemma MoveFieldPermutes(fs: seq<FormField>, drag: nat, hover: nat)
    requires drag < |fs|
    ensures multiset(Erase(MoveField(fs, drag, hover))) == multiset(Erase(fs))
  {
    var x := fs[drag];
    var pre, post := fs[..drag], fs[drag + 1..];
    var rest := pre + post;
    var at := if hover < |rest| then hover else |rest|;
    var left, right := rest[..at], rest[at..];
    assert left + right == rest;
    assert fs == pre + [x] + post;
    assert Erase(MoveField(fs, drag, hover)) == Erase(left + [x] + right);
    EraseMultiset3(left, x, right);
    EraseMultiset3(pre, x, post);
    EraseAppend(left, right);
    EraseAppend(pre, post);
    var el, er, ep, eq := Erase(left), Erase(right), Erase(pre), Erase(post);
    assert el + er == ep + eq;
    assert multiset(el) + multiset(er) == multiset(ep) + multiset(eq) by {
      assert multiset(el + er) == multiset(ep + eq);
    }
    MultisetShuffle(multiset(el), multiset(er), multiset(ep), multiset(eq), multiset{Unordered(x)});
  }

  /** Inserting the same element between two parts of equal multisets keeps them equal. */
  lemma MultisetShuffle<T>(a: multiset<T>, b: multiset<T>, c: multiset<T>, d: multiset<T>, m: multiset<T>)
    requires a + b == c + d
    ensures a + m + b == c + m + d
  {
    assert a + m + b == (a + b) + m;
    assert c + m + d == (c + d) + m;
  }

  /** The `filter` test of `deleteForm`: a saved form with another id. */
  function OtherForm(id: string): FormSchema -> bool {
    (s: FormSchema) => s.id != id
  }

  /** The saved forms after `deleteForm(id)`: the others, in order. */
  function RemoveForm(forms: seq<FormSchema>, id: string): (r: seq<FormSchema>)
    ensures forall k :: 0 <= k < |r| ==> r[k].id != id
    ensures forall s :: s in r <==> s in forms && s.id != id
    ensures forall s :: multiset(r)[s] == if s.id != id then multiset(forms)[s] else 0
  {
    forall s ensures s in Filter(forms, OtherForm(id)) <==> s in forms && s.id != id {
      FilterMembers(forms, OtherForm(id), s);
    }
    forall s ensures multiset(Filter(forms, OtherForm(id)))[s] == if s.id != id then multiset(forms)[s] else 0 {
      FilterMultiset(forms, OtherForm(id), s);
    }
    Filter(forms, OtherForm(id))
  }

  /** Deleting a saved form keeps the others in their order: it distributes over concatenation. */
  lemma RemoveFormAppend(a: seq<FormSchema>, b: seq<FormSchema>, id: string)
    ensures RemoveForm(a + b, id) == RemoveForm(a, id) + RemoveForm(b, id)
  {
    FilterAppend(a, b, OtherForm(id));
  }

  /** The builder slice's state and its reducers. */
  class FormBuilderStore {
    var fields: seq<FormField>
    var name: string
    var savedForms: seq<FormSchema>
    var isLoading: bool
    var error: Option<string>

    /** The initial state; `stored` is what the saved-forms storage held. */
    constructor (stored: seq<FormSchema>)
      ensures fields == [] && name == "" && savedForms == stored && !isLoading && error == None
    {
      fields := [];
      name := "";
      savedForms := stored;
      isLoading := false;
      error := None;
    }

    /** `setFormName`. */
    method SetFormName(n: string)
      modifies this
      ensures name == n
      ensures fields == old(fields) && savedForms == old(savedForms) && error == old(error) && isLoading == old(isLoading)
    {
      name := n;
    }

    /** `addField`: append the draft with id `freshId` and the next `order`. */
    method AddField(d: FieldDraft, freshId: string)
      modifies this
      ensures fields == AppendField(old(fields), d, freshId)
      ensures name == old(name) && savedForms == old(savedForms) && error == old(error) && isLoading == old(isLoading)
    {
      fields := fields + [Complete(d, freshId, |fields|)];
    }

    /** `updateField`: replace the first field with the same id; nothing if there is none. */
    method UpdateField(f: FormField)
      modifies this
      ensures fields == ReplaceField(old(fields), f)
      ensures name == old(name) && savedForms == old(savedForms) && error == old(error) && isLoading == old(isLoading)
    {
      var index := FindIndex(fields, f.id);
      if index.Some? {
        fields := fields[index.value := f];
      }
    }

    /** `deleteField`: drop every field with the id and renumber the rest. */
    method DeleteField(id: string)
      modifies this
      ensures fields == RemoveField(old(fields), id)
      ensures name == old(name) && savedForms == old(savedForms) && error == old(error) && isLoading == old(isLoading)
    {
      fields := RemoveField(fields, id);
    }

    /** `reorderFields`: move the field at `drag` to `hover` and renumber. */
    method ReorderFields(drag: nat, hover: nat)
      requires drag < |fields|
      modifies this
      ensures fields == MoveField(old(fields), drag, hover)
      ensures name == old(name) && savedForms == old(savedForms) && error == old(error) && isLoading == old(isLoading)
    {
      var dragged := fields[drag];
      var newFields := fields[..drag] + fields[drag + 1..];
      var at := if hover < |newFields| then hover else |newFields|;
      newFields := newFields[..at] + [dragged] + newFields[at..];
      fields := Renumber(newFields);
    }

    /**
     * `saveCurrentForm`: with a blank name, record the error and save nothing;
     * otherwise append a schema of the current name and fields and clear the error.
     */
    method SaveCurrentForm(freshId: string, now: string)
      modifies this
      ensures IsBlank(old(name)) ==> error == Some("Form name is required") && savedForms == old(savedForms)
      ensures !IsBlank(old(name)) ==>
        savedForms == old(savedForms) + [FormSchema(freshId, old(name), old(fields), now, now)] && error == None
      ensures fields == old(fields) && name == old(name) && isLoading == old(isLoading)
    {
      if IsBlank(name) {
        error := Some("Form name is required");
        return;
      }
      var schema := FormSchema(freshId, name, fields, now, now);
      savedForms := savedForms + [schema];
      error := None;
    }

    /** `loadForm`: make a saved schema's name and fields the current form. */
    method LoadForm(schema: FormSchema)
      modifies this
      ensures name == schema.name && fields == schema.fields
      ensures savedForms == old(savedForms) && error == old(error) && isLoading == old(isLoading)
    {
      name := schema.name;
      fields := schema.fields;
    }

    /** `clearCurrentForm`: an empty, unnamed form and no error; saved forms stay. */
    method ClearCurrentForm()
      modifies this
      ensures fields == [] && name == "" && error == None
      ensures savedForms == old(savedForms) && isLoading == old(isLoading)
    {
      fields := [];
      name := "";
      error := None;
    }

    /** `deleteForm`: drop every saved form with the id. */
    method DeleteForm(id: string)
      modifies this
      ensures savedForms == RemoveForm(old(savedForms), id)
      ensures fields == old(fields) && name == old(name) && error == old(error) && isLoading == old(isLoading)
    {
      savedForms := RemoveForm(savedForms, id);
    }

    /** `setError`. */
    method SetError(e: Option<string>)
      modifies this
      ensures error == e
      ensures fields == old(fields) && name == old(name) && savedForms == old(savedForms) && isLoading == old(isLoading)
    {
      error := e;
    }

    /** `setLoading`. */
    method SetLoading(b: bool)
      modifies this
      ensures isLoading == b
      ensures fields == old(fields) && name == old(name) && savedForms == old(savedForms) && error == old(error)
    {
      isLoading := b;
    }
  }
}
