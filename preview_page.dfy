/**
 * The fill-in page: the submit, change and reset handlers with their
 * `isSubmitted` flag, the trigger of derived recomputation, the display order
 * of the fields and the lookup of the error shown under each one.
 */
module PreviewPage {
  import opened Wrappers
  import opened JsValues
  import opened FormTypes
  import opened Validation
  import opened PreviewSlice

  /** The unsaved schema built from the current form for previewing. */
  function TempSchema(name: string, fields: seq<FormField>, createdAt: string, updatedAt: string): (s: FormSchema)
    ensures s.id == "temp" && s.fields == fields
    ensures s.name == if name == "" then "Untitled Form" else name
  {
    FormSchema("temp", OrElse(name, "Untitled Form"), fields, createdAt, updatedAt)
  }

  /**
   * `fields.some(field => field.isDerived)` on the active schema: recompute only
   * then, which is exactly when the pass has a derived field to visit.
   */
  predicate ShouldRecompute(schema: Option<FormSchema>)
    ensures ShouldRecompute(schema) <==> schema.Some? && DerivedFields(schema.value.fields) != []
  {
    schema.Some? && (DerivedFieldsNonEmpty(schema.value.fields);
                     exists k :: 0 <= k < |schema.value.fields| && schema.value.fields[k].isDerived)
  }

  /** Ascending `order`. */
  predicate SortedByOrder(fs: seq<FormField>) {
    forall i, j :: 0 <= i < j < |fs| ==> fs[i].order <= fs[j].order
  }

  /** Insert `f` into a sorted list after every field whose `order` is not larger. */
  function Insert(f: FormField, sorted: seq<FormField>): (r: seq<FormField>)
    requires SortedByOrder(sorted)
    ensures SortedByOrder(r)
    ensures multiset(r) == multiset(sorted) + multiset{f} && |r| == |sorted| + 1
  {
    if sorted == [] then [f]
    else if f.order < sorted[0].order then [f] + sorted
    else
      var rest := sorted[1..];
      var tail := Insert(f, rest);
      assert sorted == [sorted[0]] + rest;
      HeadBelowInsert(sorted[0], rest, f, tail);
      [sorted[0]] + tail
  }

  /** A field no larger than a sorted list's first element and than `f` may head the list with `f` inserted. */
  lemma HeadBelowInsert(h: FormField, rest: seq<FormField>, f: FormField, tail: seq<FormField>)
    requires SortedByOrder([h] + rest) && h.order <= f.order
    requires SortedByOrder(tail) && multiset(tail) == multiset(rest) + multiset{f}
    ensures SortedByOrder([h] + tail)
  {
    assert ([h] + rest)[0] == h;
    forall k | 0 <= k < |tail| ensures h.order <= tail[k].order {
      assert tail[k] in multiset(tail);
      if tail[k] != f {
        assert tail[k] in multiset(rest);
        var j :| 0 <= j < |rest| && rest[j] == tail[k];
        assert ([h] + rest)[j + 1] == rest[j];
      }
    }
    var c := [h] + tail;
    forall i, j | 0 <= i < j < |c| ensures c[i].order <= c[j].order {
      if i == 0 {
        assert c[j] == tail[j - 1];
      } else {
        assert c[i] == tail[i - 1] && c[j] == tail[j - 1];
      }
    }
  }

  /** `sortedFields`: a copy of the fields sorted by ascending `order`. */
  function SortByOrder(fs: seq<FormField>): (r: seq<FormField>)
    ensures SortedByOrder(r)
    ensures multiset(r) == multiset(fs) && |r| == |fs|
  {
    if fs == [] then []
    else
      var init := fs[..|fs| - 1];
      assert fs == init + [fs[|fs| - 1]];
      Insert(fs[|fs| - 1], SortByOrder(init))
  }

  /** Dropping the last field of a sorted list leaves a sorted list below that field. */
  lemma SortedInit(fs: seq<FormField>)
    requires SortedByOrder(fs) && fs != []
    ensures SortedByOrder(fs[..|fs| - 1])
    ensures forall k :: 0 <= k < |fs| - 1 ==> fs[k].order <= fs[|fs| - 1].order
  {
  }

  /** A list already in ascending `order` is displayed as it is. */
  lemma {:induction false} SortKeepsSortedList(fs: seq<FormField>)
    requires SortedByOrder(fs)
    ensures SortByOrder(fs) == fs
  {
    if fs != [] {
      var init := fs[..|fs| - 1];
      var last := fs[|fs| - 1];
      SortedInit(fs);
      SortKeepsSortedList(init);
      InsertLargest(last, init);
      assert fs == init + [last];
    }
  }

  /** Inserting a field no smaller than all others appends it. */
  lemma {:induction false} InsertLargest(f: FormField, sorted: seq<FormField>)
    requires SortedByOrder(sorted)
    requires forall k :: 0 <= k < |sorted| ==> sorted[k].order <= f.order
    ensures Insert(f, sorted) == sorted + [f]
  {
    if sorted != [] {
      InsertLargest(f, sorted[1..]);
      assert sorted == [sorted[0]] + sorted[1..];
    }
  }

  /** `validationErrors.find(err => err.fieldId === id)?.message`. */
  function ShownError(errors: seq<ValidationError>, id: string): (r: Option<string>)
    ensures r.None? <==> forall k :: 0 <= k < |errors| ==> errors[k].fieldId != id
    ensures r.Some? ==> exists k :: (0 <= k < |errors| && errors[k] == ValidationError(id, r.value)
      && forall j :: 0 <= j < k ==> errors[j].fieldId != id)
  {
    if errors == [] then None
    else if errors[0].fieldId == id then Some(errors[0].message)
    else
      var r := ShownError(errors[1..], id);
      assert forall k :: 0 < k < |errors| ==> errors[k] == errors[1..][k - 1];
      r
  }

  /** Looking up in a concatenation finds the first part's error if it has one. */
  lemma {:induction false} ShownErrorAppend(a: seq<ValidationError>, b: seq<ValidationError>, id: string)
    ensures ShownError(a + b, id) == if ShownError(a, id).Some? then ShownError(a, id) else ShownError(b, id)
  {
    if a != [] {
      assert (a + b)[1..] == a[1..] + b;
      ShownErrorAppend(a[1..], b, id);
    } else {
      assert a + b == b;
    }
  }

  /** The errors pushed for one field are found under its id and under no other. */
  lemma ShownErrorOfField(field: FormField, data: FormData, id: string)
    ensures ShownError(ErrorsFor(field, data), id) ==
      if id == field.id then FieldError(field, Lookup(data, field.id)) else None
  {
  }

  /** No error is shown under an id that no field carries. */
  lemma {:induction false} NoErrorForForeignId(fields: seq<FormField>, data: FormData, id: string)
    requires forall i :: 0 <= i < |fields| ==> fields[i].id != id
    ensures ShownError(FormErrors(fields, data), id) == None
  {
    if fields != [] {
      var init, last := fields[..|fields| - 1], fields[|fields| - 1];
      assert forall i :: 0 <= i < |init| ==> init[i].id != id by {
        forall i | 0 <= i < |init| ensures init[i].id != id {
          assert init[i] == fields[i];
        }
      }
      NoErrorForForeignId(init, data, id);
      ShownErrorAppend(FormErrors(init, data), ErrorsFor(last, data), id);
      ShownErrorOfField(last, data, id);
    }
  }

  /**
   * With distinct field ids, the error shown under a field after submit is exactly
   * that field's `validateField` result.
   */
  lemma {:induction false} ShownErrorIsFieldError(fields: seq<FormField>, data: FormData, k: nat)
    requires UniqueIds(fields) && k < |fields|
    ensures ShownError(FormErrors(fields, data), fields[k].id) == FieldError(fields[k], Lookup(data, fields[k].id))
  {
    var n := |fields|;
    var init, last := fields[..n - 1], fields[n - 1];
    var id := fields[k].id;
    ShownErrorAppend(FormErrors(init, data), ErrorsFor(last, data), id);
    ShownErrorOfField(last, data, id);
    if k < n - 1 {
      assert UniqueIds(init) by {
        forall i, j | 0 <= i < j < |init| ensures init[i].id != init[j].id {
          assert init[i] == fields[i] && init[j] == fields[j];
        }
      }
      ShownErrorIsFieldError(init, data, k);
      assert init[k] == fields[k];
      assert last.id != id;
    } else {
      assert forall i :: 0 <= i < |init| ==> init[i].id != id by {
        forall i | 0 <= i < |init| ensures init[i].id != id {
          assert init[i] == fields[i];
        }
      }
      NoErrorForForeignId(init, data, id);
    }
  }

  /** The page's own state around the answer store. */
  class PreviewPage {
    const store: PreviewStore
    var isSubmitted: bool

    constructor (store: PreviewStore)
      ensures this.store == store && !isSubmitted
    {
      this.store := store;
      isSubmitted := false;
    }

    /**
     * The schema-loading effect: with a route id, the stored form found under it
     * (if any) becomes the schema; without one, a non-empty current form becomes
     * the "temp" schema; otherwise nothing changes.
     */
    method LoadSchemaEffect(formId: Option<string>, found: Option<FormSchema>,
                            currentName: string, currentFields: seq<FormField>,
                            createdAt: string, updatedAt: string)
      modifies store
      ensures formId.Some? && formId.value != "" && found.Some? ==>
        store.currentSchema == found && store.formData == map[] && store.validationErrors == []
      ensures !(formId.Some? && formId.value != "") && |currentFields| > 0 ==>
        && store.currentSchema == Some(TempSchema(currentName, currentFields, createdAt, updatedAt))
        && store.formData == map[] && store.validationErrors == []
      ensures (if formId.Some? && formId.value != "" then found.None? else |currentFields| == 0) ==>
        && store.currentSchema == old(store.currentSchema)
        && store.formData == old(store.formData) && store.validationErrors == old(store.validationErrors)
    {
      if formId.Some? && formId.value != "" {
        if found.Some? {
          store.SetCurrentSchema(found);
        }
      } else if |currentFields| > 0 {
        store.SetCurrentSchema(Some(TempSchema(currentName, currentFields, createdAt, updatedAt)));
      }
    }

    /** `handleFieldChange`: write the answer through `updateFormData` and clear the flag. */
    method HandleFieldChange(fieldId: string, value: JsValue)
      modifies this, store
      ensures store.formData == old(store.formData)[fieldId := value]
      ensures store.validationErrors == WithoutErrorsFor(old(store.validationErrors), fieldId)
      ensures store.currentSchema == old(store.currentSchema)
      ensures !isSubmitted
    {
      store.UpdateFormData(fieldId, value);
      isSubmitted := false;
    }

    /**
     * `handleSubmit`: without a schema nothing happens; otherwise the store's errors
     * become `validateForm` of the schema's fields and answers, and the form counts
     * as submitted exactly when that list is empty.
     */
    method HandleSubmit()
      modifies this, store
      ensures store.currentSchema == old(store.currentSchema) && store.formData == old(store.formData)
      ensures old(store.currentSchema).None? ==>
        store.validationErrors == old(store.validationErrors) && isSubmitted == old(isSubmitted)
      ensures old(store.currentSchema).Some? ==>
        && store.validationErrors == FormErrors(old(store.currentSchema).value.fields, old(store.formData))
        && (isSubmitted <==> store.validationErrors == [])
      ensures old(store.currentSchema).Some? ==>
        var fields := old(store.currentSchema).value.fields;
        isSubmitted <==> forall k :: 0 <= k < |fields| ==> FieldError(fields[k], Lookup(old(store.formData), fields[k].id)) == None
    {
      if store.currentSchema.None? {
        return;
      }
      FormErrorsEmpty(store.currentSchema.value.fields, store.formData);
      var errors := ValidateForm(store.currentSchema.value.fields, store.formData);
      store.SetValidationErrors(errors);
      if |errors| == 0 {
        isSubmitted := true;
      } else {
        isSubmitted := false;
      }
    }

    /** `handleReset`: clear answers and errors, keep the schema, clear the flag. */
    method HandleReset()
      modifies this, store
      ensures store.formData == map[] && store.validationErrors == []
      ensures store.currentSchema == old(store.currentSchema) && !isSubmitted
    {
      store.ClearFormData();
      isSubmitted := false;
    }

    /** The effect that follows a change of answers or schema: recompute when a derived field exists. */
    method RecomputeDerived(eval: Evaluator)
      modifies store
      ensures store.currentSchema == old(store.currentSchema) && store.validationErrors == old(store.validationErrors)
      ensures !ShouldRecompute(old(store.currentSchema)) ==> store.formData == old(store.formData)
      ensures ShouldRecompute(old(store.currentSchema)) ==>
        store.formData == DerivedPass(DerivedFields(old(store.currentSchema).value.fields), old(store.formData), eval)
    {
      if ShouldRecompute(store.currentSchema) {
        store.ComputeDerivedFields(eval);
      }
    }
  }

  /**
   * The scenario of a required text field A and a derived field B: submitting with
   * A empty yields exactly one error, for A, with the labelled required message.
   */
  lemma RequiredScenario(a: FormField, b: FormField)
    requires a.id == "A" && a.labelText == "A" && !a.isDerived
    requires a.validationRules == [ValidationRule(Required, Unset, "")]
    requires b.isDerived
    ensures FormErrors([a, b], map["A" := Str("")]) == [ValidationError("A", "A is required")]
  {
    var data := map["A" := Str("")];
    assert [a, b][..1] == [a];
    assert [a][..0] == [];
    assert FormErrors([a], data) == FormErrors([], data) + ErrorsFor(a, data);
    var rule := ValidationRule(Required, Unset, "");
    RequiredRule(rule, Str(""), "A");
    assert Lookup(data, "A") == Str("");
    assert "A" + " is required" == "A is required";
    assert ValidateRule(rule, Str(""), "A") == Some("A is required");
    assert FirstFailure([rule], Str(""), "A") == Some("A is required");
    assert FieldError(a, Lookup(data, "A")) == Some("A is required");
  }
}
