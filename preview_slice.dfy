/**
 * The answer store of a fill session (the preview slice): the active schema,
 * the answers and the error list, with their reducers, and the recomputation of
 * derived fields through an expression evaluator that the model leaves abstract.
 */
module PreviewSlice {
  import opened Wrappers
  import opened JsValues
  import opened FormTypes
  import opened Seqs

  // ------------------------------------------------------------ error list

  /** The error list with every error for `fieldId` dropped (the `filter` in the reducers). */
  function WithoutErrorsFor(errors: seq<ValidationError>, fieldId: string): (r: seq<ValidationError>)
    ensures forall k :: 0 <= k < |r| ==> r[k].fieldId != fieldId
    ensures forall e :: e in r <==> e in errors && e.fieldId != fieldId
  {
    var keep := (e: ValidationError) => e.fieldId != fieldId;
    forall e ensures e in Filter(errors, keep) <==> e in errors && keep(e) {
      FilterMembers(errors, keep, e);
    }
    Filter(errors, keep)
  }

  /** Dropping an id keeps the other errors in their order: it distributes over concatenation. */
  lemma WithoutErrorsForAppend(a: seq<ValidationError>, b: seq<ValidationError>, fieldId: string)
    ensures WithoutErrorsFor(a + b, fieldId) == WithoutErrorsFor(a, fieldId) + WithoutErrorsFor(b, fieldId)
  {
    FilterAppend(a, b, (e: ValidationError) => e.fieldId != fieldId);
  }

  /** The list after `addValidationError(e)`: the old errors for other fields, then `e`. */
  function WithError(errors: seq<ValidationError>, e: ValidationError): (r: seq<ValidationError>)
    ensures |r| >= 1 && r[|r| - 1] == e
    ensures r[..|r| - 1] == WithoutErrorsFor(errors, e.fieldId)
    ensures forall k :: 0 <= k < |r| && r[k].fieldId == e.fieldId ==> k == |r| - 1
  {
    var r := WithoutErrorsFor(errors, e.fieldId) + [e];
    assert r[..|r| - 1] == WithoutErrorsFor(errors, e.fieldId);
    r
  }

  // ------------------------------------------------------- derived fields

  /** What a name in the evaluation context is bound to. */
  datatype Binding =
    | Value(v: JsValue)                  // a parent field's answer
    | FormDataObject(data: FormData)     // the whole answer map, as `formData`
    | MathObject                         // the global `Math`
    | DateObject                         // the global `Date`

  /** The names and values handed to the expression as parameters. */
  type Context = map<string, Binding>

  /** How running an expression ends: it throws, or it returns a value (possibly `undefined`). */
  datatype EvalOutcome = Threw | Returned(v: JsValue)

  /**
   * The JavaScript engine behind `new Function(...names, "return " + expr)(...values)`
   * once the function has been built; the model does not interpret expressions.
   */
  type Evaluator = (string, Context) -> EvalOutcome

  /** The three names the context always binds, after (and over) the parent values. */
  predicate IsReservedName(name: string) {
    name == "formData" || name == "Math" || name == "Date"
  }

  /** `parentValues`: each parent id bound to its current answer (`undefined` when absent). */
  function ParentValues(parents: seq<string>, data: FormData): (pv: map<string, JsValue>)
    ensures pv.Keys == set p | p in parents
    ensures forall p :: p in pv ==> pv[p] == Lookup(data, p)
  {
    map p | p in parents :: Lookup(data, p)
  }

  /** The `forEach` over the parent ids that fills `parentValues` key by key. */
  method CollectParentValues(parents: seq<string>, data: FormData) returns (pv: map<string, JsValue>)
    ensures pv == ParentValues(parents, data)
  {
    pv := map[];
    for j := 0 to |parents|
      invariant pv == ParentValues(parents[..j], data)
    {
      assert parents[..j + 1] == parents[..j] + [parents[j]];
      pv := pv[parents[j] := Lookup(data, parents[j])];
    }
    assert parents[..|parents|] == parents;
  }

  /** `{ ...parentValues, formData, Math, Date }`: the three fixed names override a parent of that name. */
  function BuildContext(pv: map<string, JsValue>, data: FormData): (ctx: Context)
    ensures ctx.Keys == pv.Keys + {"formData", "Math", "Date"}
    ensures ctx["formData"] == FormDataObject(data) && ctx["Math"] == MathObject && ctx["Date"] == DateObject
    ensures forall p :: p in pv && !IsReservedName(p) ==> ctx[p] == Value(pv[p])
  {
    (map p | p in pv :: Value(pv[p])) + map["formData" := FormDataObject(data), "Math" := MathObject, "Date" := DateObject]
  }

  /** A character that may occur in an ASCII identifier. */
  predicate IsAsciiIdentifierChar(c: char) {
    ('a' <= c <= 'z') || ('A' <= c <= 'Z') || IsAsciiDigit(c) || c == '_' || c == '$'
  }

  /** A non-empty name of identifier characters that does not start with a digit. */
  predicate IsAsciiIdentifier(name: string) {
    name != "" && !IsAsciiDigit(name[0]) && forall k :: 0 <= k < |name| ==> IsAsciiIdentifierChar(name[k])
  }

  /** A name made only of identifier characters and `-`, as every UUID is. */
  predicate IsPlainName(name: string) {
    forall k :: 0 <= k < |name| ==> IsAsciiIdentifierChar(name[k]) || name[k] == '-'
  }

  /** A non-empty plain name that starts with a digit or holds a `-`. */
  predicate IsBadPlainName(name: string) {
    IsPlainName(name) && name != "" && (IsAsciiDigit(name[0]) || '-' in name)
  }

  /**
   * When `new Function` surely throws a SyntaxError while building the function.
   * Its parameter text is the names joined by commas. When every name is plain,
   * that text holds no bracket, quote or `=`, so each name is one parameter on its
   * own, and a name that starts with a digit or holds a `-` is rejected wherever
   * it stands. Any other set of names is left to the evaluator, whose `Threw`
   * covers a SyntaxError too.
   */
  predicate ParameterListRejected(names: set<string>)
    ensures ParameterListRejected(names) ==> exists n :: n in names && !IsAsciiIdentifier(n)
    ensures (exists n :: n in names && !IsPlainName(n)) ==> !ParameterListRejected(names)
  {
    (forall n :: n in names ==> IsPlainName(n)) && exists n :: n in names && IsBadPlainName(n)
  }

  /** The three fixed names are plain identifiers, so adding them changes nothing about rejection. */
  lemma ReservedNamesKeepRejection(names: set<string>)
    ensures ParameterListRejected(names + {"formData", "Math", "Date"}) <==> ParameterListRejected(names)
  {
    var reserved := {"formData", "Math", "Date"};
    forall n | n in reserved ensures IsAsciiIdentifier(n) && IsPlainName(n) && !IsBadPlainName(n) {
      assert IsAsciiIdentifierChar(n[0]);
      assert '-' !in n;
    }
  }

  /**
   * `computeDerivedValue`: build the function and call it; a throw (including the
   * SyntaxError of a rejected parameter list) is caught and yields `undefined`.
   * `return ` followed by an empty expression returns `undefined`.
   */
  function ComputeDerivedValue(expr: string, pv: map<string, JsValue>, data: FormData, eval: Evaluator): (v: JsValue)
    ensures ParameterListRejected(pv.Keys) ==> v == Undefined
    ensures expr == "" ==> v == Undefined
    ensures !ParameterListRejected(pv.Keys) && expr != "" ==>
      v == match eval(expr, BuildContext(pv, data)) case Threw => Undefined case Returned(r) => r
    ensures v != Undefined ==> eval(expr, BuildContext(pv, data)) == Returned(v)
  {
    var ctx := BuildContext(pv, data);
    ReservedNamesKeepRejection(pv.Keys);
    if ParameterListRejected(ctx.Keys) then Undefined
    else if expr == "" then Undefined
    else
      match eval(expr, ctx)
      case Threw => Undefined
      case Returned(r) => r
  }

  /** One iteration of the pass: evaluate one derived field and write its value when it is defined. */
  function DeriveStep(f: FormField, data: FormData, eval: Evaluator): (r: FormData)
    ensures f.derivedLogic.None? ==> r == data
    ensures r.Keys == data.Keys || r.Keys == data.Keys + {f.id}
    ensures forall k :: k in data && k != f.id ==> r[k] == data[k]
    ensures f.id in r ==> r[f.id] != Undefined || (f.id in data && r[f.id] == data[f.id])
  {
    match f.derivedLogic
    case None => data
    case Some(logic) =>
      var v := ComputeDerivedValue(logic.computeFunction, ParentValues(logic.parentFields, data), data, eval);
      if v != Undefined then data[f.id := v] else data
  }

  /** The pass over `fs` in order, each field evaluated against the map as the earlier steps left it. */
  function DerivedPass(fs: seq<FormField>, data: FormData, eval: Evaluator): (r: FormData)
    ensures data.Keys <= r.Keys
    ensures forall k :: k in r && k !in data ==> r[k] != Undefined
  {
    if fs == [] then data
    else DeriveStep(fs[|fs| - 1], DerivedPass(fs[..|fs| - 1], data, eval), eval)
  }

  /** The fields the pass visits: the derived ones, in schema order. */
  function DerivedFields(fields: seq<FormField>): (r: seq<FormField>)
    ensures forall k :: 0 <= k < |r| ==> r[k].isDerived && r[k] in fields
    ensures forall f :: f in fields && f.isDerived ==> f in r
  {
    forall f | f in fields && f.isDerived ensures f in Filter(fields, IsDerivedField) {
      FilterMembers(fields, IsDerivedField, f);
    }
    Filter(fields, IsDerivedField)
  }

  /** Selecting the derived fields keeps schema order: it distributes over concatenation. */
  lemma DerivedFieldsAppend(a: seq<FormField>, b: seq<FormField>)
    ensures DerivedFields(a + b) == DerivedFields(a) + DerivedFields(b)
  {
    FilterAppend(a, b, IsDerivedField);
  }

  /** The pass has something to visit exactly when the schema holds a derived field. */
  lemma DerivedFieldsNonEmpty(fields: seq<FormField>)
    ensures DerivedFields(fields) != [] <==> exists k :: 0 <= k < |fields| && fields[k].isDerived
  {
    if exists k :: 0 <= k < |fields| && fields[k].isDerived {
      var k :| 0 <= k < |fields| && fields[k].isDerived;
      assert fields[k] in DerivedFields(fields);
    }
    if DerivedFields(fields) != [] {
      var f := DerivedFields(fields)[0];
      var k :| 0 <= k < |fields| && fields[k] == f;
      assert fields[k].isDerived;
    }
  }

  /** The ids a pass over `fs` may write: those of fields that have derivation logic. */
  function WritableIds(fs: seq<FormField>): set<string> {
    set k | 0 <= k < |fs| && fs[k].derivedLogic.Some? :: fs[k].id
  }

  /**
   * Read-as-you-go: running the pass over `a + b` is running it over `a`, then
   * over `b` starting from what `a` wrote. A field of `b` sees the values the
   * fields of `a` produced in the same pass.
   */
  lemma {:induction false} DerivedPassAppend(a: seq<FormField>, b: seq<FormField>, data: FormData, eval: Evaluator)
    ensures DerivedPass(a + b, data, eval) == DerivedPass(b, DerivedPass(a, data, eval), eval)
  {
    if b == [] {
      assert a + b == a;
    } else {
      var b0 := b[..|b| - 1];
      assert (a + b)[..|a + b| - 1] == a + b0;
      assert (a + b)[|a + b| - 1] == b[|b| - 1];
      DerivedPassAppend(a, b0, data, eval);
    }
  }

  /**
   * Only ids of fields with derivation logic change, no key is ever removed, and
   * every other entry (present or absent) stays as it was.
   */
  lemma {:induction false} DerivedPassFrame(fs: seq<FormField>, data: FormData, eval: Evaluator)
    ensures data.Keys <= DerivedPass(fs, data, eval).Keys
    ensures forall k :: k !in WritableIds(fs) ==>
      (k in DerivedPass(fs, data, eval) <==> k in data)
      && (k in data ==> DerivedPass(fs, data, eval)[k] == data[k])
  {
    if fs != [] {
      var init := fs[..|fs| - 1];
      DerivedPassFrame(init, data, eval);
      assert WritableIds(init) <= WritableIds(fs) by {
        forall id | id in WritableIds(init) ensures id in WritableIds(fs) {
          var k :| 0 <= k < |init| && init[k].derivedLogic.Some? && init[k].id == id;
          assert fs[k] == init[k];
        }
      }
      var last := fs[|fs| - 1];
      if last.derivedLogic.Some? {
        assert last.id in WritableIds(fs);
      }
    }
  }

  /**
   * A step writes exactly when evaluation yields a defined value, and then writes
   * that value; a throw or `undefined` leaves the prior entry, or its absence, alone.
   */
  lemma StepWritesIffDefined(f: FormField, data: FormData, eval: Evaluator)
    requires f.derivedLogic.Some?
    ensures var logic := f.derivedLogic.value;
      var pv := ParentValues(logic.parentFields, data);
      var v := ComputeDerivedValue(logic.computeFunction, pv, data, eval);
      (v == Undefined ==> DeriveStep(f, data, eval) == data)
      && (v != Undefined ==>
            (Lookup(DeriveStep(f, data, eval), f.id) == v
             && eval(logic.computeFunction, BuildContext(pv, data)) == Returned(v)))
  {
  }

  /** When every parent id is an identifier, the evaluator's result is passed through. */
  lemma ValidNamesReachEvaluator(expr: string, parents: seq<string>, data: FormData, eval: Evaluator)
    requires expr != ""
    requires forall p :: p in parents ==> IsAsciiIdentifier(p)
    ensures var ctx := BuildContext(ParentValues(parents, data), data);
      ComputeDerivedValue(expr, ParentValues(parents, data), data, eval)
        == match eval(expr, ctx) case Threw => Undefined case Returned(v) => v
  {
  }

  /**
   * A parent id with a character outside the plain set (a space, `=`, `,`, a
   * bracket) no longer decides anything by itself: the outcome is the evaluator's.
   */
  lemma OddNamesReachEvaluator(expr: string, parents: seq<string>, data: FormData, eval: Evaluator)
    requires expr != ""
    requires exists p :: p in parents && !IsPlainName(p)
    ensures var ctx := BuildContext(ParentValues(parents, data), data);
      ComputeDerivedValue(expr, ParentValues(parents, data), data, eval)
        == match eval(expr, ctx) case Threw => Undefined case Returned(v) => v
  {
    var p :| p in parents && !IsPlainName(p);
    assert p in ParentValues(parents, data).Keys;
  }

  /** A pass over two fields is the second field's step after the first's. */
  lemma PassOfTwo(f: FormField, g: FormField, data: FormData, eval: Evaluator)
    ensures DerivedPass([f, g], data, eval) == DeriveStep(g, DeriveStep(f, data, eval), eval)
  {
    assert [f, g][..1] == [f];
    assert [f][..0] == [];
    assert DerivedPass([f], data, eval) == DeriveStep(f, DerivedPass([], data, eval), eval);
    assert DerivedPass([f, g], data, eval) == DeriveStep(g, DerivedPass([f], data, eval), eval);
  }

  /**
   * Isolation: when the first of two derived fields throws and the second returns a
   * defined value, the pass keeps the first field's answer and stores the second's.
   */
  lemma FailureIsIsolated(f: FormField, g: FormField, data: FormData, eval: Evaluator)
    requires f.id != g.id && f.derivedLogic.Some? && g.derivedLogic.Some?
    requires eval(f.derivedLogic.value.computeFunction,
                  BuildContext(ParentValues(f.derivedLogic.value.parentFields, data), data)).Threw?
    requires var logic := g.derivedLogic.value;
      && logic.computeFunction != ""
      && (forall p :: p in logic.parentFields ==> IsAsciiIdentifier(p))
      && eval(logic.computeFunction, BuildContext(ParentValues(logic.parentFields, data), data)).Returned?
      && eval(logic.computeFunction, BuildContext(ParentValues(logic.parentFields, data), data)).v != Undefined
    ensures var logic := g.derivedLogic.value;
      var r := DerivedPass([f, g], data, eval);
      && Lookup(r, f.id) == Lookup(data, f.id)
      && Lookup(r, g.id) == eval(logic.computeFunction, BuildContext(ParentValues(logic.parentFields, data), data)).v
  {
    PassOfTwo(f, g, data, eval);
    assert DeriveStep(f, data, eval) == data;
    var logic := g.derivedLogic.value;
    ValidNamesReachEvaluator(logic.computeFunction, logic.parentFields, data, eval);
  }

  /**
   * Field ids are UUIDs, which are plain names holding a `-`: a pass in which
   * every field with logic has only such parents, at least one, writes nothing.
   */
  lemma {:induction false} UuidParentsNeverWrite(fs: seq<FormField>, data: FormData, eval: Evaluator)
    requires forall k :: 0 <= k < |fs| && fs[k].derivedLogic.Some? ==>
      && (forall p :: p in fs[k].derivedLogic.value.parentFields ==> IsPlainName(p))
      && (exists p :: p in fs[k].derivedLogic.value.parentFields && IsBadPlainName(p))
    ensures DerivedPass(fs, data, eval) == data
  {
    if fs != [] {
      var init := fs[..|fs| - 1];
      assert forall k :: 0 <= k < |init| ==> init[k] == fs[k];
      UuidParentsNeverWrite(init, data, eval);
      var last := fs[|fs| - 1];
      if last.derivedLogic.Some? {
        var parents := last.derivedLogic.value.parentFields;
        var p :| p in parents && IsBadPlainName(p);
        assert p in ParentValues(parents, data);
      }
    }
  }

  /** A derived field whose logic has no expression yet never receives a value. */
  lemma EmptyExpressionNeverWrites(f: FormField, data: FormData, eval: Evaluator)
    requires f.derivedLogic.Some? && f.derivedLogic.value.computeFunction == ""
    ensures DeriveStep(f, data, eval) == data
  {
  }

  // ----------------------------------------------------------------- store

  /** The preview slice's state and its reducers. */
  class PreviewStore {
    var formData: FormData
    var validationErrors: seq<ValidationError>
    var currentSchema: Option<FormSchema>

    /** The initial state: no schema, no answers, no errors. */
    constructor ()
      ensures formData == map[] && validationErrors == [] && currentSchema == None
    {
      formData := map[];
      validationErrors := [];
      currentSchema := None;
    }

    /** `setCurrentSchema`: install a schema (or none) and reset answers and errors. */
    method SetCurrentSchema(schema: Option<FormSchema>)
      modifies this
      ensures currentSchema == schema && formData == map[] && validationErrors == []
    {
      currentSchema := schema;
      formData := map[];
      validationErrors := [];
    }

    /** `updateFormData`: write one answer and drop that field's errors. */
    method UpdateFormData(fieldId: string, value: JsValue)
      modifies this
      ensures formData == old(formData)[fieldId := value]
      ensures validationErrors == WithoutErrorsFor(old(validationErrors), fieldId)
      ensures currentSchema == old(currentSchema)
    {
      formData := formData[fieldId := value];
      validationErrors := WithoutErrorsFor(validationErrors, fieldId);
    }

    /** `setFormData`: replace the whole answer map. */
    method SetFormData(data: FormData)
      modifies this
      ensures formData == data
      ensures validationErrors == old(validationErrors) && currentSchema == old(currentSchema)
    {
      formData := data;
    }

    /** `setValidationErrors`: replace the error list. */
    method SetValidationErrors(errors: seq<ValidationError>)
      modifies this
      ensures validationErrors == errors
      ensures formData == old(formData) && currentSchema == old(currentSchema)
    {
      validationErrors := errors;
    }

    /** `addValidationError`: replace any error for the same field by `e`, at the end. */
    method AddValidationError(e: ValidationError)
      modifies this
      ensures validationErrors == WithError(old(validationErrors), e)
      ensures formData == old(formData) && currentSchema == old(currentSchema)
    {
      validationErrors := WithoutErrorsFor(validationErrors, e.fieldId);
      validationErrors := validationErrors + [e];
    }

    /** `removeValidationError`: drop every error for `fieldId`. */
    method RemoveValidationError(fieldId: string)
      modifies this
      ensures validationErrors == WithoutErrorsFor(old(validationErrors), fieldId)
      ensures formData == old(formData) && currentSchema == old(currentSchema)
    {
      validationErrors := WithoutErrorsFor(validationErrors, fieldId);
    }

    /** `clearFormData`: drop all answers and errors, keep the schema. */
    method ClearFormData()
      modifies this
      ensures formData == map[] && validationErrors == [] && currentSchema == old(currentSchema)
    {
      formData := map[];
      validationErrors := [];
    }

    /**
     * `computeDerivedFields`: nothing without a schema; otherwise visit the derived
     * fields in schema order, writing each defined result into the answers at once.
     */
    method ComputeDerivedFields(eval: Evaluator)
      modifies this
      ensures currentSchema == old(currentSchema) && validationErrors == old(validationErrors)
      ensures old(currentSchema).None? ==> formData == old(formData)
      ensures old(currentSchema).Some? ==>
        formData == DerivedPass(DerivedFields(old(currentSchema).value.fields), old(formData), eval)
    {
      if currentSchema.None? {
        return;
      }
      var derived := DerivedFields(currentSchema.value.fields);
      for i := 0 to |derived|
        invariant formData == DerivedPass(derived[..i], old(formData), eval)
        invariant currentSchema == old(currentSchema) && validationErrors == old(validationErrors)
      {
        var field := derived[i];
        assert derived[..i + 1][..i] == derived[..i];
        if field.derivedLogic.Some? {
          var logic := field.derivedLogic.value;
          var parentValues := CollectParentValues(logic.parentFields, formData);
          var computed := ComputeDerivedValue(logic.computeFunction, parentValues, formData, eval);
          if computed != Undefined {
            formData := formData[field.id := computed];
          }
        }
      }
      assert derived[..|derived|] == derived;
    }
  }
}
