/**
 * The edit handlers of the field configuration panel. Each builds the updated
 * field record that the panel hands to `onUpdate`; nothing is changed in place.
 */
module FieldConfiguration {
  import opened Wrappers
  import opened JsValues
  import opened FormTypes
  import opened Seqs
  import Validation
  import FormBuilderSlice

  /** A `Partial<FormField>` as the handlers build it: a key is set when its entry is `Some`. */
  datatype FieldPatch = FieldPatch(
    labelText: Option<string>,
    required: Option<bool>,
    defaultValue: Option<JsValue>,
    validationRules: Option<seq<ValidationRule>>,
    options: Option<Option<seq<FieldOption>>>,
    isDerived: Option<bool>,
    derivedLogic: Option<Option<DerivedLogic>>)

  const NoChange := FieldPatch(None, None, None, None, None, None, None)

  /** `handleFieldUpdate(updates)`: `{ ...field, ...updates }`. */
  function ApplyPatch(field: FormField, u: FieldPatch): (r: FormField)
    ensures r.id == field.id && r.fieldType == field.fieldType && r.order == field.order
    ensures r.labelText == u.labelText.GetOr(field.labelText)
    ensures r.required == u.required.GetOr(field.required)
    ensures r.defaultValue == u.defaultValue.GetOr(field.defaultValue)
    ensures r.validationRules == u.validationRules.GetOr(field.validationRules)
    ensures r.options == u.options.GetOr(field.options)
    ensures r.isDerived == u.isDerived.GetOr(field.isDerived)
    ensures r.derivedLogic == u.derivedLogic.GetOr(field.derivedLogic)
  {
    field.(labelText := u.labelText.GetOr(field.labelText),
           required := u.required.GetOr(field.required),
           defaultValue := u.defaultValue.GetOr(field.defaultValue),
           validationRules := u.validationRules.GetOr(field.validationRules),
           options := u.options.GetOr(field.options),
           isDerived := u.isDerived.GetOr(field.isDerived),
           derivedLogic := u.derivedLogic.GetOr(field.derivedLogic))
  }

  /** An empty patch hands back the field unchanged. */
  lemma NoChangeIsIdentity(field: FormField)
    ensures ApplyPatch(field, NoChange) == field
  {
  }

  /** `xs.filter((_, i) => i !== index)`: drop the element at `index`, if there is one. */
  function RemoveAt<T>(xs: seq<T>, index: int): (r: seq<T>)
    ensures 0 <= index < |xs| ==>
      (|r| == |xs| - 1
       && (forall k :: 0 <= k < index ==> r[k] == xs[k])
       && (forall k :: index <= k < |r| ==> r[k] == xs[k + 1]))
    ensures !(0 <= index < |xs|) ==> r == xs
  {
    if 0 <= index < |xs| then xs[..index] + xs[index + 1..] else xs
  }

  /** The rule dialog's state: a kind (possibly none picked), a length and a custom message. */
  datatype RuleDraft = RuleDraft(kind: Option<RuleKind>, value: Threshold, message: string)

  /**
   * `handleAddValidationRule`: with a kind chosen, the field with the created rule
   * appended; without one, no update at all.
   */
  function AddValidationRule(field: FormField, d: RuleDraft): (r: Option<FormField>)
    ensures r.Some? <==> d.kind.Some?
    ensures r.Some? ==>
      r.value == field.(validationRules := r.value.validationRules)
      && r.value.validationRules
           == field.validationRules + [Validation.CreateValidationRule(d.kind.value, d.value, d.message)]
  {
    match d.kind
    case None => None
    case Some(kind) =>
      var rule := Validation.CreateValidationRule(kind, d.value, d.message);
      Some(ApplyPatch(field, NoChange.(validationRules := Some(field.validationRules + [rule]))))
  }

  /** `handleRemoveValidationRule(index)`: the field without the rule at `index`. */
  function RemoveValidationRule(field: FormField, index: int): (r: FormField)
    ensures r == field.(validationRules := RemoveAt(field.validationRules, index))
  {
    ApplyPatch(field, NoChange.(validationRules := Some(RemoveAt(field.validationRules, index))))
  }

  /** `field.options || []`. */
  function OptionsOf(field: FormField): seq<FieldOption> {
    field.options.GetOr([])
  }

  /** `handleAddOption`: append `Option k` / `optionk`, k being the old count plus one. */
  function AddOption(field: FormField): (r: FormField)
    ensures r == field.(options := r.options)
    ensures r.options.Some? && |r.options.value| == |OptionsOf(field)| + 1
    ensures r.options.value[..|OptionsOf(field)|] == OptionsOf(field)
    ensures var k := IntToString(|OptionsOf(field)| + 1);
      r.options.value[|OptionsOf(field)|] == FieldOption("Option " + k, "option" + k)
  {
    var k := IntToString(|OptionsOf(field)| + 1);
    var newOption := FieldOption("Option " + k, "option" + k);
    ApplyPatch(field, NoChange.(options := Some(Some(OptionsOf(field) + [newOption]))))
  }

  /** A `Partial<FieldOption>`. */
  datatype OptionPatch = OptionPatch(labelText: Option<string>, value: Option<string>)

  /** `handleUpdateOption(index, updates)`: merge the updates into the option at `index` only. */
  function UpdateOption(field: FormField, index: int, u: OptionPatch): (r: FormField)
    ensures r == field.(options := r.options)
    ensures r.options.Some? && |r.options.value| == |OptionsOf(field)|
    ensures forall k :: 0 <= k < |OptionsOf(field)| && k != index ==> r.options.value[k] == OptionsOf(field)[k]
    ensures 0 <= index < |OptionsOf(field)| ==>
      var o := OptionsOf(field)[index];
      r.options.value[index] == FieldOption(u.labelText.GetOr(o.labelText), u.value.GetOr(o.value))
  {
    var os := OptionsOf(field);
    var updated := seq(|os|, k requires 0 <= k < |os| =>
      if k == index then FieldOption(u.labelText.GetOr(os[k].labelText), u.value.GetOr(os[k].value)) else os[k]);
    ApplyPatch(field, NoChange.(options := Some(Some(updated))))
  }

  /** `handleRemoveOption(index)`: drop the option at `index` only. */
  function RemoveOption(field: FormField, index: int): (r: FormField)
    ensures r == field.(options := Some(RemoveAt(OptionsOf(field), index)))
  {
    ApplyPatch(field, NoChange.(options := Some(Some(RemoveAt(OptionsOf(field), index)))))
  }

  /** `handleToggleDerived`: on gives empty logic, off removes the logic. */
  function ToggleDerived(field: FormField, on: bool): (r: FormField)
    ensures r == field.(isDerived := r.isDerived, derivedLogic := r.derivedLogic)
    ensures r.isDerived == on
    ensures on ==> r.derivedLogic == Some(DerivedLogic([], "", ""))
    ensures !on ==> r.derivedLogic == None
  {
    if on then ApplyPatch(field, NoChange.(isDerived := Some(true), derivedLogic := Some(Some(DerivedLogic([], "", "")))))
    else ApplyPatch(field, NoChange.(isDerived := Some(false), derivedLogic := Some(None)))
  }

  /** A `Partial<DerivedFieldLogic>`. */
  datatype LogicPatch = LogicPatch(parentFields: Option<seq<string>>, formula: Option<string>, computeFunction: Option<string>)

  /**
   * `handleDerivedLogicUpdate`: merge into the field's logic. The source asserts
   * (`field.derivedLogic!`) that the logic is present.
   */
  function UpdateDerivedLogic(field: FormField, u: LogicPatch): (r: FormField)
    requires field.derivedLogic.Some?
    ensures r == field.(derivedLogic := r.derivedLogic)
    ensures var before := field.derivedLogic.value;
      r.derivedLogic == Some(DerivedLogic(u.parentFields.GetOr(before.parentFields),
                                          u.formula.GetOr(before.formula),
                                          u.computeFunction.GetOr(before.computeFunction)))
  {
    var logic := field.derivedLogic.value;
    var merged := DerivedLogic(u.parentFields.GetOr(logic.parentFields), u.formula.GetOr(logic.formula),
                               u.computeFunction.GetOr(logic.computeFunction));
    ApplyPatch(field, NoChange.(derivedLogic := Some(Some(merged))))
  }

  /** The `filter` test of `nonDerivedFields`: another field that is not derived. */
  function CandidateFor(field: FormField): FormField -> bool {
    (f: FormField) => f.id != field.id && !f.isDerived
  }

  /** `nonDerivedFields`: the other, non-derived fields, in their order. */
  function ParentCandidates(available: seq<FormField>, field: FormField): (r: seq<FormField>)
    ensures forall k :: 0 <= k < |r| ==> r[k].id != field.id && !r[k].isDerived
  {
    Filter(available, CandidateFor(field))
  }

  /** The candidates are exactly the available fields that are neither the field itself nor derived. */
  lemma ParentCandidatesSpec(available: seq<FormField>, field: FormField, f: FormField)
    ensures f in ParentCandidates(available, field) <==> f in available && f.id != field.id && !f.isDerived
  {
    FilterMembers(available, CandidateFor(field), f);
  }

  /** The checkbox list keeps the builder's field order: selection distributes over concatenation. */
  lemma ParentCandidatesAppend(a: seq<FormField>, b: seq<FormField>, field: FormField)
    ensures ParentCandidates(a + b, field) == ParentCandidates(a, field) + ParentCandidates(b, field)
  {
    FilterAppend(a, b, CandidateFor(field));
  }

  /**
   * The disabled condition of Save Logic: no logic, no parent chosen or no
   * expression typed. It is enabled exactly when the logic has both.
   */
  predicate SaveLogicDisabled(field: FormField)
    ensures !SaveLogicDisabled(field) ==>
      field.derivedLogic.Some? && |field.derivedLogic.value.parentFields| > 0
      && field.derivedLogic.value.computeFunction != ""
    ensures (field.derivedLogic.Some? && |field.derivedLogic.value.parentFields| > 0
             && field.derivedLogic.value.computeFunction != "") ==> !SaveLogicDisabled(field)
  {
    field.derivedLogic.None? || field.derivedLogic.value.parentFields == []
    || field.derivedLogic.value.computeFunction == ""
  }

  /** The empty logic that switching a field to derived installs cannot be saved as it is. */
  lemma FreshLogicCannotBeSaved(field: FormField)
    ensures SaveLogicDisabled(ToggleDerived(field, true))
  {
  }

  /** How one dependency id is shown: the matching available field's label, else the id. */
  function DependencyLabel(available: seq<FormField>, id: string): (s: string)
    ensures FormBuilderSlice.FindIndex(available, id).Some? ==>
      s == available[FormBuilderSlice.FindIndex(available, id).value].labelText
    ensures (forall k :: 0 <= k < |available| ==> available[k].id != id) ==> s == id
  {
    match FormBuilderSlice.FindIndex(available, id)
    case None => id
    case Some(i) => available[i].labelText
  }

  /** The "Depends on" list: one label per parent id, in order. */
  function DependencyLabels(available: seq<FormField>, parents: seq<string>): (r: seq<string>)
    ensures |r| == |parents|
    ensures forall k :: 0 <= k < |parents| ==> r[k] == DependencyLabel(available, parents[k])
  {
    seq(|parents|, k requires 0 <= k < |parents| => DependencyLabel(available, parents[k]))
  }

  // ------------------------------------------------------------- inverses

  /** Removing the rule just added gives back the field's rules. */
  lemma RemoveAddedRule(field: FormField, d: RuleDraft)
    requires d.kind.Some?
    ensures RemoveValidationRule(AddValidationRule(field, d).value, |field.validationRules|) == field
  {
    var added := AddValidationRule(field, d).value;
    assert RemoveAt(added.validationRules, |field.validationRules|) == field.validationRules;
  }

  /** Removing the option just added gives back the field's options (an absent list becomes empty). */
  lemma RemoveAddedOption(field: FormField)
    ensures RemoveOption(AddOption(field), |OptionsOf(field)|) == field.(options := Some(OptionsOf(field)))
  {
    var added := AddOption(field);
    assert RemoveAt(OptionsOf(added), |OptionsOf(field)|) == OptionsOf(field);
  }

  /** Toggling to the same state twice is toggling once; toggling off forgets any earlier logic. */
  lemma ToggleDerivedIdempotent(field: FormField, on: bool, other: bool)
    ensures ToggleDerived(ToggleDerived(field, on), on) == ToggleDerived(field, on)
    ensures ToggleDerived(ToggleDerived(field, other), false) == ToggleDerived(field, false)
  {
  }

  /** An update naming an index outside the list changes no option. */
  lemma UpdateOptionOutOfRange(field: FormField, index: int, u: OptionPatch)
    requires !(0 <= index < |OptionsOf(field)|)
    ensures UpdateOption(field, index, u) == field.(options := Some(OptionsOf(field)))
  {
    assert UpdateOption(field, index, u).options.value == OptionsOf(field);
  }
}
