/**
 * The saved-forms page: the per-form counts shown on each card, and the
 * preview, edit and two-step delete handlers.
 */
module MyFormsPage {
  import opened Wrappers
  import opened FormTypes
  import opened Seqs
  import opened FormBuilderSlice
  import opened PreviewSlice

  predicate IsRequired(f: FormField) { f.required }
  predicate HasRules(f: FormField) { |f.validationRules| > 0 }

  /** The four numbers of `getFormStats`. */
  datatype FormStats = FormStats(totalFields: nat, requiredFields: nat, derivedFields: nat, fieldsWithValidation: nat)

  /**
   * `getFormStats`: the number of fields, and the number of positions holding a
   * required field, a derived field, and a field with at least one rule.
   */
  function GetFormStats(form: FormSchema): (st: FormStats)
    ensures st.totalFields == |form.fields|
    ensures st.requiredFields == |IndexSet(form.fields, IsRequired)| <= st.totalFields
    ensures st.derivedFields == |IndexSet(form.fields, IsDerivedField)| <= st.totalFields
    ensures st.fieldsWithValidation == |IndexSet(form.fields, HasRules)| <= st.totalFields
  {
    FilterLength(form.fields, IsRequired);
    FilterLength(form.fields, IsDerivedField);
    FilterLength(form.fields, HasRules);
    FormStats(|form.fields|, |Filter(form.fields, IsRequired)|, |Filter(form.fields, IsDerivedField)|,
      |Filter(form.fields, HasRules)|)
  }

  /** A form whose every field is derived shows all of them as derived. */
  lemma AllDerivedCounted(form: FormSchema)
    requires forall k :: 0 <= k < |form.fields| ==> form.fields[k].isDerived
    ensures GetFormStats(form).derivedFields == GetFormStats(form).totalFields
  {
    FilterKeepsAll(form.fields, IsDerivedField);
    FilterLength(form.fields, IsDerivedField);
  }

  /** The page's own delete-dialog state beside the builder and answer stores. */
  class MyFormsPage {
    const builder: FormBuilderStore
    const preview: PreviewStore
    var deleteDialogOpen: bool
    var formToDelete: Option<FormSchema>

    constructor (builder: FormBuilderStore, preview: PreviewStore)
      ensures this.builder == builder && this.preview == preview
      ensures !deleteDialogOpen && formToDelete == None
    {
      this.builder := builder;
      this.preview := preview;
      deleteDialogOpen := false;
      formToDelete := None;
    }

    /** `handlePreviewForm`: make the saved form the active schema, with no answers or errors. */
    method HandlePreviewForm(form: FormSchema)
      modifies preview
      ensures preview.currentSchema == Some(form) && preview.formData == map[] && preview.validationErrors == []
    {
      preview.SetCurrentSchema(Some(form));
    }

    /** `handleEditForm`: load the saved form into the builder. */
    method HandleEditForm(form: FormSchema)
      modifies builder
      ensures builder.name == form.name && builder.fields == form.fields
      ensures builder.savedForms == old(builder.savedForms) && builder.error == old(builder.error)
      ensures builder.isLoading == old(builder.isLoading)
    {
      builder.LoadForm(form);
    }

    /** `handleDeleteForm`: remember the form and open the confirmation dialog. */
    method HandleDeleteForm(form: FormSchema)
      modifies this
      ensures formToDelete == Some(form) && deleteDialogOpen
    {
      formToDelete := Some(form);
      deleteDialogOpen := true;
    }

    /**
     * `confirmDeleteForm`: with a remembered form, drop every saved form with its
     * id and close the dialog; with none, do nothing.
     */
    method ConfirmDeleteForm()
      modifies this, builder
      ensures old(formToDelete).None? ==>
        builder.savedForms == old(builder.savedForms) && deleteDialogOpen == old(deleteDialogOpen) && formToDelete == None
      ensures old(formToDelete).Some? ==>
        && builder.savedForms == RemoveForm(old(builder.savedForms), old(formToDelete).value.id)
        && formToDelete == None && !deleteDialogOpen
      ensures builder.fields == old(builder.fields) && builder.name == old(builder.name)
      ensures builder.error == old(builder.error) && builder.isLoading == old(builder.isLoading)
    {
      if formToDelete.Some? {
        builder.DeleteForm(formToDelete.value.id);
        formToDelete := None;
        deleteDialogOpen := false;
      }
    }
  }
}
