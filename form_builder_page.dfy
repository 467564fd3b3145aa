/**
 * The builder page: the draft for a new field of each type, and the handlers
 * behind the add, update, delete, save, save-with-name, preview and clear
 * controls, with the page's own dialog, selection and name-input state.
 */
module FormBuilderPage {
  import opened Wrappers
  import opened JsValues
  import opened FormTypes
  import opened FormBuilderSlice
  import opened PreviewSlice
  import PreviewPage

  /** `toUpperCase` on one character, for the ASCII letters that field-type tags use. */
  function UpperAscii(c: char): (u: char)
    ensures 'a' <= c <= 'z' ==> 'A' <= u <= 'Z' && u as int - c as int == 'A' as int - 'a' as int
    ensures !('a' <= c <= 'z') ==> u == c
  {
    if 'a' <= c <= 'z' then (c as int - 'a' as int + 'A' as int) as char else c
  }

  /** `s.charAt(0).toUpperCase() + s.slice(1)`; the empty string stays empty. */
  function Capitalize(s: string): (r: string)
    ensures |r| == |s|
    ensures |s| > 0 ==> r[0] == UpperAscii(s[0]) && r[1..] == s[1..]
  {
    if s == [] then [] else [UpperAscii(s[0])] + s[1..]
  }

  /** Capitalizing twice is capitalizing once. */
  lemma CapitalizeIdempotent(s: string)
    ensures Capitalize(Capitalize(s)) == Capitalize(s)
  {
    if s != [] {
      assert UpperAscii(UpperAscii(s[0])) == UpperAscii(s[0]);
    }
  }

  /** The two options every new select or radio field starts with. */
  const StarterOptions: seq<FieldOption> := [FieldOption("Option 1", "option1"), FieldOption("Option 2", "option2")]

  /**
   * `handleAddField`'s draft: the capitalized tag followed by " Field", optional,
   * no rules, not derived, no default value or logic, and two starter options
   * exactly for select and radio.
   */
  function NewFieldDraft(t: FieldType): (d: FieldDraft)
    ensures d.fieldType == t && d.labelText == Capitalize(TypeName(t)) + " Field"
    ensures !d.required && d.validationRules == [] && !d.isDerived
    ensures d.defaultValue == Undefined && d.derivedLogic == None
    ensures d.options.Some? <==> t in {Select, Radio}
    ensures d.options.Some? ==> d.options.value == StarterOptions
  {
    FieldDraft(t, Capitalize(TypeName(t)) + " Field", false, Undefined, [],
      if t == Select || t == Radio then Some(StarterOptions) else None, false, None)
  }

  /** Capitalizing a word that starts with a lower-case ASCII letter upper-cases that letter. */
  lemma CapitalizeLowerInitial(s: string)
    requires |s| > 0 && 'a' <= s[0] <= 'z'
    ensures Capitalize(s) == [(s[0] as int - 32) as char] + s[1..]
  {
  }

  /** The default labels as they appear: only the first letter of the tag changes. */
  lemma NewFieldLabels()
    ensures NewFieldDraft(Text).labelText == "Text Field"
    ensures NewFieldDraft(TextArea).labelText == "Textarea Field"
    ensures NewFieldDraft(Checkbox).labelText == "Checkbox Field"
  {
    CapitalizeLowerInitial("text");
    CapitalizeLowerInitial("textarea");
    CapitalizeLowerInitial("checkbox");
    assert Capitalize("text") == "Text";
    assert Capitalize("textarea") == "Textarea";
    assert Capitalize("checkbox") == "Checkbox";
  }

  /** Every new field is appended as the last field with a fresh id and the next order. */
  lemma NewFieldIsAppended(fields: seq<FormField>, t: FieldType, freshId: string)
    requires DenseOrder(fields)
    ensures var r := AppendField(fields, NewFieldDraft(t), freshId);
      && DenseOrder(r) && r[..|fields|] == fields
      && r[|fields|].id == freshId && r[|fields|].labelText == NewFieldDraft(t).labelText
  {
    AppendFieldInvariants(fields, NewFieldDraft(t), freshId);
  }

  /** The page's own state beside the builder and answer stores. */
  class FormBuilderPage {
    const builder: FormBuilderStore
    const preview: PreviewStore
    var saveDialogOpen: bool
    var selectedField: Option<FormField>
    var formNameInput: string

    /** The name input starts from the current form's name. */
    constructor (builder: FormBuilderStore, preview: PreviewStore)
      ensures this.builder == builder && this.preview == preview
      ensures !saveDialogOpen && selectedField == None && formNameInput == builder.name
    {
      this.builder := builder;
      this.preview := preview;
      saveDialogOpen := false;
      selectedField := None;
      formNameInput := builder.name;
    }

    /** `handleAddField`: dispatch `addField` with the type's draft. */
    method HandleAddField(t: FieldType, freshId: string)
      modifies builder
      ensures builder.fields == AppendField(old(builder.fields), NewFieldDraft(t), freshId)
      ensures builder.name == old(builder.name) && builder.savedForms == old(builder.savedForms)
      ensures builder.error == old(builder.error)
      ensures builder.isLoading == old(builder.isLoading)
    {
      builder.AddField(NewFieldDraft(t), freshId);
    }

    /** `handleUpdateField`: dispatch `updateField` and select the edited field. */
    method HandleUpdateField(f: FormField)
      modifies this, builder
      ensures builder.fields == ReplaceField(old(builder.fields), f) && selectedField == Some(f)
      ensures builder.name == old(builder.name) && builder.savedForms == old(builder.savedForms)
      ensures saveDialogOpen == old(saveDialogOpen) && formNameInput == old(formNameInput)
      ensures builder.error == old(builder.error) && builder.isLoading == old(builder.isLoading)
    {
      builder.UpdateField(f);
      selectedField := Some(f);
    }

    /** `handleDeleteField`: dispatch `deleteField`, and drop the selection if it was that field. */
    method HandleDeleteField(id: string)
      modifies this, builder
      ensures builder.fields == RemoveField(old(builder.fields), id)
      ensures old(selectedField).Some? && old(selectedField).value.id == id ==> selectedField == None
      ensures !(old(selectedField).Some? && old(selectedField).value.id == id) ==> selectedField == old(selectedField)
      ensures builder.name == old(builder.name) && builder.savedForms == old(builder.savedForms)
      ensures saveDialogOpen == old(saveDialogOpen) && formNameInput == old(formNameInput)
      ensures builder.error == old(builder.error) && builder.isLoading == old(builder.isLoading)
    {
      builder.DeleteField(id);
      if selectedField.Some? && selectedField.value.id == id {
        selectedField := None;
      }
    }

    /** Dispatch `saveCurrentForm` and close the name dialog. */
    method SaveAndCloseDialog(freshId: string, now: string)
      modifies this, builder
      ensures IsBlank(old(builder.name)) ==>
        builder.error == Some("Form name is required") && builder.savedForms == old(builder.savedForms)
      ensures !IsBlank(old(builder.name)) ==>
        && builder.savedForms == old(builder.savedForms) + [FormSchema(freshId, old(builder.name), old(builder.fields), now, now)]
        && builder.error == None
      ensures builder.fields == old(builder.fields) && builder.name == old(builder.name)
      ensures !saveDialogOpen && selectedField == old(selectedField) && formNameInput == old(formNameInput)
      ensures builder.isLoading == old(builder.isLoading)
    {
      builder.SaveCurrentForm(freshId, now);
      saveDialogOpen := false;
    }

    /**
     * `handleSaveForm`: a blank name opens the name dialog; an empty field list
     * sets the "add at least one field" error; otherwise the form is saved and
     * the dialog closed. The clearing that follows one second later is
     * `HandleClearForm`.
     */
    method HandleSaveForm(freshId: string, now: string)
      modifies this, builder
      ensures IsBlank(old(builder.name)) ==>
        saveDialogOpen && builder.savedForms == old(builder.savedForms) && builder.error == old(builder.error)
      ensures !IsBlank(old(builder.name)) && |old(builder.fields)| == 0 ==>
        && builder.error == Some("Please add at least one field to the form")
        && builder.savedForms == old(builder.savedForms) && saveDialogOpen == old(saveDialogOpen)
      ensures !IsBlank(old(builder.name)) && |old(builder.fields)| > 0 ==>
        && builder.savedForms == old(builder.savedForms) + [FormSchema(freshId, old(builder.name), old(builder.fields), now, now)]
        && builder.error == None && !saveDialogOpen
      ensures builder.fields == old(builder.fields) && builder.name == old(builder.name)
      ensures selectedField == old(selectedField) && formNameInput == old(formNameInput)
      ensures builder.isLoading == old(builder.isLoading)
    {
      if IsBlank(builder.name) {
        saveDialogOpen := true;
        return;
      }
      if |builder.fields| == 0 {
        builder.SetError(Some("Please add at least one field to the form"));
        return;
      }
      SaveAndCloseDialog(freshId, now);
    }

    /**
     * `handleSaveWithName`: a blank input sets the "Form name is required" error;
     * otherwise the input becomes the form's name. The save that follows 100 ms
     * later is `SaveAndCloseDialog`, and the clearing one second after that is
     * `HandleClearForm`.
     */
    method HandleSaveWithName()
      modifies builder
      ensures IsBlank(formNameInput) ==>
        builder.error == Some("Form name is required") && builder.name == old(builder.name)
      ensures !IsBlank(formNameInput) ==> builder.name == formNameInput && builder.error == old(builder.error)
      ensures builder.fields == old(builder.fields) && builder.savedForms == old(builder.savedForms)
      ensures builder.isLoading == old(builder.isLoading)
    {
      if IsBlank(formNameInput) {
        builder.SetError(Some("Form name is required"));
        return;
      }
      builder.SetFormName(formNameInput);
    }

    /**
     * `handlePreview`: an empty field list sets the "preview" error; otherwise the
     * answer store gets a schema with id "temp", the form's name or "Untitled Form",
     * and the current fields, which also clears the answers and errors.
     */
    method HandlePreview(createdAt: string, updatedAt: string)
      modifies builder, preview
      ensures |old(builder.fields)| == 0 ==>
        && builder.error == Some("Please add at least one field to preview the form")
        && preview.currentSchema == old(preview.currentSchema) && preview.formData == old(preview.formData)
        && preview.validationErrors == old(preview.validationErrors)
      ensures |old(builder.fields)| > 0 ==>
        && preview.currentSchema == Some(PreviewPage.TempSchema(old(builder.name), old(builder.fields), createdAt, updatedAt))
        && preview.formData == map[] && preview.validationErrors == []
        && builder.error == old(builder.error)
      ensures builder.fields == old(builder.fields) && builder.name == old(builder.name)
      ensures builder.savedForms == old(builder.savedForms)
      ensures builder.isLoading == old(builder.isLoading)
    {
      if |builder.fields| == 0 {
        builder.SetError(Some("Please add at least one field to preview the form"));
        return;
      }
      preview.SetCurrentSchema(Some(PreviewPage.TempSchema(builder.name, builder.fields, createdAt, updatedAt)));
    }

    /** `handleClearForm`: an empty current form, no selection, an empty name input. */
    method HandleClearForm()
      modifies this, builder
      ensures builder.fields == [] && builder.name == "" && builder.error == None
      ensures builder.savedForms == old(builder.savedForms)
      ensures selectedField == None && formNameInput == "" && saveDialogOpen == old(saveDialogOpen)
      ensures builder.isLoading == old(builder.isLoading)
    {
      builder.ClearCurrentForm();
      selectedField := None;
      formNameInput := "";
    }
  }
}
