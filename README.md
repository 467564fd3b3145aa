# Form Builder — a Dafny model of its form logic

The Form Builder is a browser application for building forms. A user adds
typed fields to a current form and configures each one: a label, validation
rules, choice options, and optionally derivation logic, which computes the
field from other fields with a JavaScript expression. The user saves the form
under a name, lists the saved forms, and fills a form in through a preview
page that validates the answers.

This project models the logic behind those pages:

- `Validation` (`validation.dfy`) covers rule, field and form validation, the
  e-mail and password checks, the default rules and the default messages.
- `PreviewSlice` (`preview_slice.dfy`) is the answer store: the answers, the
  error list and the active schema. It also holds the derived-field pass.
- `FormBuilderSlice` (`form_builder_slice.dfy`) is the builder store: the
  current form, the saved forms, the error banner and the loading flag.
- `FieldConfiguration` (`field_configuration.dfy`) holds the field panel's
  edit handlers.
- `PreviewPage`, `FormBuilderPage` and `MyFormsPage` hold the pages' handlers
  and local state.
- Shared pieces:
  - `Wrappers` is an `Option` type.
  - `JsValues` has the JavaScript values the answers can hold, with
    truthiness, `toString`, the UTF-16 length, the white-space class, blank
    checks and `||` on strings.
  - `FormTypes` has the records.
  - `Seqs` has `filter`.

The main modelling choices:

- **Stores and pages are classes.** Each reducer of a store and each page
  handler is a method. Its `modifies` clause names what it changes, and its
  `ensures` states the whole new state. Each new state is expressed through
  pure functions, such as `Validation.FormErrors`, `PreviewSlice.DerivedPass`,
  `FormBuilderSlice.RemoveField` and `FormBuilderSlice.MoveField`. The
  properties are proved about those functions.
- **The panel handlers are functions.** They only build a new field record
  (`{ ...field, ...updates }`), so they are modelled as functions.
- **The two validation loops are methods.** `validateField` and `validateForm`
  are loops, so `Validation.ValidateField` and `Validation.ValidateForm` are
  methods with loop invariants, proved against `Validation.FieldError` and
  `Validation.FormErrors`.
- **Field values.** A field's value is a `JsValue`: `undefined`, `null`, a
  boolean, an integer, a string or a date.
  - Length rules count UTF-16 code units of the value's `toString`, as
    JavaScript's `length` does.
  - A length rule whose threshold is absent or `NaN` never fails, because a
    comparison with `undefined` or `NaN` is false.
  - An empty `message` falls back to the labelled template, as `||` does.
- **The expression evaluator is a parameter.** `new Function(...)` evaluates
  a derived field's expression. It is modelled as a parameter of type
  `PreviewSlice.Evaluator`: a function from the expression and the context
  to "threw" or a returned value.
  - The model decides one case in which building the function surely throws
    before evaluation. The parameter text is the context keys joined by commas.
    When every key is plain (ASCII letters, digits, `_`, `$` and `-`, as in a
    UUID), each key is one parameter. A plain key that starts with a digit or
    holds a `-` is then a SyntaxError wherever it stands
    (`PreviewSlice.ParameterListRejected`).
  - Every other combination of keys goes to the evaluator. With brackets, `=`
    or quotes in the keys, the joined text can still be a valid parameter list
    (`a=1`, `[a]`, `{a}`), and a SyntaxError is one of the evaluator's
    `Threw` outcomes.
  - The model also decides that an empty expression (`return `) yields
    `undefined`.
  - Field ids are UUIDs, and the configuration panel stores parent field ids.
    So `PreviewSlice.UuidParentsNeverWrite` shows that, as written, a derived
    field that lists only real fields as its parents, at least one, never
    receives a value.
- **The derived pass reads as it goes.** `computeDerivedFields` visits the
  derived fields in schema order. Each field reads the answer map as the
  earlier fields of the same pass left it (`PreviewSlice.DerivedPassAppend`).
  A pass working from a snapshot would instead compute every derived field
  from the values before the pass; the code does not do that.
- **Generated ids and timestamps are parameters.** The uuid generator and
  the clock become `freshId`, `now`, `createdAt` and `updatedAt` parameters.
  A stored form looked up by the route id becomes a parameter (`found`).

## Model

| member | source | states |
|---|---|---|
| Validation.IsValidEmail | src/utils/Validation.ts:88-91 | no white space, a single `@` with a non-empty part before it, and a dot inside the part after it; an accepted address has its `@` at least four characters before the end |
| Validation.EmailRegexEquivalence | src/utils/Validation.ts:88-91 | the string checks of `IsValidEmail` hold exactly when the string matches `^[^\s@]+@[^\s@]+\.[^\s@]+$`: a non-empty run before a single `@`, and a dot after it with non-empty runs on both sides, all free of white space and `@` |
| Validation.IsValidPassword | src/utils/Validation.ts:96-100 | at least eight UTF-16 code units, no line terminator and an ASCII digit; eight characters of that kind always pass, and a passing string has at least four characters |
| Validation.PasswordRegexEquivalence | src/utils/Validation.ts:96-100 | the three checks hold exactly when the string matches `^(?=.*\d).{8,}$` read literally: a look-ahead for a digit after non-line-terminators, then eight or more code units of non-line-terminators |
| Validation.PasswordExamples | src/utils/Validation.ts:96-100 | a password needs at least 8 code units and a digit: "abc12345" passes, "abcdefgh" (no digit) and "ab1" (too short) fail |
| Validation.ValidateRule | src/utils/Validation.ts:25-62 | a rule yields a message exactly when its case's guard rejects the value; the message is the rule's own message or, when that is empty, the labelled template of its kind; a failing rule's message is never empty |
| Validation.RequiredRule | src/utils/Validation.ts:27-31 | `required` fails exactly on `undefined`, `null` and `""`; `0` and `false` pass |
| Validation.FalsyValuesSkipFormatRules | src/utils/Validation.ts:33-55 | minLength, maxLength, email and password never reject a falsy value |
| Validation.LengthRuleWithoutThreshold | src/utils/Validation.ts:33-43 | a length rule without a numeric threshold never fails |
| Validation.FieldError | src/utils/Validation.ts:8-10 | a derived field never has an error |
| Validation.FirstFailure | src/utils/Validation.ts:12-19 | a reported message is never empty |
| Validation.FirstFailureSpec | src/utils/Validation.ts:12-19 | a field's error is absent exactly when every rule passes; when present it is the message of a failing rule, every earlier rule passing |
| Validation.RequiredFlagIgnored | src/utils/Validation.ts:6-20 | the `required` flag of a field plays no part: only its rules are checked |
| Validation.ValidateField | src/utils/Validation.ts:6-20 | the loop returns the first failing rule's message, or none, i.e. `FieldError` |
| Validation.FormErrors | src/utils/Validation.ts:67-83 | there are never more errors than fields |
| Validation.ValidateForm | src/utils/Validation.ts:67-83 | the loop over the fields returns `FormErrors`: one error per failing field, in field order |
| Validation.FormErrorsAppend | src/utils/Validation.ts:70-80 | the errors of a concatenation of field lists are the errors of each part, in order |
| Validation.FormErrorsSound | src/utils/Validation.ts:70-80 | every error names a field of the list and carries that field's `validateField` message |
| Validation.FormErrorsComplete | src/utils/Validation.ts:70-80 | every field whose validation fails contributes an error with its id and its message |
| Validation.FormErrorsEmpty | src/utils/Validation.ts:67-83 | the error list is empty exactly when every field passes |
| Validation.DerivedFieldExempt | src/utils/Validation.ts:8-10 | no error ever names a derived field |
| Validation.ShortCircuitExample | src/utils/Validation.ts:12-17 | rules `[required, minLength 5]` on `""` report only the required message |
| Validation.EmailAccepted | src/utils/Validation.ts:88-91 | "a@b.c" is an e-mail address |
| Validation.EmailRejected | src/utils/Validation.ts:88-91 | "not-an-email" is not an e-mail address |
| Validation.DefaultMessage | src/utils/Validation.ts:148-163 | every rule kind, including an unknown one, has a non-empty default message |
| Validation.CreateValidationRule | src/utils/Validation.ts:133-143 | the rule keeps its kind and threshold, and a non-empty given message, else the default message for its kind; its message is never empty |
| Validation.DefaultValidationRules | src/utils/Validation.ts:105-128 | "email" gives exactly the e-mail rule and "password" exactly the password rule, each without a threshold and with the default message of its kind; any other tag gives none |
| Validation.NoDefaultRulesForFieldTypes | src/utils/Validation.ts:105-128 | none of the seven field types has default rules |
| PreviewSlice.WithoutErrorsFor | src/store/slices/previewSlice.ts:47-51 | the filtered list keeps exactly the errors for other fields |
| PreviewSlice.WithoutErrorsForAppend | src/store/slices/previewSlice.ts:47-51 | filtering distributes over concatenation, so order is kept |
| PreviewSlice.WithError | src/store/slices/previewSlice.ts:39-45 | the new error ends the list, the earlier errors for that field are gone, the others stay in order, and it is the only error for its field |
| PreviewSlice.ParentValues | src/store/slices/previewSlice.ts:68-71 | one entry per parent id, holding that id's answer (`undefined` when unanswered) |
| PreviewSlice.CollectParentValues | src/store/slices/previewSlice.ts:68-71 | the loop over the parent ids builds `ParentValues` |
| PreviewSlice.BuildContext | src/store/slices/previewSlice.ts:101-107 | the context has the parent keys plus `formData`, `Math` and `Date`; those three names are overridden, the other parent values are kept |
| PreviewSlice.ParameterListRejected | src/store/slices/previewSlice.ts:110 | building surely fails only with a key that is not an identifier; a key outside the plain characters leaves the outcome to the evaluator |
| PreviewSlice.ReservedNamesKeepRejection | src/store/slices/previewSlice.ts:101-110 | adding `formData`, `Math` and `Date` to the keys never changes whether the parameter list is rejected |
| PreviewSlice.ComputeDerivedValue | src/store/slices/previewSlice.ts:94-116 | `undefined` when the parameter list is rejected or the expression is empty; otherwise the evaluator's result, a throw reading as `undefined`; any defined result is exactly what the evaluator returned |
| PreviewSlice.DeriveStep | src/store/slices/previewSlice.ts:64-88 | a field without logic changes nothing; a step removes no key, adds at most the field's own id, keeps every other answer, and never stores `undefined` over an absent or different answer |
| PreviewSlice.DerivedPass | src/store/slices/previewSlice.ts:64-88 | the pass removes no key, and a key it adds holds a defined value |
| PreviewSlice.DerivedFields | src/store/slices/previewSlice.ts:62 | exactly the derived fields of the schema |
| PreviewSlice.DerivedFieldsAppend | src/store/slices/previewSlice.ts:62 | selecting the derived fields distributes over concatenation, so schema order is kept |
| PreviewSlice.DerivedFieldsNonEmpty | src/store/slices/previewSlice.ts:62 | the pass has a field to visit exactly when the schema holds a derived field |
| PreviewSlice.DerivedPassAppend | src/store/slices/previewSlice.ts:64-88 | a pass over `a + b` runs over `b` from what the pass over `a` wrote: later fields see earlier results of the same pass |
| PreviewSlice.DerivedPassFrame | src/store/slices/previewSlice.ts:81-83 | the pass removes no key, and every id other than a derived field's keeps its answer or its absence |
| PreviewSlice.StepWritesIffDefined | src/store/slices/previewSlice.ts:75-83 | a step writes exactly when the value is defined, then stores that value, which is the evaluator's own result |
| PreviewSlice.ValidNamesReachEvaluator | src/store/slices/previewSlice.ts:110-114 | with a non-empty expression and identifier parent ids, the evaluator's result passes through, a throw reading as `undefined` |
| PreviewSlice.OddNamesReachEvaluator | src/store/slices/previewSlice.ts:110-114 | with a non-empty expression and a parent id holding a character outside the plain set (such as `a=1`), the evaluator decides the outcome |
| PreviewSlice.PassOfTwo | src/store/slices/previewSlice.ts:64-88 | a pass over two fields is the second one's step after the first one's |
| PreviewSlice.FailureIsIsolated | src/store/slices/previewSlice.ts:84-86 | when one derived field throws, its answer is kept, and the next field still receives its computed value |
| PreviewSlice.UuidParentsNeverWrite | src/store/slices/previewSlice.ts:101-111 | when every field with logic has only plain parent ids, one of them holding a `-` (as UUIDs do), the pass writes nothing |
| PreviewSlice.EmptyExpressionNeverWrites | src/store/slices/previewSlice.ts:110 | logic with no expression never writes a value |
| PreviewSlice.PreviewStore.constructor | src/store/slices/previewSlice.ts:4-8 | no answers, no errors, no schema |
| PreviewSlice.PreviewStore.SetCurrentSchema | src/store/slices/previewSlice.ts:14-19 | the schema is replaced and the answers and errors are cleared |
| PreviewSlice.PreviewStore.UpdateFormData | src/store/slices/previewSlice.ts:21-29 | the one answer is set and that field's errors are dropped; the schema is kept |
| PreviewSlice.PreviewStore.SetFormData | src/store/slices/previewSlice.ts:31-33 | the answers are replaced; errors and schema are kept |
| PreviewSlice.PreviewStore.SetValidationErrors | src/store/slices/previewSlice.ts:35-37 | the error list is replaced; answers and schema are kept |
| PreviewSlice.PreviewStore.AddValidationError | src/store/slices/previewSlice.ts:39-45 | the error list becomes `WithError` of the old one |
| PreviewSlice.PreviewStore.RemoveValidationError | src/store/slices/previewSlice.ts:47-51 | the error list loses exactly that field's errors |
| PreviewSlice.PreviewStore.ClearFormData | src/store/slices/previewSlice.ts:53-56 | no answers and no errors; the schema is kept |
| PreviewSlice.PreviewStore.ComputeDerivedFields | src/store/slices/previewSlice.ts:59-89 | without a schema nothing changes; otherwise the answers become the read-as-you-go pass over the schema's derived fields |
| FormBuilderSlice.Complete | src/store/slices/formBuilderSlice.ts:26-30 | the new field is the draft with the given id and order |
| FormBuilderSlice.Renumber | src/store/slices/formBuilderSlice.ts:58-61 | `order` becomes each field's index, and nothing else changes |
| FormBuilderSlice.AppendField | src/store/slices/formBuilderSlice.ts:25-32 | the old fields stay in place, followed by the completed draft whose order is the old count |
| FormBuilderSlice.AppendFieldInvariants | src/store/slices/formBuilderSlice.ts:25-32 | adding keeps dense orders, and keeps ids distinct when the new id is fresh |
| FormBuilderSlice.FindIndex | src/store/slices/formBuilderSlice.ts:35-37 | the first index with the id, or none exactly when no field has it |
| FormBuilderSlice.ReplaceField | src/store/slices/formBuilderSlice.ts:34-41 | a missing id changes nothing; otherwise only the first field with the id is replaced |
| FormBuilderSlice.ReplaceFieldKeepsDenseOrder | src/store/slices/formBuilderSlice.ts:34-41 | a replacement that keeps its slot's order keeps dense orders |
| FormBuilderSlice.RemoveField | src/store/slices/formBuilderSlice.ts:43-47 | no field keeps the id, orders are dense, and the rest is the other fields in order |
| FormBuilderSlice.RemoveFieldSpec | src/store/slices/formBuilderSlice.ts:44-45 | the kept fields are exactly the fields with another id, each as often as it occurred |
| FormBuilderSlice.RemoveFieldAppend | src/store/slices/formBuilderSlice.ts:43-47 | deletion distributes over concatenation, so the others keep their relative order |
| FormBuilderSlice.MoveField | src/store/slices/formBuilderSlice.ts:49-62 | orders are dense and the dragged field lands at the hover index, clamped to the end as `splice` does |
| FormBuilderSlice.MoveFieldPermutes | src/store/slices/formBuilderSlice.ts:49-62 | reordering is a permutation of the fields, orders aside |
| FormBuilderSlice.RemoveForm | src/store/slices/formBuilderSlice.ts:99-100 | exactly the saved forms with another id remain, each as often as before |
| FormBuilderSlice.RemoveFormAppend | src/store/slices/formBuilderSlice.ts:99-100 | deleting a saved form distributes over concatenation, so the others keep their order |
| FormBuilderSlice.FormBuilderStore.constructor | src/store/slices/formBuilderSlice.ts:6-14 | an empty, unnamed current form, the stored forms, not loading, no error |
| FormBuilderSlice.FormBuilderStore.SetFormName | src/store/slices/formBuilderSlice.ts:21-23 | only the name changes |
| FormBuilderSlice.FormBuilderStore.AddField | src/store/slices/formBuilderSlice.ts:25-32 | the fields become `AppendField` of the old ones |
| FormBuilderSlice.FormBuilderStore.UpdateField | src/store/slices/formBuilderSlice.ts:34-41 | the fields become `ReplaceField` of the old ones |
| FormBuilderSlice.FormBuilderStore.DeleteField | src/store/slices/formBuilderSlice.ts:43-47 | the fields become `RemoveField` of the old ones |
| FormBuilderSlice.FormBuilderStore.ReorderFields | src/store/slices/formBuilderSlice.ts:49-62 | the fields become `MoveField` of the old ones |
| FormBuilderSlice.FormBuilderStore.SaveCurrentForm | src/store/slices/formBuilderSlice.ts:65-82 | a blank name sets "Form name is required" and saves nothing; otherwise a schema of the name and fields is appended and the error is cleared |
| FormBuilderSlice.FormBuilderStore.LoadForm | src/store/slices/formBuilderSlice.ts:84-89 | the current name and fields become the schema's |
| FormBuilderSlice.FormBuilderStore.ClearCurrentForm | src/store/slices/formBuilderSlice.ts:91-97 | no fields, no name, no error; saved forms are kept |
| FormBuilderSlice.FormBuilderStore.DeleteForm | src/store/slices/formBuilderSlice.ts:99-104 | the saved forms become `RemoveForm` of the old ones |
| FormBuilderSlice.FormBuilderStore.SetError | src/store/slices/formBuilderSlice.ts:106-108 | only the error changes |
| FormBuilderSlice.FormBuilderStore.SetLoading | src/store/slices/formBuilderSlice.ts:110-112 | only the loading flag changes |
| FieldConfiguration.ApplyPatch | src/components/FormBuilder/FieldConfiguration.tsx:48-50 | every key present in the update wins, every other key of the field is kept, and id, type and order are kept |
| FieldConfiguration.NoChangeIsIdentity | src/components/FormBuilder/FieldConfiguration.tsx:48-50 | an empty update gives the field back |
| FieldConfiguration.RemoveAt | src/components/FormBuilder/FieldConfiguration.tsx:70 | drops exactly the element at the index, keeping the rest in order; an index out of range drops nothing |
| FieldConfiguration.AddValidationRule | src/components/FormBuilder/FieldConfiguration.tsx:52-67 | without a chosen kind there is no update; with one, only the rules change, gaining the created rule at the end |
| FieldConfiguration.RemoveValidationRule | src/components/FormBuilder/FieldConfiguration.tsx:69-72 | only the rules change, losing the one at the index |
| FieldConfiguration.RemoveAddedRule | src/components/FormBuilder/FieldConfiguration.tsx:52-72 | removing the rule just added restores the field |
| FieldConfiguration.AddOption | src/components/FormBuilder/FieldConfiguration.tsx:74-83 | only the options change: the old ones (none when absent) are followed by `Option k` / `optionk`, k being the old count plus one |
| FieldConfiguration.UpdateOption | src/components/FormBuilder/FieldConfiguration.tsx:85-92 | only the option at the index takes the given label and value; the others and the count are kept |
| FieldConfiguration.UpdateOptionOutOfRange | src/components/FormBuilder/FieldConfiguration.tsx:85-92 | an index outside the list changes no option |
| FieldConfiguration.RemoveOption | src/components/FormBuilder/FieldConfiguration.tsx:94-97 | only the options change, losing the one at the index |
| FieldConfiguration.RemoveAddedOption | src/components/FormBuilder/FieldConfiguration.tsx:74-97 | removing the option just added restores the options |
| FieldConfiguration.ToggleDerived | src/components/FormBuilder/FieldConfiguration.tsx:99-115 | on sets the flag and empty logic; off clears the flag and removes the logic; nothing else changes |
| FieldConfiguration.ToggleDerivedIdempotent | src/components/FormBuilder/FieldConfiguration.tsx:99-115 | toggling to a state twice is toggling once; switching off forgets any earlier logic |
| FieldConfiguration.UpdateDerivedLogic | src/components/FormBuilder/FieldConfiguration.tsx:117-121 | only the logic changes: every given key replaces the old one, the others are kept |
| FieldConfiguration.ParentCandidates | src/components/FormBuilder/FieldConfiguration.tsx:124-126 | no candidate is the field itself or a derived field |
| FieldConfiguration.ParentCandidatesSpec | src/components/FormBuilder/FieldConfiguration.tsx:124-126 | the candidates are exactly the available fields that are neither the field itself nor derived |
| FieldConfiguration.ParentCandidatesAppend | src/components/FormBuilder/FieldConfiguration.tsx:124-126 | the candidate list distributes over concatenation, so it keeps the builder's field order |
| FieldConfiguration.SaveLogicDisabled | src/components/FormBuilder/FieldConfiguration.tsx:498-501 | Save Logic is enabled exactly when the logic has a parent and an expression |
| FieldConfiguration.FreshLogicCannotBeSaved | src/components/FormBuilder/FieldConfiguration.tsx:99-108 | the empty logic installed by switching a field to derived leaves Save Logic disabled |
| FieldConfiguration.DependencyLabel | src/components/FormBuilder/FieldConfiguration.tsx:244-245 | the label of the first available field with the id, or the id itself when none has it |
| FieldConfiguration.DependencyLabels | src/components/FormBuilder/FieldConfiguration.tsx:243-246 | one label per parent id, in order |
| PreviewPage.ShouldRecompute | src/pages/PreviewPage.tsx:67-71 | the effect recomputes exactly when there is a schema whose derived-field list is not empty |
| PreviewPage.TempSchema | src/pages/PreviewPage.tsx:55-61 | the unsaved schema has id "temp", the current fields, and the form's name or "Untitled Form" when it is empty |
| PreviewPage.Insert | src/pages/PreviewPage.tsx:176 | inserting into a list sorted by `order` keeps it sorted and adds exactly that field |
| PreviewPage.SortByOrder | src/pages/PreviewPage.tsx:176 | the fields are shown in ascending `order`, a permutation of the schema's |
| PreviewPage.SortKeepsSortedList | src/pages/PreviewPage.tsx:176 | a list already in order is shown as it is |
| PreviewPage.ShownError | src/pages/PreviewPage.tsx:327 | the first error for the id; none exactly when no error names the id |
| PreviewPage.ShownErrorAppend | src/pages/PreviewPage.tsx:327 | a lookup in a concatenation finds the first part's error when it has one |
| PreviewPage.NoErrorForForeignId | src/pages/PreviewPage.tsx:327 | after validation no error is shown under an id that no field has |
| PreviewPage.ShownErrorIsFieldError | src/pages/PreviewPage.tsx:78-90 | with distinct ids, the error shown under each field after submit is that field's `validateField` result |
| PreviewPage.PreviewPage.LoadSchemaEffect | src/pages/PreviewPage.tsx:46-64 | with a route id the stored form becomes the schema if one is found; without one a non-empty current form becomes the "temp" schema; otherwise nothing changes |
| PreviewPage.PreviewPage.HandleFieldChange | src/pages/PreviewPage.tsx:73-76 | the answer is stored, that field's errors are dropped, and the submitted flag is cleared |
| PreviewPage.PreviewPage.HandleSubmit | src/pages/PreviewPage.tsx:78-90 | without a schema nothing changes; otherwise the errors become `validateForm` of the fields and answers, and the form is submitted exactly when there are none, which is exactly when every field passes |
| PreviewPage.PreviewPage.HandleReset | src/pages/PreviewPage.tsx:92-95 | no answers, no errors, not submitted; the schema is kept |
| PreviewPage.PreviewPage.RecomputeDerived | src/pages/PreviewPage.tsx:67-71 | the pass runs exactly when the schema has a derived field |
| PreviewPage.RequiredScenario | src/pages/PreviewPage.tsx:78-90 | a required field A left empty beside a derived field gives the single error "A is required" |
| FormBuilderPage.UpperAscii | src/pages/FormBuilderPage.tsx:57 | lower-case ASCII letters map to upper case, and every other character is kept |
| FormBuilderPage.Capitalize | src/pages/FormBuilderPage.tsx:57 | only the first character is upper-cased, and the length is kept |
| FormBuilderPage.CapitalizeIdempotent | src/pages/FormBuilderPage.tsx:57 | capitalizing twice is capitalizing once |
| FormBuilderPage.NewFieldDraft | src/pages/FormBuilderPage.tsx:54-71 | the label is the capitalized type followed by " Field"; the field is optional, has no rules, is not derived, and has the two starter options exactly for select and radio |
| FormBuilderPage.NewFieldLabels | src/pages/FormBuilderPage.tsx:57 | "Text Field", "Textarea Field" and "Checkbox Field" |
| FormBuilderPage.NewFieldIsAppended | src/pages/FormBuilderPage.tsx:54-71 | a new field ends the list with the fresh id and keeps orders dense |
| FormBuilderPage.FormBuilderPage.constructor | src/pages/FormBuilderPage.tsx:51-53 | the dialog is closed, nothing is selected, and the name input is the form's name |
| FormBuilderPage.FormBuilderPage.HandleAddField | src/pages/FormBuilderPage.tsx:54-71 | the type's draft is appended |
| FormBuilderPage.FormBuilderPage.HandleUpdateField | src/pages/FormBuilderPage.tsx:73-76 | the field is replaced and becomes the selection |
| FormBuilderPage.FormBuilderPage.HandleDeleteField | src/pages/FormBuilderPage.tsx:78-83 | the field is removed, and the selection is dropped exactly when it was that field |
| FormBuilderPage.FormBuilderPage.SaveAndCloseDialog | src/pages/FormBuilderPage.tsx:113-115 | `saveCurrentForm` is dispatched and the dialog closes |
| FormBuilderPage.FormBuilderPage.HandleSaveForm | src/pages/FormBuilderPage.tsx:85-104 | a blank name opens the dialog and saves nothing; no fields sets "Please add at least one field to the form"; otherwise the form is saved and the dialog closes |
| FormBuilderPage.FormBuilderPage.HandleSaveWithName | src/pages/FormBuilderPage.tsx:106-123 | a blank input sets "Form name is required", otherwise the input becomes the name |
| FormBuilderPage.FormBuilderPage.HandlePreview | src/pages/FormBuilderPage.tsx:125-141 | no fields sets "Please add at least one field to preview the form"; otherwise the "temp" schema becomes active with no answers or errors |
| FormBuilderPage.FormBuilderPage.HandleClearForm | src/pages/FormBuilderPage.tsx:143-147 | the form is empty and unnamed, with no error, no selection and an empty name input |
| MyFormsPage.GetFormStats | src/pages/MyFormPage.tsx:72-84 | the number of fields, and the number of positions holding a required field, a derived field and a field with rules, each at most the total |
| MyFormsPage.AllDerivedCounted | src/pages/MyFormPage.tsx:72-84 | when every field is derived, the derived count is the total |
| MyFormsPage.MyFormsPage.constructor | src/pages/MyFormPage.tsx:45-46 | the dialog is closed and no form is marked |
| MyFormsPage.MyFormsPage.HandlePreviewForm | src/pages/MyFormPage.tsx:48-51 | the form becomes the active schema with no answers or errors |
| MyFormsPage.MyFormsPage.HandleEditForm | src/pages/MyFormPage.tsx:53-56 | the form is loaded as the current form |
| MyFormsPage.MyFormsPage.HandleDeleteForm | src/pages/MyFormPage.tsx:58-61 | the form is marked and the dialog opens |
| MyFormsPage.MyFormsPage.ConfirmDeleteForm | src/pages/MyFormPage.tsx:63-70 | with a marked form, every saved form with its id is removed and the dialog closes; without one nothing changes |

## Left out

- Browser storage is not modelled: loading, saving and deleting forms in local
  storage, and the storage lookup of a saved form by id.
  - The stored forms enter through the `FormBuilderStore` constructor.
  - A lookup result enters through the `found` parameter of `LoadSchemaEffect`.
- Navigation and rendering (JSX, dialogs' visual state, the field renderers)
  are not modelled. The console messages of a failed derivation and of a
  successful submit are not modelled either.
- The uuid generator and the clock are parameters. `saveCurrentForm` reads the
  clock twice; the model passes one `now` for both timestamps.
- Timers: the 100 ms and 1000 ms `setTimeout` callbacks after a save are
  modelled as the separate methods `SaveAndCloseDialog` and `HandleClearForm`.
  Their scheduling and interleaving with other events are not modelled.
- The evaluator is abstract. The JavaScript expression language is not
  modelled, and nothing is claimed about what an expression computes.
  Identifier rules beyond ASCII (Unicode letters, reserved words such as
  `class` as a key) are not modelled: such keys are passed to the evaluator.
- Answers are integers, strings, booleans, dates, `null` and `undefined`.
  Floating-point numbers, `NaN` answers, arrays and objects are not modelled.
- Rule thresholds are integers, absent or `NaN`. A string threshold (the type
  allows `value?: number | string`) is not modelled, so the comparisons that
  would coerce it are not either.
- `Object.keys` order decides the parameter order of the built function. The
  context is a map, so that order is not modelled. With only plain keys the
  order does not change whether building fails. With other keys it can, and
  then the evaluator's outcome stands for the outcome under the source's order.
- PreviewPage.SortByOrder: the model does not state that `sort` is stable. Its
  contract gives sortedness and the permutation only.
- FormBuilderSlice.FormBuilderStore.ReorderFields: requires the drag index to
  be in range. An out-of-range drag makes the source insert `undefined` into
  the field list, which the model cannot represent. The hover index is a `nat`,
  so `splice`'s counting of a negative index from the end is not modelled.
- FieldConfiguration.UpdateDerivedLogic: requires the field to have logic,
  which the source asserts with `!`. Without logic the source spreads
  `undefined` and would store logic with missing keys.
- No idempotence property of the derived pass is stated. An expression may read
  its own field or another derived field, and then a second pass differs from
  the first, whether the pass reads as it goes or works from a snapshot.
- PreviewPage.PreviewPage.RecomputeDerived: one call is one pass. The effect
  depends on `formData`, so a pass that writes a new value makes React run the
  effect again, until a pass writes nothing new. With an expression that uses
  `Date` or `Math.random`, that may never happen. The repetition is not
  modelled.
- The evaluator sees `formData` as a value. The source hands it the live draft
  of the answer map and the global `Date`. The model assumes that an expression
  does not write through `formData` and that it gives the same result for the
  same inputs.
- The dialog state of the rule editor and the derived-logic editor is not
  modelled, apart from the Save Logic condition.
