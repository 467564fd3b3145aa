/** The records of the form schema and the answer set. */
module FormTypes {
  import opened Wrappers
  import opened JsValues

  /** The seven widget kinds a field can have. */
  datatype FieldType = Text | Number | TextArea | Select | Radio | Checkbox | Date

  /** The string tag of a field type. */
  function TypeName(t: FieldType): string {
    match t
    case Text => "text"
    case Number => "number"
    case TextArea => "textarea"
    case Select => "select"
    case Radio => "radio"
    case Checkbox => "checkbox"
    case Date => "date"
  }

  /** The kind of a validation rule; a tag this version does not know is kept as `UnknownKind`. */
  datatype RuleKind = Required | MinLength | MaxLength | Email | Password | UnknownKind(tag: string)

  /**
   * The optional numeric parameter of a rule. The rule editor stores either nothing
   * or the result of `parseInt`, which may be NaN.
   */
  datatype Threshold = Unset | NotANumber | Int(n: int)

  /** `${rule.value}` in a message template. */
  function ThresholdText(t: Threshold): string {
    match t
    case Unset => "undefined"
    case NotANumber => "NaN"
    case Int(n) => IntToString(n)
  }

  /** A rule; `message == ""` also stands for a rule without a message (both are falsy). */
  datatype ValidationRule = ValidationRule(kind: RuleKind, value: Threshold, message: string)

  datatype FieldOption = FieldOption(labelText: string, value: string)

  /** How a derived field is computed: its parents' ids, a description, and the expression. */
  datatype DerivedLogic = DerivedLogic(parentFields: seq<string>, formula: string, computeFunction: string)

  /** A field of a form; `defaultValue == Undefined` when it has none. */
  datatype FormField = FormField(
    id: string,
    fieldType: FieldType,
    labelText: string,   // the source's `label` (a reserved word here)
    required: bool,
    defaultValue: JsValue,
    validationRules: seq<ValidationRule>,
    options: Option<seq<FieldOption>>,
    isDerived: bool,
    derivedLogic: Option<DerivedLogic>,
    order: int)

  /** The test of the `filter(field => field.isDerived)` calls. */
  predicate IsDerivedField(f: FormField) { f.isDerived }

  datatype FormSchema = FormSchema(id: string, name: string, fields: seq<FormField>, createdAt: string, updatedAt: string)

  datatype ValidationError = ValidationError(fieldId: string, message: string)

  /** The answers of one fill session: field id to value. */
  type FormData = map<string, JsValue>

  /** `formData[id]`: an absent key reads as `undefined`. */
  function Lookup(data: FormData, id: string): (v: JsValue)
    ensures id !in data ==> v == Undefined
    ensures id in data ==> v == data[id]
  {
    if id in data then data[id] else Undefined
  }

  /** No two fields share an id. */
  predicate UniqueIds(fs: seq<FormField>) {
    forall i, j :: 0 <= i < j < |fs| ==> fs[i].id != fs[j].id
  }
}
