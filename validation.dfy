/**
 * Rule, field and form validation, the e-mail and password checks, and the
 * default rule messages.
 */
module Validation {
  import opened Wrappers
  import opened JsValues
  import opened FormTypes

  // ---------------------------------------------------------------- e-mail

  /** A character of the class `[^\s@]`. */
  predicate EmailChar(c: char) {
    !IsJsSpace(c) && c != '@'
  }

  /** The first position of `c` in `s`, or -1 (`indexOf`). */
  function IndexOf(s: string, c: char): (r: int)
    ensures -1 <= r < |s|
    ensures r == -1 <==> c !in s
    ensures r >= 0 ==> s[r] == c && c !in s[..r]
  {
    if s == [] then -1
    else if s[0] == c then 0
    else
      var t := IndexOf(s[1..], c);
      if t == -1 then -1
      else
        assert s[..t + 1] == [s[0]] + s[1..][..t];
        t + 1
  }

  /** The domain part contains a dot that is neither its first nor its last character. */
  predicate HasInnerDot(d: string) {
    exists j :: 0 < j < |d| - 1 && d[j] == '.'
  }

  /**
   * `isValidEmail`, stated as checks on the string: no white space, exactly one `@`
   * with a non-empty part before it, and an inner dot in the part after it.
   */
  predicate IsValidEmail(s: string)
    ensures IsValidEmail(s) ==> 0 < IndexOf(s, '@') <= |s| - 4
  {
    var at := IndexOf(s, '@');
    && (forall k :: 0 <= k < |s| ==> !IsJsSpace(s[k]))
    && at > 0
    && '@' !in s[at + 1..]
    && HasInnerDot(s[at + 1..])
  }

  /**
   * The regular expression `^[^\s@]+@[^\s@]+\.[^\s@]+$` read literally: `s` splits
   * at an `@` (position i) and a later dot (position j) into three non-empty runs
   * of `[^\s@]` characters.
   */
  ghost predicate MatchesEmailRegex(s: string) {
    exists i, j ::
      0 < i && i + 1 < j && j + 1 < |s| && s[i] == '@' && s[j] == '.'
      && (forall k :: 0 <= k < |s| && k != i ==> EmailChar(s[k]))
  }

  /** The string checks and the regular expression accept exactly the same strings. */
  lemma EmailRegexEquivalence(s: string)
    ensures IsValidEmail(s) <==> MatchesEmailRegex(s)
  {
    var at := IndexOf(s, '@');
    if IsValidEmail(s) {
      var d := s[at + 1..];
      var j :| 0 < j < |d| - 1 && d[j] == '.';
      assert s[at + 1 + j] == '.';
      forall k | 0 <= k < |s| && k != at
        ensures EmailChar(s[k])
      {
        if k < at {
          assert s[k] == s[..at][k];
        } else {
          assert s[k] == d[k - at - 1];
        }
      }
      assert MatchesEmailRegex(s) by {
        var i0, j0 := at, at + 1 + j;
        assert 0 < i0 && i0 + 1 < j0 && j0 + 1 < |s| && s[i0] == '@' && s[j0] == '.';
      }
    }
    if MatchesEmailRegex(s) {
      var i, j :| 0 < i && i + 1 < j && j + 1 < |s| && s[i] == '@' && s[j] == '.'
        && (forall k :: 0 <= k < |s| && k != i ==> EmailChar(s[k]));
      assert '@' !in s[..i] by {
        forall k | 0 <= k < i ensures s[..i][k] != '@' { assert EmailChar(s[k]); }
      }
      assert at == i by {
        assert '@' in s by { assert s[i] == '@'; }
        assert forall k :: 0 <= k < |s| && s[k] == '@' ==> k == i by {
          forall k | 0 <= k < |s| && k != i ensures s[k] != '@' { assert EmailChar(s[k]); }
        }
      }
      var d := s[i + 1..];
      assert '@' !in d by {
        forall k | 0 <= k < |d| ensures d[k] != '@' { assert EmailChar(s[i + 1 + k]); }
      }
      assert d[j - i - 1] == '.';
      assert HasInnerDot(d);
      forall k | 0 <= k < |s| ensures !IsJsSpace(s[k]) {
        if k != i { assert EmailChar(s[k]); }
      }
    }
  }

  // -------------------------------------------------------------- password

  /**
   * `isValidPassword`, the regular expression `^(?=.*\d).{8,}$` without flags:
   * at least eight UTF-16 code units, none of them a line terminator (`.` does not
   * match one), and an ASCII digit somewhere.
   */
  predicate IsValidPassword(s: string)
    ensures IsValidPassword(s) ==> |s| >= 4
    ensures (|s| >= 8 && (forall k :: 0 <= k < |s| ==> !IsLineTerminator(s[k]))
             && (exists k :: 0 <= k < |s| && IsAsciiDigit(s[k]))) ==> IsValidPassword(s)
  {
    && Utf16Length(s) >= 8
    && (forall k :: 0 <= k < |s| ==> !IsLineTerminator(s[k]))
    && (exists k :: 0 <= k < |s| && IsAsciiDigit(s[k]))
  }

  /**
   * The regular expression `^(?=.*\d).{8,}$` read literally: at the start, a run of
   * non-line-terminators followed by a digit (the look-ahead), and the whole string
   * at least eight code units of non-line-terminators. A character beyond the
   * Basic Multilingual Plane is two code units, neither of them a line terminator.
   */
  ghost predicate MatchesPasswordRegex(s: string) {
    && (exists k :: 0 <= k < |s| && IsAsciiDigit(s[k]) && forall j :: 0 <= j < k ==> !IsLineTerminator(s[j]))
    && (forall k :: 0 <= k < |s| ==> !IsLineTerminator(s[k]))
    && Utf16Length(s) >= 8
  }

  /** The three checks and the regular expression accept exactly the same strings. */
  lemma PasswordRegexEquivalence(s: string)
    ensures IsValidPassword(s) <==> MatchesPasswordRegex(s)
  {
  }

  // ------------------------------------------------------------ rule level

  /** `length < rule.value`; a comparison with `undefined` or NaN is false. */
  predicate Below(len: int, t: Threshold) {
    t.Int? && len < t.n
  }

  /** `length > rule.value`; a comparison with `undefined` or NaN is false. */
  predicate Above(len: int, t: Threshold) {
    t.Int? && len > t.n
  }

  /** Whether `rule` rejects `value` (the guard of each `case` of `validateRule`). */
  predicate RuleFails(rule: ValidationRule, value: JsValue) {
    match rule.kind
    case Required => value == Undefined || value == Null || value == Str("")
    case MinLength => Truthy(value) && Below(Utf16Length(ToStr(value)), rule.value)
    case MaxLength => Truthy(value) && Above(Utf16Length(ToStr(value)), rule.value)
    case Email => Truthy(value) && !IsValidEmail(ToStr(value))
    case Password => Truthy(value) && !IsValidPassword(ToStr(value))
    case UnknownKind(_) => false
  }

  /** The message `validateRule` builds for a failing rule that has no message of its own. */
  function LabelledMessage(kind: RuleKind, value: Threshold, fieldLabel: string): string {
    match kind
    case Required => fieldLabel + " is required"
    case MinLength => fieldLabel + " must be at least " + ThresholdText(value) + " characters long"
    case MaxLength => fieldLabel + " must be no more than " + ThresholdText(value) + " characters long"
    case Email => fieldLabel + " must be a valid email address"
    case Password => fieldLabel + " must be at least 8 characters long and contain at least one number"
    case UnknownKind(_) => fieldLabel + " is invalid"   // never used: such a rule never fails
  }

  /** `validateRule`: the rule's message (or the labelled template) when it fails, else null. */
  function ValidateRule(rule: ValidationRule, value: JsValue, fieldLabel: string): (r: Option<string>)
    ensures r.Some? <==> RuleFails(rule, value)
    ensures r.Some? ==> r.value != ""
    ensures r.Some? ==> r.value == OrElse(rule.message, LabelledMessage(rule.kind, rule.value, fieldLabel))
  {
    if RuleFails(rule, value) then Some(OrElse(rule.message, LabelledMessage(rule.kind, rule.value, fieldLabel)))
    else None
  }

  /** `required` fails exactly on undefined, null and the empty string; 0 and false pass. */
  lemma RequiredRule(rule: ValidationRule, value: JsValue, fieldLabel: string)
    requires rule.kind == Required
    ensures ValidateRule(rule, value, fieldLabel).Some? <==> value in {Undefined, Null, Str("")}
    ensures ValidateRule(rule, Num(0), fieldLabel).None? && ValidateRule(rule, Bool(false), fieldLabel).None?
    ensures ValidateRule(rule, Undefined, fieldLabel) == Some(OrElse(rule.message, fieldLabel + " is required"))
  {
  }

  /** Length, e-mail and password rules never fail on a falsy value, whatever their parameter. */
  lemma FalsyValuesSkipFormatRules(rule: ValidationRule, value: JsValue, fieldLabel: string)
    requires rule.kind in {MinLength, MaxLength, Email, Password}
    requires !Truthy(value)
    ensures ValidateRule(rule, value, fieldLabel) == None
  {
  }

  /** A length rule whose threshold is missing or NaN never fails. */
  lemma LengthRuleWithoutThreshold(rule: ValidationRule, value: JsValue, fieldLabel: string)
    requires rule.kind in {MinLength, MaxLength}
    requires !rule.value.Int?
    ensures ValidateRule(rule, value, fieldLabel) == None
  {
  }

  // ----------------------------------------------------------- field level

  /** The message of the first failing rule of `rules`, in list order. */
  function FirstFailure(rules: seq<ValidationRule>, value: JsValue, fieldLabel: string): (r: Option<string>)
    ensures r.Some? ==> r.value != ""
  {
    if rules == [] then None
    else
      var e := ValidateRule(rules[0], value, fieldLabel);
      if e.Some? then e else FirstFailure(rules[1..], value, fieldLabel)
  }

  /** What `validateField` returns: nothing for a derived field, else the first failing rule's message. */
  function FieldError(field: FormField, value: JsValue): (r: Option<string>)
    ensures field.isDerived ==> r == None
  {
    if field.isDerived then None else FirstFailure(field.validationRules, value, field.labelText)
  }

  /**
   * `FirstFailure` is `Some(m)` exactly when some rule k fails with message m and
   * every earlier rule passes, and `None` exactly when every rule passes.
   */
  lemma {:induction false} FirstFailureSpec(rules: seq<ValidationRule>, value: JsValue, fieldLabel: string)
    ensures FirstFailure(rules, value, fieldLabel) == None <==>
      (forall k :: 0 <= k < |rules| ==> !RuleFails(rules[k], value))
    ensures FirstFailure(rules, value, fieldLabel).Some? ==>
      exists k :: 0 <= k < |rules| && ValidateRule(rules[k], value, fieldLabel) == FirstFailure(rules, value, fieldLabel)
        && (forall j :: 0 <= j < k ==> !RuleFails(rules[j], value))
  {
    if rules != [] {
      FirstFailureSpec(rules[1..], value, fieldLabel);
      var r := FirstFailure(rules, value, fieldLabel);
      if !RuleFails(rules[0], value) {
        if r.Some? {
          var k :| 0 <= k < |rules[1..]| && ValidateRule(rules[1..][k], value, fieldLabel) == r
            && (forall j :: 0 <= j < k ==> !RuleFails(rules[1..][j], value));
          assert forall j :: 0 <= j < k + 1 ==> !RuleFails(rules[j], value) by {
            forall j | 0 <= j < k + 1 ensures !RuleFails(rules[j], value) {
              if j > 0 { assert rules[j] == rules[1..][j - 1]; }
            }
          }
          assert ValidateRule(rules[k + 1], value, fieldLabel) == r;
        }
        assert (forall k :: 0 <= k < |rules| ==> !RuleFails(rules[k], value)) <==>
          (forall k :: 0 <= k < |rules[1..]| ==> !RuleFails(rules[1..][k], value)) by {
          if forall k :: 0 <= k < |rules[1..]| ==> !RuleFails(rules[1..][k], value) {
            forall k | 0 <= k < |rules| ensures !RuleFails(rules[k], value) {
              if k > 0 { assert rules[k] == rules[1..][k - 1]; }
            }
          }
        }
      } else {
        assert ValidateRule(rules[0], value, fieldLabel) == r;
      }
    }
  }

  /** `validateField` never consults the `required` flag: only the rule list matters. */
  lemma RequiredFlagIgnored(field: FormField, value: JsValue, flag: bool)
    ensures FieldError(field.(required := flag), value) == FieldError(field, value)
  {
  }

  /** `validateField`: a for-of loop over the rules that returns the first message it meets. */
  method ValidateField(field: FormField, value: JsValue) returns (r: Option<string>)
    ensures r == FieldError(field, value)
  {
    if field.isDerived {
      return None;
    }
    var rules := field.validationRules;
    for i := 0 to |rules|
      invariant FirstFailure(rules[i..], value, field.labelText) == FieldError(field, value)
    {
      assert rules[i..][1..] == rules[i + 1..];
      var e := ValidateRule(rules[i], value, field.labelText);
      if e.Some? {
        return e;
      }
    }
    return None;
  }

  // ------------------------------------------------------------ form level

  /** The error `validateForm` records for one field, if any. */
  function ErrorsFor(field: FormField, data: FormData): seq<ValidationError> {
    var e := FieldError(field, Lookup(data, field.id));
    if e.Some? then [ValidationError(field.id, e.value)] else []
  }

  /** What `validateForm` returns: the fields' errors in field-list order. */
  function FormErrors(fields: seq<FormField>, data: FormData): (errors: seq<ValidationError>)
    ensures |errors| <= |fields|
  {
    if fields == [] then []
    else FormErrors(fields[..|fields| - 1], data) + ErrorsFor(fields[|fields| - 1], data)
  }

  /** `validateForm`: visits the fields in list order and pushes each field's error. */
  method ValidateForm(fields: seq<FormField>, data: FormData) returns (errors: seq<ValidationError>)
    ensures errors == FormErrors(fields, data)
  {
    errors := [];
    for i := 0 to |fields|
      invariant errors == FormErrors(fields[..i], data)
    {
      var field := fields[i];
      var e := ValidateField(field, Lookup(data, field.id));
      if e.Some? {
        errors := errors + [ValidationError(field.id, e.value)];
      }
      assert fields[..i + 1][..i] == fields[..i];
    }
    assert fields[..|fields|] == fields;
  }

  /** The errors of a concatenation are the errors of the parts, in order. */
  lemma {:induction false} FormErrorsAppend(a: seq<FormField>, b: seq<FormField>, data: FormData)
    ensures FormErrors(a + b, data) == FormErrors(a, data) + FormErrors(b, data)
  {
    if b != [] {
      var b0 := b[..|b| - 1];
      assert (a + b)[..|a + b| - 1] == a + b0;
      assert (a + b)[|a + b| - 1] == b[|b| - 1];
      FormErrorsAppend(a, b0, data);
    } else {
      assert a + b == a;
    }
  }

  /**
   * Every error names a field of the list and carries that field's `validateField`
   * message (`FormErrorsComplete` is the other direction).
   */
  lemma {:induction false} FormErrorsSound(fields: seq<FormField>, data: FormData)
    ensures forall e :: e in FormErrors(fields, data) ==>
      exists k :: 0 <= k < |fields| && e.fieldId == fields[k].id
        && FieldError(fields[k], Lookup(data, fields[k].id)) == Some(e.message)
  {
    if fields != [] {
      var init := fields[..|fields| - 1];
      FormErrorsSound(init, data);
      forall e | e in FormErrors(fields, data)
        ensures exists k :: (0 <= k < |fields| && e.fieldId == fields[k].id
          && FieldError(fields[k], Lookup(data, fields[k].id)) == Some(e.message))
      {
        if e in FormErrors(init, data) {
          var k :| 0 <= k < |init| && e.fieldId == init[k].id
            && FieldError(init[k], Lookup(data, init[k].id)) == Some(e.message);
          assert fields[k] == init[k];
        } else {
          assert e in ErrorsFor(fields[|fields| - 1], data);
        }
      }
    }
  }

  /** Every field whose validation fails contributes its error, with its id and message. */
  lemma {:induction false} FormErrorsComplete(fields: seq<FormField>, data: FormData)
    ensures forall k :: 0 <= k < |fields| && FieldError(fields[k], Lookup(data, fields[k].id)).Some? ==>
      ValidationError(fields[k].id, FieldError(fields[k], Lookup(data, fields[k].id)).value) in FormErrors(fields, data)
  {
    if fields != [] {
      var init := fields[..|fields| - 1];
      FormErrorsComplete(init, data);
      forall k | 0 <= k < |fields| && FieldError(fields[k], Lookup(data, fields[k].id)).Some?
        ensures ValidationError(fields[k].id, FieldError(fields[k], Lookup(data, fields[k].id)).value)
          in FormErrors(fields, data)
      {
        if k < |init| {
          assert fields[k] == init[k];
        }
      }
    }
  }

  /** The error list is empty exactly when every field passes validation. */
  lemma {:induction false} FormErrorsEmpty(fields: seq<FormField>, data: FormData)
    ensures FormErrors(fields, data) == [] <==>
      forall k :: 0 <= k < |fields| ==> FieldError(fields[k], Lookup(data, fields[k].id)) == None
  {
    if fields != [] {
      var init := fields[..|fields| - 1];
      FormErrorsEmpty(init, data);
      assert forall k :: 0 <= k < |init| ==> init[k] == fields[k];
    }
  }

  // -------------------------------------------------------------- messages

  /** `getDefaultMessage`: one fixed template per rule kind. */
  function DefaultMessage(kind: RuleKind, value: Threshold): (m: string)
    ensures m != ""
  {
    match kind
    case Required => "This field is required"
    case MinLength => "Must be at least " + ThresholdText(value) + " characters long"
    case MaxLength => "Must be no more than " + ThresholdText(value) + " characters long"
    case Email => "Please enter a valid email address"
    case Password => "Password must be at least 8 characters long and contain at least one number"
    case UnknownKind(_) => "Invalid value"
  }

  /** `createValidationRule`: keeps a non-empty given message, else the default one. */
  function CreateValidationRule(kind: RuleKind, value: Threshold, message: string): (r: ValidationRule)
    ensures r.kind == kind && r.value == value
    ensures message != "" ==> r.message == message
    ensures message == "" ==> r.message == DefaultMessage(kind, value)
    ensures r.message != ""
  {
    ValidationRule(kind, value, OrElse(message, DefaultMessage(kind, value)))
  }

  /**
   * `getDefaultValidationRules`: one rule for the tags "email" and "password", none
   * otherwise; each default rule carries the default message of its kind.
   */
  function DefaultValidationRules(fieldType: string): (rules: seq<ValidationRule>)
    ensures |rules| <= 1
    ensures rules != [] <==> fieldType in {"email", "password"}
    ensures forall k :: 0 <= k < |rules| ==>
      rules[k].value == Unset && rules[k].message == DefaultMessage(rules[k].kind, Unset)
    ensures fieldType == "email" ==> rules == [CreateValidationRule(Email, Unset, "")]
    ensures fieldType == "password" ==> rules == [CreateValidationRule(Password, Unset, "")]
  {
    if fieldType == "email" then
      [ValidationRule(Email, Unset, "Please enter a valid email address")]
    else if fieldType == "password" then
      [ValidationRule(Password, Unset, "Password must be at least 8 characters long and contain at least one number")]
    else []
  }

  /** No field type the builder offers has default rules ("email" and "password" are not field types). */
  lemma NoDefaultRulesForFieldTypes(t: FieldType)
    ensures DefaultValidationRules(TypeName(t)) == []
  {
  }

  // ------------------------------------------------------------- scenarios

  /** `"a@b.c"` is an e-mail address. */
  lemma EmailAccepted()
    ensures IsValidEmail("a@b.c")
  {
    var s := "a@b.c";
    assert IndexOf(s, '@') == 1 by {
      assert s[0] != '@' && s[1] == '@';
      assert s[1..][0] == '@';
    }
    assert s[2..] == "b.c";
    assert HasInnerDot("b.c") by { assert "b.c"[1] == '.'; }
    assert '@' !in "b.c";
  }

  /** `"not-an-email"` is not an e-mail address. */
  lemma EmailRejected()
    ensures !IsValidEmail("not-an-email")
  {
    var s := "not-an-email";
    assert IndexOf(s, '@') == -1 by {
      forall k | 0 <= k < |s| ensures s[k] != '@' {
        assert s[k] in "not-anemil";
      }
    }
  }

  /** `"abc12345"` is a password; `"abcdefgh"` (no digit) and `"ab1"` (too short) are not. */
  lemma PasswordExamples()
    ensures IsValidPassword("abc12345")
    ensures !IsValidPassword("abcdefgh")
    ensures !IsValidPassword("ab1")
  {
    Utf16LengthBmp("abc12345");
    assert IsAsciiDigit("abc12345"[3]);
    var t := "abcdefgh";
    assert forall k :: 0 <= k < |t| ==> !IsAsciiDigit(t[k]) by {
      forall k | 0 <= k < |t| ensures !IsAsciiDigit(t[k]) {
        assert t[k] in "abcdefgh";
      }
    }
  }

  /** Rules `[required, minLength(5)]` on `""` report only the required message. */
  lemma ShortCircuitExample(field: FormField)
    requires !field.isDerived
    requires field.validationRules == [ValidationRule(Required, Unset, ""), ValidationRule(MinLength, Int(5), "")]
    ensures FieldError(field, Str("")) == Some(field.labelText + " is required")
  {
  }

  /** A derived field never yields an error, whatever its rules and value. */
  lemma DerivedFieldExempt(fields: seq<FormField>, data: FormData)
    ensures forall e :: e in FormErrors(fields, data) ==>
      exists k :: 0 <= k < |fields| && e.fieldId == fields[k].id && !fields[k].isDerived
  {
    FormErrorsSound(fields, data);
  }
}
