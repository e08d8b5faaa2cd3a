/**
 * The form micro-framework of archetype.users.frontend.php: a process-wide
 * registry of named forms (`Archetype_Form::$forms`), each form an ordered
 * slug-keyed map of fields with an error list that `validate` appends to, a
 * processor bound by name, and the `at_form` / `at_register_form` entry points.
 *
 * A form field's `is_valid()` is abstract here: the form calls it with no
 * argument, so its outcome is an input, one of `true`, plain `false`, or a
 * `WP_Error` carrying a message.
 */
module Forms {
  import opened Php
  import UserFields

  /** The outcome of a form field's `is_valid()`. */
  datatype Validity = Valid | Invalid | Error(message: string)

  /** What the form needs of an `Archetype_Form_Field`: its slug, `required()` and `is_valid()`. */
  datatype FormField = FormField(slug: string, required: bool, validity: Validity)

  /** A `WP_Error` as the form builds them: a code and a message. */
  datatype WpError = WpError(code: string, message: string)

  /** `validate`'s result: `true`, or `WP_Error('at_form_errors', 'Errors found', $errors)`. */
  datatype ValidateResult = Passed | Failed(errors: seq<WpError>)

  /** What running the bound processor led to. `Succeeded` is the processor's `succeed` call (by default a redirect that ends the request). */
  datatype Processed = Skipped | NotSucceeded | Succeeded(data: Value)

  /** What `at_form` did: nothing on a non-POST request, a fatal error for an unknown form, or validation then processing. */
  datatype AtFormOutcome = NotPost | MissingForm | Handled(displayed: Option<seq<WpError>>, processed: Processed)

  const NonceError := WpError("failed_nonce_check", "Illegitimate form submission")
  const GenericError := WpError("generic_validation_failure", "Please fill in the required information")

  function FieldError(message: string): WpError
  {
    WpError("failed_field_validation", message)
  }

  function GeneralError(message: string): WpError
  {
    WpError("general_errors", message)
  }

  /** The defaults the constructor merges the caller's options over. */
  const FormDefaults: map<string, Value> :=
    map["show_discrete_errors" := Bool(true), "hook_to_page" := Bool(false), "nonce" := Str(UserFields.UserNonce)]

  // ---------------------------------------------------------------------------
  // The constructor's field map: `$this->fields[$field->slug] = $field` in a loop.
  // A PHP array keeps each key where it was first inserted; a later field with
  // the same slug replaces the value in place.
  // ---------------------------------------------------------------------------

  /** The keys of the field map, in first-insertion order. */
  function SlugOrder(fs: seq<FormField>): seq<string>
    decreases |fs|
  {
    if fs == [] then []
    else
      var init := SlugOrder(fs[..|fs| - 1]);
      var s := fs[|fs| - 1].slug;
      if s in init then init else init + [s]
  }

  /** The values of the field map: the last field inserted under each slug. */
  function FieldMap(fs: seq<FormField>): map<string, FormField>
    decreases |fs|
  {
    if fs == [] then map[] else FieldMap(fs[..|fs| - 1])[fs[|fs| - 1].slug := fs[|fs| - 1]]
  }

  predicate Distinct(ss: seq<string>)
  {
    forall i, j :: 0 <= i < j < |ss| ==> ss[i] != ss[j]
  }

  /** Both facts about the field map together: its keys are exactly the slugs of the given fields, each listed once, and each key maps to a field with that slug. */
  lemma FieldMapKeys(fs: seq<FormField>)
    ensures Distinct(SlugOrder(fs))
    ensures forall s :: s in SlugOrder(fs) <==> s in FieldMap(fs)
    ensures forall i :: 0 <= i < |fs| ==> fs[i].slug in FieldMap(fs)
    ensures forall s :: s in FieldMap(fs) ==> FieldMap(fs)[s].slug == s
    ensures forall s :: s in FieldMap(fs) ==> exists i :: 0 <= i < |fs| && fs[i].slug == s
  {
    SlugOrderKeys(fs);
    FieldMapSlugs(fs);
  }

  lemma {:induction false} SlugOrderKeys(fs: seq<FormField>)
    ensures Distinct(SlugOrder(fs))
    ensures forall s :: s in SlugOrder(fs) <==> s in FieldMap(fs)
    decreases |fs|
  {
    if fs != [] {
      var init := fs[..|fs| - 1];
      var last := fs[|fs| - 1].slug;
      SlugOrderKeys(init);
      if last !in SlugOrder(init) {
        var o := SlugOrder(init);
        assert SlugOrder(fs) == o + [last];
        assert forall i :: 0 <= i < |o| ==> (o + [last])[i] == o[i];
      }
    }
  }

  lemma {:induction false} FieldMapSlugs(fs: seq<FormField>)
    ensures forall i :: 0 <= i < |fs| ==> fs[i].slug in FieldMap(fs)
    ensures forall s :: s in FieldMap(fs) ==> FieldMap(fs)[s].slug == s
    ensures forall s :: s in FieldMap(fs) ==> exists i :: 0 <= i < |fs| && fs[i].slug == s
    decreases |fs|
  {
    if fs != [] {
      var init := fs[..|fs| - 1];
      FieldMapSlugs(init);
      assert forall i :: 0 <= i < |init| ==> init[i] == fs[i];
    }
  }

  /** A field that no later field shares a slug with is the one the map keeps. */
  lemma {:induction false} LaterFieldWins(fs: seq<FormField>, i: nat)
    requires i < |fs|
    requires forall j :: i < j < |fs| ==> fs[j].slug != fs[i].slug
    ensures fs[i].slug in FieldMap(fs) && FieldMap(fs)[fs[i].slug] == fs[i]
    decreases |fs|
  {
    if i < |fs| - 1 {
      var init := fs[..|fs| - 1];
      assert init[i] == fs[i];
      LaterFieldWins(init, i);
    }
  }

  /** The key order of a prefix of the fields is a prefix of the whole key order. */
  lemma {:induction false} SlugOrderPrefix(fs: seq<FormField>, i: nat)
    requires i <= |fs|
    ensures SlugOrder(fs[..i]) <= SlugOrder(fs)
    decreases |fs| - i
  {
    if i < |fs| {
      SlugOrderPrefix(fs, i + 1);
      var p := fs[..i + 1];
      assert p[..|p| - 1] == fs[..i];
    } else {
      assert fs[..i] == fs;
    }
  }

  /**
   * A slug sits in the key order at the place of its first insertion: after
   * exactly the distinct slugs inserted before it.
   */
  lemma FirstInsertionOrder(fs: seq<FormField>, i: nat)
    requires i < |fs|
    requires forall j :: 0 <= j < i ==> fs[j].slug != fs[i].slug
    ensures |SlugOrder(fs[..i])| < |SlugOrder(fs)|
    ensures SlugOrder(fs)[|SlugOrder(fs[..i])|] == fs[i].slug
  {
    var p := fs[..i + 1];
    assert p[..|p| - 1] == fs[..i];
    FieldMapKeys(fs[..i]);
    assert forall j :: 0 <= j < i ==> fs[..i][j] == fs[j];
    assert fs[i].slug !in SlugOrder(fs[..i]);
    assert SlugOrder(p) == SlugOrder(fs[..i]) + [fs[i].slug];
    SlugOrderPrefix(fs, i + 1);
  }

  // ---------------------------------------------------------------------------
  // One validation pass over the fields (lines 131-158)
  // ---------------------------------------------------------------------------

  /** A required field whose validator returned plain false. */
  predicate GenericFailure(f: FormField)
  {
    f.required && f.validity.Invalid?
  }

  /** Some field in fs is a generic failure: the loop's `$generic_error` flag after visiting fs. */
  predicate SawGeneric(fs: seq<FormField>)
    decreases |fs|
  {
    fs != [] && (SawGeneric(fs[..|fs| - 1]) || GenericFailure(fs[|fs| - 1]))
  }

  lemma {:induction false} SawGenericMeans(fs: seq<FormField>)
    ensures SawGeneric(fs) <==> exists k :: 0 <= k < |fs| && GenericFailure(fs[k])
    decreases |fs|
  {
    if fs != [] {
      var init := fs[..|fs| - 1];
      SawGenericMeans(init);
      assert forall k :: 0 <= k < |init| ==> init[k] == fs[k];
    }
  }

  /** The field-specific error a field contributes, if any. */
  function SpecificStep(f: FormField): seq<WpError>
  {
    if f.required && f.validity.Error? then [FieldError(f.validity.message)] else []
  }

  /** The errors the field loop appends for one field, given whether a generic error was already recorded in this pass. */
  function StepErrors(f: FormField, generic: bool): seq<WpError>
  {
    if GenericFailure(f) && !generic then [GenericError] else SpecificStep(f)
  }

  /** The errors the field loop appends for the fields fs, in order. */
  function FieldErrors(fs: seq<FormField>): seq<WpError>
    decreases |fs|
  {
    if fs == [] then []
    else
      var init := fs[..|fs| - 1];
      FieldErrors(init) + StepErrors(fs[|fs| - 1], SawGeneric(init))
  }

  /** Everything one `validate` call appends: the nonce error, if any, then the field errors. */
  function PassErrors(nonceOk: bool, fs: seq<FormField>): seq<WpError>
  {
    (if nonceOk then [] else [NonceError]) + FieldErrors(fs)
  }

  /** The field-specific errors of the required fields in fs, in field order. */
  function SpecificErrors(fs: seq<FormField>): seq<WpError>
    decreases |fs|
  {
    if fs == [] then [] else SpecificErrors(fs[..|fs| - 1]) + SpecificStep(fs[|fs| - 1])
  }

  /** The index of the first required field whose validator returned plain false. */
  function FirstGeneric(fs: seq<FormField>): (j: nat)
    requires SawGeneric(fs)
    ensures j < |fs| && GenericFailure(fs[j])
    ensures forall k :: 0 <= k < j ==> !GenericFailure(fs[k])
    decreases |fs|
  {
    var init := fs[..|fs| - 1];
    if SawGeneric(init) then FirstGeneric(init)
    else SawGenericMeans(init); |fs| - 1
  }

  /** Only required fields can contribute errors. */
  function RequiredOnly(fs: seq<FormField>): (r: seq<FormField>)
    ensures forall f :: f in r <==> f in fs && f.required
    decreases |fs|
  {
    if fs == [] then []
    else
      var f := fs[|fs| - 1];
      var init := fs[..|fs| - 1];
      assert fs == init + [f];
      RequiredOnly(init) + (if f.required then [f] else [])
  }

  /**
   * A reference description of the field errors of one pass: the field-specific
   * errors in field order, with one generic error inserted at the place of the
   * first required field whose validator returned plain false, if there is one.
   */
  lemma {:induction false} FieldErrorsShape(fs: seq<FormField>)
    ensures !SawGeneric(fs) ==> FieldErrors(fs) == SpecificErrors(fs)
    ensures SawGeneric(fs) ==>
      FieldErrors(fs) == SpecificErrors(fs[..FirstGeneric(fs)]) + [GenericError] + SpecificErrors(fs[FirstGeneric(fs) + 1..])
    decreases |fs|
  {
    if fs != [] {
      var init := fs[..|fs| - 1];
      var f := fs[|fs| - 1];
      FieldErrorsShape(init);
      if SawGeneric(init) {
        ShapeAfterFirstGeneric(fs);
      } else if GenericFailure(f) {
        assert FieldErrors(fs) == SpecificErrors(init) + [GenericError];
        assert fs[..|fs| - 1] == init;
        assert fs[|fs|..] == [];
      }
    }
  }

  /** The inductive step of FieldErrorsShape once the generic error lies in the prefix. */
  lemma ShapeAfterFirstGeneric(fs: seq<FormField>)
    requires fs != [] && SawGeneric(fs[..|fs| - 1])
    requires var init := fs[..|fs| - 1]; var j := FirstGeneric(init);
      FieldErrors(init) == SpecificErrors(init[..j]) + [GenericError] + SpecificErrors(init[j + 1..])
    ensures FieldErrors(fs) == SpecificErrors(fs[..FirstGeneric(fs)]) + [GenericError] + SpecificErrors(fs[FirstGeneric(fs) + 1..])
  {
    var init := fs[..|fs| - 1];
    var f := fs[|fs| - 1];
    var j := FirstGeneric(init);
    assert FirstGeneric(fs) == j;
    var a := SpecificErrors(init[..j]);
    var b := SpecificErrors(init[j + 1..]);
    var tail := fs[j + 1..];
    assert tail[..|tail| - 1] == init[j + 1..] && tail[|tail| - 1] == f;
    assert SpecificErrors(tail) == b + SpecificStep(f);
    assert fs[..j] == init[..j];
    calc {
      FieldErrors(fs);
      FieldErrors(init) + SpecificStep(f);
      (a + [GenericError]) + b + SpecificStep(f);
      { AppendAssoc(a + [GenericError], b, SpecificStep(f)); }
      (a + [GenericError]) + (b + SpecificStep(f));
    }
  }

  /** Visiting one more field: the unfolding the validation loop relies on. */
  lemma FieldErrorsStep(fs: seq<FormField>, i: nat)
    requires i < |fs|
    ensures FieldErrors(fs[..i + 1]) == FieldErrors(fs[..i]) + StepErrors(fs[i], SawGeneric(fs[..i]))
    ensures SawGeneric(fs[..i + 1]) == (SawGeneric(fs[..i]) || GenericFailure(fs[i]))
  {
    var p := fs[..i + 1];
    assert p[..|p| - 1] == fs[..i] && p[|p| - 1] == fs[i];
  }

  /** Removing the fields that are not required changes nothing: they never add errors, whatever their validator returns. */
  lemma {:induction false} OnlyRequiredFieldsMatter(fs: seq<FormField>)
    ensures SawGeneric(RequiredOnly(fs)) == SawGeneric(fs)
    ensures FieldErrors(RequiredOnly(fs)) == FieldErrors(fs)
    decreases |fs|
  {
    if fs != [] {
      var init := fs[..|fs| - 1];
      var f := fs[|fs| - 1];
      OnlyRequiredFieldsMatter(init);
      if f.required {
        var r' := RequiredOnly(fs);
        assert r'[..|r'| - 1] == RequiredOnly(init) && r'[|r'| - 1] == f;
      } else {
        assert RequiredOnly(fs) == RequiredOnly(init);
      }
    }
  }

  /** The number of errors with the given code. */
  function CountCode(errs: seq<WpError>, code: string): nat
    decreases |errs|
  {
    if errs == [] then 0 else (if errs[0].code == code then 1 else 0) + CountCode(errs[1..], code)
  }

  /** The errors with the given code, in order. */
  function WithCode(errs: seq<WpError>, code: string): seq<WpError>
    decreases |errs|
  {
    if errs == [] then [] else (if errs[0].code == code then [errs[0]] else []) + WithCode(errs[1..], code)
  }

  lemma CodeConcat(a: seq<WpError>, b: seq<WpError>, code: string)
    ensures CountCode(a + b, code) == CountCode(a, code) + CountCode(b, code)
    ensures WithCode(a + b, code) == WithCode(a, code) + WithCode(b, code)
  {
    CountConcat(a, b, code);
    WithCodeConcat(a, b, code);
  }

  lemma {:induction false} CountConcat(a: seq<WpError>, b: seq<WpError>, code: string)
    ensures CountCode(a + b, code) == CountCode(a, code) + CountCode(b, code)
    decreases |a|
  {
    if a == [] {
      assert a + b == b;
    } else {
      assert (a + b)[0] == a[0];
      assert (a + b)[1..] == a[1..] + b;
      CountConcat(a[1..], b, code);
    }
  }

  lemma {:induction false} WithCodeConcat(a: seq<WpError>, b: seq<WpError>, code: string)
    ensures WithCode(a + b, code) == WithCode(a, code) + WithCode(b, code)
    decreases |a|
  {
    if a == [] {
      assert a + b == b;
    } else {
      var head := if a[0].code == code then [a[0]] else [];
      assert (a + b)[0] == a[0];
      assert (a + b)[1..] == a[1..] + b;
      WithCodeConcat(a[1..], b, code);
      AppendAssoc(head, WithCode(a[1..], code), WithCode(b, code));
    }
  }

  /** One pass records at most one generic error, and records one exactly when some required field returned plain false. */
  lemma {:induction false} GenericErrorAtMostOnce(fs: seq<FormField>)
    ensures CountCode(FieldErrors(fs), GenericError.code) == if SawGeneric(fs) then 1 else 0
    decreases |fs|
  {
    if fs != [] {
      var init := fs[..|fs| - 1];
      var f := fs[|fs| - 1];
      assert SawGeneric(fs) <==> SawGeneric(init) || (f.required && f.validity.Invalid?);
      GenericErrorAtMostOnce(init);
      CodeConcat(FieldErrors(init), StepErrors(f, SawGeneric(init)), GenericError.code);
    }
  }

  /** Every field-specific error is kept, in field order: the failed_field_validation errors of a pass are exactly those of the required fields whose validator returned an error. */
  lemma {:induction false} SpecificErrorsKept(fs: seq<FormField>)
    ensures WithCode(FieldErrors(fs), "failed_field_validation") == SpecificErrors(fs)
    decreases |fs|
  {
    if fs != [] {
      var init := fs[..|fs| - 1];
      var f := fs[|fs| - 1];
      SpecificErrorsKept(init);
      CodeConcat(FieldErrors(init), StepErrors(f, SawGeneric(init)), "failed_field_validation");
    }
  }

  lemma {:induction false} NoNonceErrorFromFields(fs: seq<FormField>)
    ensures CountCode(FieldErrors(fs), NonceError.code) == 0
    decreases |fs|
  {
    if fs != [] {
      var init := fs[..|fs| - 1];
      NoNonceErrorFromFields(init);
      CodeConcat(FieldErrors(init), StepErrors(fs[|fs| - 1], SawGeneric(init)), NonceError.code);
    }
  }

  /** A failed nonce check adds exactly one error, ahead of all field errors, and the field checks still run in full. */
  lemma NonceFailureDoesNotStopFieldChecks(fs: seq<FormField>)
    ensures PassErrors(false, fs) == [NonceError] + PassErrors(true, fs)
    ensures CountCode(PassErrors(false, fs), NonceError.code) == 1
    ensures CountCode(PassErrors(true, fs), NonceError.code) == 0
  {
    NoNonceErrorFromFields(fs);
    CodeConcat([NonceError], FieldErrors(fs), NonceError.code);
    assert [] + FieldErrors(fs) == FieldErrors(fs);
  }

  /** The end of `validate` (lines 160-171): the whole accumulated list, or one general error, or true. */
  function Report(errors: seq<WpError>, discrete: bool, generalMessage: string): (r: ValidateResult)
    ensures r.Passed? <==> errors == []
    ensures errors != [] && discrete ==> r == Failed(errors)
    ensures errors != [] && !discrete ==> r == Failed([GeneralError(generalMessage)])
  {
    if errors != [] && discrete then Failed(errors)
    else if errors != [] then Failed([GeneralError(generalMessage)])
    else Passed
  }

  // ---------------------------------------------------------------------------
  // `at_form`'s control flow after validation (lines 220-225)
  // ---------------------------------------------------------------------------

  /** `process()`: the processor's result goes to `succeed` only when it is truthy. */
  function RunProcessor(result: Value): (p: Processed)
    ensures p != Skipped
    ensures p.Succeeded? <==> Truthy(result)
    ensures p.Succeeded? ==> p.data == result
  {
    if Truthy(result) then Succeeded(result) else NotSucceeded
  }

  /** As written: errors are displayed when validation failed, and the form is processed either way. */
  function AtFormFlow(valid: ValidateResult, processorResult: Value): AtFormOutcome
  {
    Handled(if valid.Failed? then Some(valid.errors) else None, RunProcessor(processorResult))
  }

  /**
   * What `at_display_errors` is handed after `validate` reported on the form's
   * accumulated errors: nothing when there are none, otherwise the error list
   * of the `WP_Error`, which is the whole list or the one general error.
   */
  function Displayed(errors: seq<WpError>, discrete: bool, generalMessage: string): (d: Option<seq<WpError>>)
    ensures d.None? <==> errors == []
    ensures discrete && errors != [] ==> d == Some(errors)
    ensures !discrete && errors != [] ==> d == Some([GeneralError(generalMessage)])
  {
    if errors == [] then None else Some(Report(errors, discrete, generalMessage).errors)
  }

  /** As written, a submission that failed validation still reaches the processor and its success callback. */
  lemma AtFormProcessesInvalidSubmission()
    ensures AtFormFlow(Failed([NonceError]), Bool(true)) == Handled(Some([NonceError]), Succeeded(Bool(true)))
  {
  }

  /** Corrected: the processor runs only on a submission that passed validation. */
  function AtFormGuardedFlow(valid: ValidateResult, processorResult: Value): (o: AtFormOutcome)
    ensures o.Handled?
    ensures o.processed != Skipped <==> valid.Passed?
    ensures o.displayed.Some? <==> valid.Failed?
  {
    if valid.Failed? then Handled(Some(valid.errors), Skipped)
    else Handled(None, RunProcessor(processorResult))
  }

  // ---------------------------------------------------------------------------
  // `at_register_form`'s field selection (lines 237-244)
  // ---------------------------------------------------------------------------

  /** The registered fields whose slug is among the wanted ones, in registration order (not the order of the wanted list). */
  function SelectFields(all: seq<FormField>, wanted: seq<string>): (r: seq<FormField>)
    ensures forall f :: f in r <==> f in all && f.slug in wanted
    ensures |r| <= |all|
    decreases |all|
  {
    if all == [] then []
    else
      assert forall f :: f in all <==> f == all[0] || f in all[1..];
      (if all[0].slug in wanted then [all[0]] else []) + SelectFields(all[1..], wanted)
  }

  /** Selection keeps the registration order: it distributes over concatenation. */
  lemma {:induction false} SelectFieldsKeepsOrder(a: seq<FormField>, b: seq<FormField>, wanted: seq<string>)
    ensures SelectFields(a + b, wanted) == SelectFields(a, wanted) + SelectFields(b, wanted)
    decreases |a|
  {
    if a == [] {
      assert a + b == b;
    } else {
      assert (a + b)[0] == a[0];
      assert (a + b)[1..] == a[1..] + b;
      SelectFieldsKeepsOrder(a[1..], b, wanted);
    }
  }

  // ---------------------------------------------------------------------------
  // The processor class name (line 74)
  // ---------------------------------------------------------------------------

  predicate IsWordDelimiter(c: char)
  {
    c == ' ' || c == '\t' || c == '\r' || c == '\n' || c as int == 11 || c as int == 12
  }

  function UpperAscii(c: char): char
  {
    if 'a' <= c <= 'z' then (c as int - 32) as char else c
  }

  /** The character `ucwords` leaves at position i: upper-cased at a word start, as it was elsewhere. */
  function UcwordsAt(s: string, i: nat): char
    requires i < |s|
  {
    if i == 0 || IsWordDelimiter(s[i - 1]) then UpperAscii(s[i]) else s[i]
  }

  /** PHP's `ucwords`: the first letter of each whitespace-separated word in upper case. */
  function Ucwords(s: string): (r: string)
    ensures |r| == |s|
    ensures forall i :: 0 <= i < |s| ==> r[i] == s[i] || ('a' <= s[i] <= 'z' && r[i] == UpperAscii(s[i]))
    ensures forall i :: 0 <= i < |s| && (i == 0 || IsWordDelimiter(s[i - 1])) ==> !('a' <= r[i] <= 'z')
    ensures forall i :: 0 < i < |s| && !IsWordDelimiter(s[i - 1]) ==> r[i] == s[i]
  {
    seq(|s|, i requires 0 <= i < |s| => UcwordsAt(s, i))
  }

  /** `"Archetype_" . ucwords( $form_name ) . "_Form_Processor"`. */
  function ProcessorClass(formName: string): (c: string)
    ensures |c| == |formName| + 25
    ensures c[..10] == "Archetype_" && c[|c| - 15..] == "_Form_Processor"
    ensures c[10..|c| - 15] == Ucwords(formName)
  {
    "Archetype_" + Ucwords(formName) + "_Form_Processor"
  }

  /** Capitalising words twice changes nothing more: word delimiters are never letters. */
  lemma UcwordsIdempotent(s: string)
    ensures Ucwords(Ucwords(s)) == Ucwords(s)
  {
    var u := Ucwords(s);
    forall i | 0 <= i < |s|
      ensures Ucwords(u)[i] == u[i]
    {
      if i > 0 {
        assert IsWordDelimiter(u[i - 1]) <==> IsWordDelimiter(s[i - 1]);
      }
    }
  }

  /** A form name and its capitalised form are processed by the same class; 'signup' and 'Signup' share one. */
  lemma ProcessorClassIgnoresWordCase(formName: string)
    ensures ProcessorClass(Ucwords(formName)) == ProcessorClass(formName)
  {
    UcwordsIdempotent(formName);
  }

  /** The form named 'signup' is processed by Archetype_Signup_Form_Processor. */
  lemma SignupProcessorClass()
    ensures ProcessorClass("signup") == "Archetype_Signup_Form_Processor"
  {
    assert Ucwords("signup") == "Signup";
  }

  // ---------------------------------------------------------------------------
  // The classes
  // ---------------------------------------------------------------------------

  /** An `Archetype_Form_Processor`: its `process` result is an input; `add_error` accumulates. */
  class Processor {
    const className: string
    var errors: seq<WpError>

    constructor (className: string)
      ensures this.className == className && errors == []
    {
      this.className := className;
      errors := [];
    }

    method AddError(e: WpError)
      modifies this`errors
      ensures errors == old(errors) + [e]
    {
      errors := errors + [e];
    }
  }

  class Form {
    const name: string
    /** The keys of `$this->fields`, in iteration order. */
    const slugs: seq<string>
    const fields: map<string, FormField>
    const options: map<string, Value>
    const processor: Processor
    var errors: seq<WpError>

    ghost predicate Valid()
    {
      && Distinct(slugs)
      && (forall s :: s in slugs <==> s in fields)
      && (forall s :: s in fields ==> fields[s].slug == s)
    }

    constructor (formName: string, fs: seq<FormField>, opts: map<string, Value>)
      ensures Valid()
      ensures name == formName && slugs == SlugOrder(fs) && fields == FieldMap(fs)
      ensures options == ParseArgs(opts, FormDefaults)
      ensures errors == []
      ensures fresh(processor) && processor.className == ProcessorClass(formName) && processor.errors == []
    {
      var keys: seq<string> := [];
      var m: map<string, FormField> := map[];
      for i := 0 to |fs|
        invariant keys == SlugOrder(fs[..i])
        invariant m == FieldMap(fs[..i])
      {
        var p := fs[..i + 1];
        assert p[..|p| - 1] == fs[..i];
        FieldMapKeys(fs[..i]);
        if fs[i].slug !in m {
          keys := keys + [fs[i].slug];
        }
        m := m[fs[i].slug := fs[i]];
      }
      assert fs[..|fs|] == fs;
      FieldMapKeys(fs);
      name := formName;
      slugs := keys;
      fields := m;
      options := ParseArgs(opts, FormDefaults);
      processor := new Processor(ProcessorClass(formName));
      errors := [];
    }

    /** The fields in the order `foreach ($this->fields ...)` visits them. */
    function OrderedFields(): (fs: seq<FormField>)
      requires Valid()
      ensures |fs| == |slugs|
      ensures forall i :: 0 <= i < |slugs| ==> fs[i] == fields[slugs[i]]
    {
      seq(|slugs|, i requires 0 <= i < |slugs| => fields[slugs[i]])
    }

    /** `get_field_names`: each field slug once, and nothing else. */
    function GetFieldNames(): (names: seq<string>)
      requires Valid()
      ensures names == slugs
      ensures Distinct(names)
      ensures forall s :: s in names <==> s in fields
    {
      slugs
    }

    /** `get_field`: a missing slug reads as null. */
    function GetField(slug: string): (f: Option<FormField>)
      requires Valid()
      ensures f.Some? <==> slug in fields
      ensures f.Some? ==> f.value == fields[slug] && f.value.slug == slug
    {
      if slug in fields then Some(fields[slug]) else None
    }

    predicate ShowDiscreteErrors()
    {
      Truthy(Lookup(options, "show_discrete_errors"))
    }

    /** Discrete errors are shown unless the caller's options turn them off. */
    lemma DiscreteErrorsByDefault(opts: map<string, Value>)
      requires options == ParseArgs(opts, FormDefaults)
      ensures "show_discrete_errors" !in opts ==> ShowDiscreteErrors()
      ensures "show_discrete_errors" in opts ==> (ShowDiscreteErrors() <==> Truthy(opts["show_discrete_errors"]))
    {
    }

    /**
     * `validate`: appends this pass's errors to the list the form keeps (which
     * is never cleared), then reports on the whole list. `nonceOk` is the
     * outcome of `wp_verify_nonce`; `generalMessage` is what the
     * archetype_generic_form_error_message filter returns (by default "Oops! There were errors").
     */
    method Validate(nonceOk: bool, generalMessage: string) returns (r: ValidateResult)
      requires Valid()
      modifies this`errors
      ensures errors == old(errors) + PassErrors(nonceOk, OrderedFields())
      ensures r == Report(errors, ShowDiscreteErrors(), generalMessage)
      ensures old(errors) != [] ==> r.Failed?
    {
      var generic := false;
      if !nonceOk {
        errors := errors + [NonceError];
      }
      ghost var start := errors;
      var fs := OrderedFields();
      for i := 0 to |fs|
        invariant errors == start + FieldErrors(fs[..i])
        invariant generic == SawGeneric(fs[..i])
      {
        var f := fs[i];
        FieldErrorsStep(fs, i);
        AppendAssoc(start, FieldErrors(fs[..i]), StepErrors(f, generic));
        if f.required && (f.validity.Invalid? || f.validity.Error?) {
          if f.validity.Error? {
            errors := errors + [FieldError(f.validity.message)];
          } else {
            if generic {
              continue;
            }
            errors := errors + [GenericError];
            generic := true;
          }
        }
      }
      assert fs[..|fs|] == fs;
      r := Report(errors, ShowDiscreteErrors(), generalMessage);
    }

    /** `process`: the processor's result goes to `succeed` only when it is truthy. */
    method Process(processorResult: Value) returns (p: Processed)
      ensures p == RunProcessor(processorResult)
    {
      if Truthy(processorResult) {
        p := Succeeded(processorResult);
      } else {
        p := NotSucceeded;
      }
    }
  }

  /** The static registry `Archetype_Form::$forms`. */
  class FormRegistry {
    var forms: map<string, Form>

    ghost predicate Valid()
      reads this
    {
      forall n :: n in forms ==> forms[n].Valid() && forms[n].name == n
    }

    constructor ()
      ensures Valid() && forms == map[]
    {
      forms := map[];
    }

    /** `Archetype_Form::get`: the form most recently added under the name, or null. */
    function Get(formName: string): (f: Option<Form>)
      reads this
      ensures f.Some? <==> formName in forms
      ensures f.Some? ==> f.value == forms[formName]
    {
      if formName in forms then Some(forms[formName]) else None
    }

    /** `Archetype_Form::add`: a new form under the name, replacing any earlier one; other names are untouched. */
    method Add(formName: string, fs: seq<FormField>, opts: map<string, Value>)
      requires Valid()
      modifies this
      ensures Valid()
      ensures forms.Keys == old(forms).Keys + {formName}
      ensures forall n :: n in old(forms) && n != formName ==> forms[n] == old(forms)[n]
      ensures fresh(forms[formName])
      ensures Get(formName) == Some(forms[formName])
      ensures forms[formName].slugs == SlugOrder(fs) && forms[formName].fields == FieldMap(fs)
      ensures forms[formName].options == ParseArgs(opts, FormDefaults) && forms[formName].errors == []
    {
      var form := new Form(formName, fs, opts);
      forms := forms[formName := form];
    }

    /** `at_register_form`: a form of the registered fields whose slugs are wanted. */
    method RegisterForm(formName: string, all: seq<FormField>, wanted: seq<string>, opts: map<string, Value>)
      requires Valid()
      modifies this
      ensures Valid()
      ensures forms.Keys == old(forms).Keys + {formName}
      ensures forall n :: n in old(forms) && n != formName ==> forms[n] == old(forms)[n]
      ensures fresh(forms[formName])
      ensures forms[formName].slugs == SlugOrder(SelectFields(all, wanted))
      ensures forms[formName].fields == FieldMap(SelectFields(all, wanted))
      ensures forms[formName].options == ParseArgs(opts, FormDefaults) && forms[formName].errors == []
    {
      Add(formName, SelectFields(all, wanted), opts);
    }

    /**
     * `at_form` as written: on a POST request the named form is validated, its
     * errors (if any) displayed, and then it is processed whatever validation
     * said. `processorResult` is what the form's processor returns.
     */
    method AtForm(isPost: bool, formName: string, nonceOk: bool, generalMessage: string, processorResult: Value)
      returns (o: AtFormOutcome)
      requires Valid()
      modifies forms.Values
      ensures forms == old(forms)
      ensures !isPost ==> o == NotPost && forall n :: n in forms ==> forms[n].errors == old(forms[n].errors)
      ensures isPost && formName !in forms ==> o == MissingForm && forall n :: n in forms ==> forms[n].errors == old(forms[n].errors)
      ensures isPost && formName in forms ==>
        && forms[formName].errors == old(forms[formName].errors) + PassErrors(nonceOk, forms[formName].OrderedFields())
        && (forall n :: n in forms && n != formName ==> forms[n].errors == old(forms[n].errors))
        && o.Handled? && o.processed == RunProcessor(processorResult)
        && o.displayed == Displayed(forms[formName].errors, forms[formName].ShowDiscreteErrors(), generalMessage)
    {
      if !isPost {
        return NotPost;
      }
      if formName !in forms {
        return MissingForm;
      }
      var form := forms[formName];
      var valid := form.Validate(nonceOk, generalMessage);
      var processed := form.Process(processorResult);
      o := Handled(if valid.Failed? then Some(valid.errors) else None, processed);
    }

    /** `at_form` corrected: a submission that failed validation is not processed. */
    method AtFormGuarded(isPost: bool, formName: string, nonceOk: bool, generalMessage: string, processorResult: Value)
      returns (o: AtFormOutcome)
      requires Valid()
      modifies forms.Values
      ensures forms == old(forms)
      ensures !isPost ==> o == NotPost && forall n :: n in forms ==> forms[n].errors == old(forms[n].errors)
      ensures isPost && formName !in forms ==> o == MissingForm && forall n :: n in forms ==> forms[n].errors == old(forms[n].errors)
      ensures isPost && formName in forms ==>
        && forms[formName].errors == old(forms[formName].errors) + PassErrors(nonceOk, forms[formName].OrderedFields())
        && (forall n :: n in forms && n != formName ==> forms[n].errors == old(forms[n].errors))
        && o.Handled?
        && o.displayed == Displayed(forms[formName].errors, forms[formName].ShowDiscreteErrors(), generalMessage)
        && o.processed == (if forms[formName].errors == [] then RunProcessor(processorResult) else Skipped)
    {
      if !isPost {
        return NotPost;
      }
      if formName !in forms {
        return MissingForm;
      }
      var form := forms[formName];
      var valid := form.Validate(nonceOk, generalMessage);
      if valid.Failed? {
        o := Handled(Some(valid.errors), Skipped);
      } else {
        var processed := form.Process(processorResult);
        o := Handled(None, processed);
      }
    }
  }
}
