/**
  The per-field error dictionary shared by the login and registration
  forms: a failed submission's validation errors are folded into it in
  order, each message translated, and the template asks it for one field's
  message.
 */
module FieldErrors {
  import opened Js
  import opened Api
  import ErrorTranslator

  /**
    The dictionary after writing the errors in order:
    `fieldErrors[e.field] = translateError(e.message)` for each `e`.
   */
  function Fold(init: map<string, string>, errors: seq<ValidationError>, table: map<string, string>): map<string, string>
    decreases |errors|
  {
    if errors == [] then init
    else
      var last := errors[|errors| - 1];
      Fold(init, errors[..|errors| - 1], table)[last.field := ErrorTranslator.Translate(table, last.message)]
  }

  /** The last index at which `field` is written, if any. */
  function LastIndexOf(errors: seq<ValidationError>, field: string): (r: Option<nat>)
    ensures r.Some? ==> r.value < |errors| && errors[r.value].field == field
    ensures r.Some? ==> forall k :: r.value < k < |errors| ==> errors[k].field != field
    ensures r.None? ==> forall k :: 0 <= k < |errors| ==> errors[k].field != field
    decreases |errors|
  {
    if errors == [] then None
    else if errors[|errors| - 1].field == field then Some(|errors| - 1)
    else LastIndexOf(errors[..|errors| - 1], field)
  }

  /**
    Last write wins: a field holds the translation of the LAST error that
    names it; a field no error names keeps its earlier value.
   */
  lemma {:induction false} FoldLastWriteWins(
    init: map<string, string>, errors: seq<ValidationError>, table: map<string, string>, field: string)
    ensures var m := Fold(init, errors, table);
      match LastIndexOf(errors, field)
      case Some(k) => field in m && m[field] == ErrorTranslator.Translate(table, errors[k].message)
      case None => (field in m <==> field in init) && (field in init ==> m[field] == init[field])
    decreases |errors|
  {
    if errors != [] {
      FoldLastWriteWins(init, errors[..|errors| - 1], table, field);
    }
  }

  /** The fields the errors name. */
  function Fields(errors: seq<ValidationError>): (fs: set<string>)
    ensures forall k :: 0 <= k < |errors| ==> errors[k].field in fs
    decreases |errors|
  {
    if errors == [] then {} else Fields(errors[..|errors| - 1]) + {errors[|errors| - 1].field}
  }

  /** The fields of the result are the earlier fields plus every field an error names. */
  lemma {:induction false} FoldKeys(init: map<string, string>, errors: seq<ValidationError>, table: map<string, string>)
    ensures Fold(init, errors, table).Keys == init.Keys + Fields(errors)
    decreases |errors|
  {
    if errors != [] {
      FoldKeys(init, errors[..|errors| - 1], table);
    }
  }

  /** The `forEach` loop that writes the errors into the dictionary. */
  method Collect(init: map<string, string>, errors: seq<ValidationError>, table: map<string, string>)
    returns (fieldErrors: map<string, string>)
    ensures fieldErrors == Fold(init, errors, table)
  {
    fieldErrors := init;
    var i := 0;
    while i < |errors|
      invariant 0 <= i <= |errors|
      invariant fieldErrors == Fold(init, errors[..i], table)
    {
      var e := errors[i];
      assert errors[..i + 1][..i] == errors[..i];
      fieldErrors := fieldErrors[e.field := ErrorTranslator.Translate(table, e.message)];
      i := i + 1;
    }
    assert errors[..i] == errors;
  }

  /** `err.message || fallback`, the form-level text when no field errors came back. */
  function MessageOr(message: string, fallback: string): (r: string)
    ensures message != "" ==> r == message
    ensures message == "" ==> r == fallback
    ensures fallback != "" ==> r != ""
  {
    if message != "" then message else fallback
  }

  /** `fieldErrors[name] || null`. */
  function GetFieldError(fieldErrors: map<string, string>, name: string): (r: Option<string>)
    ensures r.Some? <==> name in fieldErrors && fieldErrors[name] != ""
    ensures r.Some? ==> r.value == fieldErrors[name]
  {
    if name in fieldErrors && fieldErrors[name] != "" then Some(fieldErrors[name]) else None
  }

  /** `!!getFieldError(name)`. */
  function HasFieldError(fieldErrors: map<string, string>, name: string): (r: bool)
    ensures r <==> GetFieldError(fieldErrors, name).Some?
  {
    match GetFieldError(fieldErrors, name)
    case Some(s) => s != ""
    case None => false
  }

  /**
    After a fold from an empty dictionary, a field reports an error exactly
    when some error names it and the last such error translates to a
    non-empty text.
   */
  lemma FieldReportedAfterFold(errors: seq<ValidationError>, table: map<string, string>, field: string)
    ensures HasFieldError(Fold(map[], errors, table), field) <==>
      (LastIndexOf(errors, field).Some? &&
       ErrorTranslator.Translate(table, errors[LastIndexOf(errors, field).value].message) != "")
  {
    FoldLastWriteWins(map[], errors, table, field);
  }
}
