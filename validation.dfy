/**
 * utility/validation.go: the validation diagnostic, the NULL-sentinel
 * literal encoder and the sql.Null* option constructors.
 *
 * The go-playground validator is a foreign library; what the core uses of
 * it is its error value: either a list of field errors (tag, Go field
 * name, tag parameter) in the order the fields were visited, or some other
 * error. Which fields fail is modelled per order schema in the model
 * modules.
 */
module Validation {
  import opened Wrappers
  import opened Text

  /** One entry of `validator.ValidationErrors`: `Tag()`, `Field()` and `Param()`. */
  datatype FieldError = FieldError(tag: string, field: string, param: string)

  /** The error `validator.Struct` returns. */
  datatype ValidatorError =
    | ValidationErrors(errors: seq<FieldError>)
    | OtherError(text: string)

  // ---------------------------------------------------------------- ValidationErrorHandle

  /** The message the switch of ValidationErrorHandle sets for one entry, or None for a tag it does not list. */
  function TagMessage(e: FieldError): Option<string>
  {
    match e.tag
    case "required" => Some(e.field + " required")
    case "min" => Some(e.field + " input value must be greater than " + e.param + " character")
    case "max" => Some(e.field + " input value must be lower than " + e.param + " character")
    case "lte" => Some(e.field + " input value must be below " + e.param)
    case "gte" => Some(e.field + " input value must be above " + e.param)
    case "numeric" => Some(e.field + " input value must be numeric")
    case "url" => Some(e.field + " input value must be am url")
    case "email" => Some(e.field + " input value must be an email")
    case "password" => Some(e.field + " input value must be filled")
    case _ => None
  }

  /** The message of the last entry with a listed tag, or "" when there is none. */
  function LastMessage(errors: seq<FieldError>): string
    decreases |errors|
  {
    if errors == [] then ""
    else match TagMessage(errors[|errors| - 1])
      case Some(m) => m
      case None => LastMessage(errors[..|errors| - 1])
  }

  /** What ValidationErrorHandle returns for `err`. */
  function Diagnostic(err: ValidatorError): string
  {
    match err
    case ValidationErrors(errors) => ToLower(LastMessage(errors))
    case OtherError(_) => ""
  }

  /**
   * validation.go ValidationErrorHandle: walks the entries, each listed tag
   * overwriting the message, and lower-cases what is left at the end.
   */
  method ValidationErrorHandle(err: ValidatorError) returns (message: string)
    ensures message == Diagnostic(err)
    ensures err.OtherError? ==> message == ""
  {
    var msg := "";
    if err.ValidationErrors? {
      var errors := err.errors;
      var i := 0;
      while i < |errors|
        invariant 0 <= i <= |errors|
        invariant msg == LastMessage(errors[..i])
      {
        assert errors[..i + 1][..i] == errors[..i];
        match TagMessage(errors[i]) {
          case Some(m) => msg := m;
          case None =>
        }
        i := i + 1;
      }
      assert errors[..i] == errors;
    }
    message := ToLower(msg);
  }

  /** The last entry with a listed tag decides the message; the entries after it change nothing. */
  lemma {:induction false} LastListedEntryWins(errors: seq<FieldError>, j: nat)
    requires j < |errors| && TagMessage(errors[j]).Some?
    requires forall k | j < k < |errors| :: TagMessage(errors[k]).None?
    ensures LastMessage(errors) == TagMessage(errors[j]).value
    decreases |errors|
  {
    if j < |errors| - 1 {
      var init := errors[..|errors| - 1];
      assert init[j] == errors[j];
      assert forall k | j < k < |init| :: init[k] == errors[k];
      LastListedEntryWins(init, j);
    }
  }

  /** Entries whose tags are all unlisted give the empty message. */
  lemma {:induction false} NoListedEntry(errors: seq<FieldError>)
    requires forall k | 0 <= k < |errors| :: TagMessage(errors[k]).None?
    ensures LastMessage(errors) == ""
    decreases |errors|
  {
    if errors != [] {
      var init := errors[..|errors| - 1];
      assert forall k | 0 <= k < |init| :: init[k] == errors[k];
      NoListedEntry(init);
    }
  }

  /** A list of `required` failures reports the last failing field, lower-cased, followed by " required". */
  lemma RequiredDiagnostic(errors: seq<FieldError>)
    requires errors != []
    requires errors[|errors| - 1].tag == "required"
    ensures Diagnostic(ValidationErrors(errors)) == ToLower(errors[|errors| - 1].field) + " required"
  {
    ToLowerAppend(errors[|errors| - 1].field, " required");
    assert ToLower(" required") == " required";
  }

  // ---------------------------------------------------------------- required checks

  /** One `required` check: the Go field name and whether the field holds a non-zero value. */
  datatype Check = Check(field: string, isSet: bool)

  /** The `required` entries for the checks that fail, in order. */
  function Missing(checks: seq<Check>): seq<FieldError>
    decreases |checks|
  {
    if checks == [] then []
    else (if checks[0].isSet then [] else [FieldError("required", checks[0].field, "")]) + Missing(checks[1..])
  }

  lemma {:induction false} MissingEmpty(checks: seq<Check>)
    ensures Missing(checks) == [] <==> forall i | 0 <= i < |checks| :: checks[i].isSet
    decreases |checks|
  {
    if checks != [] {
      MissingEmpty(checks[1..]);
      assert forall i | 1 <= i < |checks| :: checks[i] == checks[1..][i - 1];
    }
  }

  lemma {:induction false} MissingFields(checks: seq<Check>)
    ensures forall e | e in Missing(checks) ::
              e.tag == "required" && e.param == "" && exists i | 0 <= i < |checks| :: checks[i].field == e.field
    decreases |checks|
  {
    if checks != [] {
      MissingFields(checks[1..]);
      forall e | e in Missing(checks)
        ensures exists i | 0 <= i < |checks| :: checks[i].field == e.field
      {
        if e !in Missing(checks[1..]) {
          assert checks[0].field == e.field;
        } else {
          var i :| 0 <= i < |checks[1..]| && checks[1..][i].field == e.field;
          assert checks[i + 1].field == e.field;
        }
      }
    }
  }

  lemma {:induction false} MissingLast(checks: seq<Check>)
    ensures checks != [] && !checks[|checks| - 1].isSet ==>
              var r := Missing(checks);
              r != [] && r[|r| - 1] == FieldError("required", checks[|checks| - 1].field, "")
    decreases |checks|
  {
    if |checks| > 1 {
      MissingLast(checks[1..]);
    }
  }

  lemma {:induction false} MissingLength(checks: seq<Check>)
    ensures |Missing(checks)| <= |checks|
    decreases |checks|
  {
    if checks != [] {
      MissingLength(checks[1..]);
    }
  }

  // ---------------------------------------------------------------- NewNullString, NewNullInt

  /** `sql.NullString`. */
  datatype NullString = NullString(str: string, valid: bool)

  /** `sql.NullInt64`. */
  datatype NullInt64 = NullInt64(int64: int, valid: bool)

  /** validation.go NewNullString: valid exactly when `s` is non-empty, carrying `s`; otherwise the zero value. */
  function NewNullString(s: string): (r: NullString)
    ensures r.valid <==> |s| > 0
    ensures r.valid ==> r.str == s
    ensures !r.valid ==> r == NullString("", false)
  {
    if |s| == 0 then NullString("", false) else NullString(s, true)
  }

  /** validation.go NewNullInt: valid exactly when `n` is non-zero, carrying `n`; otherwise the zero value. */
  function NewNullInt(n: int): (r: NullInt64)
    ensures r.valid <==> n != 0
    ensures r.valid ==> r.int64 == n
    ensures !r.valid ==> r == NullInt64(0, false)
  {
    if n == 0 then NullInt64(0, false) else NullInt64(n, true)
  }

  // ---------------------------------------------------------------- NullIfEmpty

  /** The dynamic value passed as `interface{}`: a Go int, a string, or anything else (a bool, say). */
  datatype Dynamic = IntValue(i: int) | StringValue(s: string) | OtherValue

  /** A value NullIfEmpty turns into NULL. */
  predicate IsEmptyValue(v: Dynamic)
  {
    v == IntValue(0) || v == StringValue("") || v == StringValue("[]") || v.OtherValue?
  }

  /**
   * validation.go NullIfEmpty: NULL for int 0, "", "[]" and every other
   * dynamic type; a non-zero int as its decimal text; any other string
   * between single quotes, without escaping.
   */
  function NullIfEmpty(value: Dynamic): (r: string)
    ensures r == "NULL" <==> IsEmptyValue(value)
    ensures value.IntValue? && value.i != 0 ==> ParseDecimal(r) == Some(value.i)
    ensures value.StringValue? && !IsEmptyValue(value) ==> r == "'" + value.s + "'"
  {
    match value
    case IntValue(v) =>
      if v == 0 then "NULL"
      else
        assert ParseDecimal("NULL") == None;
        DecimalText(v)
    case StringValue(v) =>
      if v == "" || v == "[]" then "NULL"
      else
        assert ("'" + v + "'")[0] != "NULL"[0];
        "'" + v + "'"
    case OtherValue => "NULL"
  }

  /** NullIfEmpty on a string: the shorthand the command builders use. */
  function TextOrNull(s: string): string
  {
    NullIfEmpty(StringValue(s))
  }
}
