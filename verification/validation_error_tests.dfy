/** The exact outcomes the error-model unit tests assert, stated over
    hand-built records. A field the Go test leaves out is the zero value:
    the empty string for strings (an unrecognised type, subtype, category
    or source), zero for the position, no schema failures. */
module ValidationErrorTests {

  import opened Constants
  import opened ValidationErrors
  import Rendering

  function Failure(reason: string, location: string): SchemaValidationFailure {
    SchemaValidationFailure(reason, location, ParseValidationSource(""))
  }

  /** A record with only the given type, subtype and failures set. */
  function Classified(vType: string, vSubType: string, fs: seq<SchemaValidationFailure>): ValidationError {
    ValidationError("", "", ParseValidationType(vType), ParseValidationSubType(vSubType),
                    ParseErrorCategory(""), fs, 0, 0)
  }

  lemma FailureErrorVector()
    ensures FailureError(Failure("Invalid type", "/path/to/property"))
            == "Reason: " + "Invalid type" + ", Location: " + "/path/to/property"
  {
  }

  /** A record carrying only a message, a reason, failures and a position. */
  function Reported(message: string, reason: string, fs: seq<SchemaValidationFailure>, line: int, col: int): ValidationError {
    ValidationError(message, reason, ParseValidationType(""), ParseValidationSubType(""),
                    ParseErrorCategory(""), fs, line, col)
  }

  /* The expected strings below are written as concatenations of literals
     split where the record's fields begin and end; each is the string the
     corresponding Go test expects. */

  lemma ErrorVectorPlain()
    ensures Error(Reported("Missing required field", "The field 'id' is required but missing", [], 0, 0))
            == "Error: " + "Missing required field" + ", Reason: " + "The field 'id' is required but missing"
  {
    var e := Reported("Missing required field", "The field 'id' is required but missing", [], 0, 0);
    assert SchemaSegment(e) == "" && PositionSegment(e) == "";
  }

  lemma ErrorVectorPosition()
    ensures Error(Reported("Invalid data type", "Expected 'string', got 'integer'", [], 10, 15))
            == "Error: " + "Invalid data type" + ", Reason: " + "Expected 'string', got 'integer'"
               + ", Line: " + "10" + ", Column: " + "15"
  {
    var e := Reported("Invalid data type", "Expected 'string', got 'integer'", [], 10, 15);
    assert SchemaSegment(e) == "";
    assert Decimal.IntToString(10) == "10";
    assert Decimal.IntToString(15) == "15";
  }

  /** The rendering of a record with one failure and no position, over
      arbitrary field values. */
  lemma ErrorWithOneFailure(message: string, reason: string, fReason: string, fLocation: string)
    ensures Error(Reported(message, reason, [Failure(fReason, fLocation)], 0, 0))
            == "Error: " + message + ", Reason: " + reason
               + ", Validation Errors: " + "[" + "Reason: " + fReason + ", Location: " + fLocation + "]"
  {
    var f := Failure(fReason, fLocation);
    var e := Reported(message, reason, [f], 0, 0);
    assert JoinFailures([f]) == FailureError(f);
    assert SchemaSegment(e) == ", Validation Errors: " + ("[" + FailureError(f) + "]");
    Rendering.ErrorSchemaLast(e);
  }

  /** The same record with a non-zero line: the position follows the list. */
  lemma ErrorWithOneFailureAt(message: string, reason: string, fReason: string, fLocation: string, line: int, col: int)
    requires line != 0
    ensures Error(Reported(message, reason, [Failure(fReason, fLocation)], line, col))
            == "Error: " + message + ", Reason: " + reason
               + ", Validation Errors: " + "[" + "Reason: " + fReason + ", Location: " + fLocation + "]"
               + ", Line: " + Decimal.IntToString(line) + ", Column: " + Decimal.IntToString(col)
  {
    var e := Reported(message, reason, [Failure(fReason, fLocation)], line, col);
    var l := Decimal.IntToString(line);
    var c := Decimal.IntToString(col);
    ErrorWithOneFailure(message, reason, fReason, fLocation);
    Rendering.ErrorPositionLast(e);
    assert PositionSegment(e) == ", Line: " + l + ", Column: " + c;
    Rendering.Reassociate(Error(e.(specLine := 0)), ", Line: ", l, ", Column: ", c);
  }

  lemma ErrorVectorFailures()
    ensures Error(Reported("Enum validation failed", "Invalid enum value",
                           [Failure("Invalid enum value", "/path/to/enum")], 0, 0))
            == "Error: " + "Enum validation failed" + ", Reason: " + "Invalid enum value"
               + ", Validation Errors: " + "[" + "Reason: " + "Invalid enum value" + ", Location: " + "/path/to/enum" + "]"
  {
    ErrorWithOneFailure("Enum validation failed", "Invalid enum value", "Invalid enum value", "/path/to/enum");
  }

  lemma ErrorVectorFailuresAndPosition()
    ensures Error(Reported("Enum validation failed", "Invalid enum value",
                           [Failure("Invalid enum value", "/path/to/enum")], 12, 5))
            == "Error: " + "Enum validation failed" + ", Reason: " + "Invalid enum value"
               + ", Validation Errors: " + "[" + "Reason: " + "Invalid enum value" + ", Location: " + "/path/to/enum" + "]"
               + ", Line: " + "12" + ", Column: " + "5"
  {
    ErrorWithOneFailureAt("Enum validation failed", "Invalid enum value", "Invalid enum value", "/path/to/enum", 12, 5);
    assert Decimal.IntToString(12) == "12";
    assert Decimal.IntToString(5) == "5";
  }

  lemma PredicateVectors()
    ensures IsPathMissingError(Classified("path", "missing", []))
    ensures !IsPathMissingError(Classified("path", "wrongType", []))
    ensures !IsPathMissingError(Classified("request", "missing", []))
    ensures IsOperationMissingError(Classified("path", "missingOperation", []))
    ensures !IsOperationMissingError(Classified("path", "wrongOperation", []))
    ensures !IsOperationMissingError(Classified("request", "missingOperation", []))
    ensures IsSchemaError(Classified("", "", [Failure("Invalid type", "/path/to/field")]))
    ensures !IsSchemaError(Classified("", "", []))
    ensures IsRetrievalError(Classified("", "", []).(errorCategory := ParseErrorCategory("retrieval")))
    ensures !IsRetrievalError(Classified("", "", []).(errorCategory := ParseErrorCategory("schema")))
    ensures IsStructuralError(Classified("", "", []).(errorCategory := ParseErrorCategory("structural")))
    ensures !IsStructuralError(Classified("", "", []).(errorCategory := ParseErrorCategory("schema")))
  {
  }

  lemma SetErrorCategoryVectors()
    ensures CategoryString(SetErrorCategory(Classified("", "", [Failure("Invalid type", "/path/to/field")])).errorCategory)
            == ErrorCategorySchema
    ensures CategoryString(SetErrorCategory(Classified(ValidationTypePath, ValidationSubTypeMissing, [])).errorCategory)
            == ErrorCategoryRetrieval
    ensures CategoryString(SetErrorCategory(Classified(ValidationTypePath, ValidationSubTypeMissingOperation, [])).errorCategory)
            == ErrorCategoryRetrieval
    ensures CategoryString(SetErrorCategory(Classified(ValidationTypeRequest, ValidationSubTypeContentType, [])).errorCategory)
            == ErrorCategoryRetrieval
    ensures CategoryString(SetErrorCategory(Classified(ValidationTypeParameter, ValidationSubTypeMissing, [])).errorCategory)
            == ErrorCategoryRetrieval
    ensures CategoryString(SetErrorCategory(Classified(ValidationTypeParameter, ValidationSubTypeFormat, [])).errorCategory)
            == ErrorCategoryStructural
    ensures CategoryString(SetErrorCategory(Classified("unknown", "unknown", [])).errorCategory)
            == ErrorCategoryStructural
  {
  }

}
