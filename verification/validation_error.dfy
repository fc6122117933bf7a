/** The validation error record, its classification predicates, the
    categorisation rule, the validation-source mapping and the string
    rendering.

    The Go implementation compares the string fields of the record with the
    constants; the model keeps those fields as the enumerations of
    `Constants` (which are in one-to-one correspondence with strings) and
    states every contract at the string level as well, so that the two
    readings are proved to agree. */
module ValidationErrors {

  import opened Wrappers
  import opened Constants
  import opened Decimal

  /** One leaf failure reported by the schema evaluator. */
  datatype SchemaValidationFailure = SchemaValidationFailure(
    reason: string,
    location: string,
    validationSource: ValidationSource)

  /** The unit of reporting. A nil and an empty failure slice are both the
      empty sequence; `specLine == 0` means "no position". */
  datatype ValidationError = ValidationError(
    message: string,
    reason: string,
    validationType: ValidationType,
    validationSubType: ValidationSubType,
    errorCategory: ErrorCategory,
    schemaValidationErrors: seq<SchemaValidationFailure>,
    specLine: int,
    specCol: int)

  /* ---------------------------------------------------------------------- */
  /* Categorisation                                                          */
  /* ---------------------------------------------------------------------- */

  /** The categorisation rule read directly on the strings, first match wins:
      schema failures present; path with missing or missingOperation; request
      with contentType or missing; parameter with missing or required; and
      structural for everything else. */
  function CategoryForStrings(vType: string, vSubType: string, hasSchemaErrors: bool): string {
    if hasSchemaErrors then ErrorCategorySchema
    else if vType == ValidationTypePath
         && (vSubType == ValidationSubTypeMissing || vSubType == ValidationSubTypeMissingOperation)
    then ErrorCategoryRetrieval
    else if vType == ValidationTypeRequest
         && (vSubType == ValidationSubTypeContentType || vSubType == ValidationSubTypeMissing)
    then ErrorCategoryRetrieval
    else if vType == ValidationTypeParameter
         && (vSubType == ValidationSubTypeMissing || vSubType == ValidationSubTypeRequired)
    then ErrorCategoryRetrieval
    else ErrorCategoryStructural
  }

  /** The same rule as an exhaustive match over the enumerations. */
  function Categorize(t: ValidationType, st: ValidationSubType, hasSchemaErrors: bool): (c: ErrorCategory)
    ensures CategoryString(c) == CategoryForStrings(TypeString(t), SubTypeString(st), hasSchemaErrors)
    ensures c in {CategorySchema, CategoryRetrieval, CategoryStructural}
    ensures c == CategorySchema <==> hasSchemaErrors
  {
    if hasSchemaErrors then CategorySchema
    else
      match (t, st)
      case (TypePath, SubTypeMissing) => CategoryRetrieval
      case (TypePath, SubTypeMissingOperation) => CategoryRetrieval
      case (TypeRequest, SubTypeContentType) => CategoryRetrieval
      case (TypeRequest, SubTypeMissing) => CategoryRetrieval
      case (TypeParameter, SubTypeMissing) => CategoryRetrieval
      case (TypeParameter, SubTypeRequired) => CategoryRetrieval
      case _ => CategoryStructural
  }

  /** `SetErrorCategory`: recompute the category from the type, the subtype
      and whether schema failures are attached; no other field changes. */
  function SetErrorCategory(e: ValidationError): (r: ValidationError)
    ensures r.(errorCategory := e.errorCategory) == e
    ensures CategoryString(r.errorCategory)
            == CategoryForStrings(TypeString(e.validationType), SubTypeString(e.validationSubType),
                                  |e.schemaValidationErrors| > 0)
    ensures r.errorCategory in {CategorySchema, CategoryRetrieval, CategoryStructural}
    ensures |e.schemaValidationErrors| > 0 ==> r.errorCategory == CategorySchema
  {
    e.(errorCategory := Categorize(e.validationType, e.validationSubType,
                                   |e.schemaValidationErrors| > 0))
  }

  /* ---------------------------------------------------------------------- */
  /* Classification predicates                                               */
  /* ---------------------------------------------------------------------- */

  function IsPathMissingError(e: ValidationError): (b: bool)
    ensures b
            <==> TypeString(e.validationType) == ValidationTypePath
                 && SubTypeString(e.validationSubType) == ValidationSubTypeMissing
  {
    e.validationType == TypePath && e.validationSubType == SubTypeMissing
  }

  function IsOperationMissingError(e: ValidationError): (b: bool)
    ensures b
            <==> TypeString(e.validationType) == ValidationTypePath
                 && SubTypeString(e.validationSubType) == ValidationSubTypeMissingOperation
  {
    e.validationType == TypePath && e.validationSubType == SubTypeMissingOperation
  }

  function IsSchemaError(e: ValidationError): bool {
    |e.schemaValidationErrors| > 0
  }

  function IsRetrievalError(e: ValidationError): (b: bool)
    ensures b <==> CategoryString(e.errorCategory) == ErrorCategoryRetrieval
  {
    e.errorCategory == CategoryRetrieval
  }

  function IsStructuralError(e: ValidationError): (b: bool)
    ensures b <==> CategoryString(e.errorCategory) == ErrorCategoryStructural
  {
    e.errorCategory == CategoryStructural
  }

  /* ---------------------------------------------------------------------- */
  /* Validation source                                                       */
  /* ---------------------------------------------------------------------- */

  /** `DetermineValidationSource`: where in the exchange a failure of this
      validation type originates; the empty string for types with no source
      (path, body and unrecognised types). */
  function DetermineValidationSource(e: ValidationError): (r: string)
    ensures r == ValidationSourceRequestBody <==> TypeString(e.validationType) == ValidationTypeRequest
    ensures r == ValidationSourceResponseBody <==> TypeString(e.validationType) == ValidationTypeResponse
    ensures r == ValidationSourceParameter
            <==> TypeString(e.validationType) in {ValidationTypeParameter, ValidationTypeQuery,
                                                  ValidationTypeHeader, ValidationTypeCookie}
    ensures r == ValidationSourceDocument <==> TypeString(e.validationType) == ValidationTypeSchema
    ensures r == ""
            <==> TypeString(e.validationType) !in {ValidationTypeRequest, ValidationTypeResponse,
                                                   ValidationTypeParameter, ValidationTypeQuery,
                                                   ValidationTypeHeader, ValidationTypeCookie,
                                                   ValidationTypeSchema}
  {
    match e.validationType
    case TypeRequest => SourceString(SourceRequestBody)
    case TypeResponse => SourceString(SourceResponseBody)
    case TypeParameter | TypeQuery | TypeHeader | TypeCookie => SourceString(SourceParameter)
    case TypeSchema => SourceString(SourceDocument)
    case _ => ""
  }

  /* ---------------------------------------------------------------------- */
  /* Rendering                                                               */
  /* ---------------------------------------------------------------------- */

  /** `SchemaValidationFailure.Error`. The source is not rendered. */
  function FailureError(f: SchemaValidationFailure): string {
    "Reason: " + f.reason + ", Location: " + f.location
  }

  /** The elements of a failure slice as Go's `%s` prints them: each
      element's `Error()`, separated by single spaces. */
  function JoinFailures(fs: seq<SchemaValidationFailure>): string
    decreases |fs|
  {
    if |fs| == 0 then ""
    else if |fs| == 1 then FailureError(fs[0])
    else FailureError(fs[0]) + " " + JoinFailures(fs[1..])
  }

  /** A failure slice under `%s`: the joined elements between brackets. */
  function FailureListString(fs: seq<SchemaValidationFailure>): string {
    "[" + JoinFailures(fs) + "]"
  }

  function SchemaSegment(e: ValidationError): string {
    if |e.schemaValidationErrors| > 0
    then ", Validation Errors: " + FailureListString(e.schemaValidationErrors)
    else ""
  }

  const LineLabel: string := ", Line: "
  const ColumnLabel: string := ", Column: "

  function PositionSegment(e: ValidationError): string {
    if e.specLine != 0
    then LineLabel + IntToString(e.specLine) + ColumnLabel + IntToString(e.specCol)
    else ""
  }

  /** `ValidationError.Error`: message and reason, then the schema failures
      when there are any, then the spec position when the line is set. */
  function Error(e: ValidationError): string {
    "Error: " + e.message + ", Reason: " + e.reason + SchemaSegment(e) + PositionSegment(e)
  }

}
