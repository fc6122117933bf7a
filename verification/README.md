# Error model of libopenapi-validator

This project models the `errors` package of libopenapi-validator. The
validator checks HTTP requests and responses against an OpenAPI contract.
Every failure it finds becomes a `ValidationError`. This package decides how
each failure is classified and how it is printed:

- **Constants** (`constants.dfy`): the string constants of `errors/constants.go`
  as closed enumerations. These are the error categories, validation sources,
  parameter locations, validation types, validation subtypes and HTTP methods.
  The Go fields holding these values are plain strings. So each enumeration
  except locations and methods has an `...Other(name)` case for strings that
  match no constant, such as the tests' `"unknown"` and `"wrongType"`. A
  subset type admits `...Other(name)` only when `name` matches no constant.
  Each enumeration is therefore in one-to-one correspondence with `string`, and
  `...String` and `Parse...` are proved mutually inverse.
- **ValidationErrors** (`validation_error.dfy`): the records
  `SchemaValidationFailure` and `ValidationError`, together with:
  - the categorisation rule (`Categorize`, `SetErrorCategory`);
  - the predicates `IsPathMissingError`, `IsOperationMissingError`,
    `IsSchemaError`, `IsRetrievalError` and `IsStructuralError`;
  - `DetermineValidationSource`;
  - the `Error()` renderings.

  Each contract is stated at the Go string level: `CategoryForStrings` is the
  categorisation rule written as string comparisons. The enumeration-level
  bodies are proved to agree with it.
- **Decimal** (`decimal.dfy`): Go's `%d` rendering of the spec line and column,
  with a parser that inverts it.
- **Categorization** (`categorization.dfy`): properties of the categorisation
  rule that hold for every error. These cover precedence, idempotence,
  dependence on inputs only, and exactly one category.
- **Rendering** (`rendering.dfy`): properties of the printed form. These cover
  segment order, compositional slice printing, and reading the spec position
  back from a rendered error.
- **ValidationErrorTests** and **IntegrationTests**: the exact outcomes that the
  Go unit tests and table tests assert, stated over hand-built records. Fields
  a Go test leaves out are zero values: the empty string, no failures, line 0.

The implementation file `errors/validation_error.go` is not part of this
model. Its behaviour here is fixed by the constants and by what the tests
assert. Some points the tests leave open were settled as follows:

- The position segment appears when `SpecLine` is non-zero.
- A failure's `ValidationSource` is not printed.
- Pairs the tests do not list fall through to `structural`.
- A nil slice and an empty slice are both the empty sequence.

The categorisation rule treats a missing parameter as retrieval only when the
error's type is the generic `parameter`. An error typed with a concrete
location (`query`, `header`, `cookie`) and subtype `missing` or `required` is
structural (`Categorization.LocationTypedMissingIsStructural`). So the
end-to-end scenario that expects a retrieval error for an omitted query
parameter depends on the parameter validator reporting the type `parameter`.
Likewise, `DetermineValidationSource` maps the `path` type to the empty
string, although `path` is also a parameter location
(`Categorization.LocationSource`).

## Model

| member | source | states |
|---|---|---|
| Constants.ParseErrorCategory | errors/constants.go:7-16 | every string reads as a category that prints back as that string; it is `Other` exactly when it is none of schema/retrieval/structural |
| Constants.CategoryStringInjective | errors/constants.go:7-16 | the three category constants are pairwise distinct, so a category is determined by its string |
| Constants.ParseCategoryString | errors/constants.go:7-16 | parsing the printed category gives the category back |
| Constants.ParseValidationSource | errors/constants.go:19-31 | every string reads as a source that prints back as that string; `Other` exactly for non-constants |
| Constants.SourceStringInjective | errors/constants.go:19-31 | the four source constants are pairwise distinct |
| Constants.ParseSourceString | errors/constants.go:19-31 | parsing the printed source gives the source back |
| Constants.ParseValidationType | errors/constants.go:49-76 | every string reads as a validation type that prints back as that string; `Other` exactly for non-constants |
| Constants.TypeStringInjective | errors/constants.go:49-76 | the nine validation-type constants are pairwise distinct, so type printing is injective |
| Constants.ParseTypeString | errors/constants.go:49-76 | parsing the printed type gives the type back |
| Constants.ParseValidationSubType | errors/constants.go:79-109 | every string reads as a subtype that prints back as that string; `Other` exactly for non-constants |
| Constants.SubTypeStringInjective | errors/constants.go:79-109 | the ten subtype constants are pairwise distinct, so subtype printing is injective |
| Constants.ParseSubTypeString | errors/constants.go:79-109 | parsing the printed subtype gives the subtype back |
| Constants.LocationValidationType | errors/constants.go:34-76 | each parameter location maps to the validation type spelled like it, and only to query/path/header/cookie |
| Constants.LocationStringsAreTypeStrings | errors/constants.go:34-76 | the four location constants are distinct validation-type constants, and parse to the location's type |
| Constants.ParseHttpMethod | errors/constants.go:112-136 | exactly the eight method names are recognised, and a recognised method prints as the input |
| Constants.MethodStringsDistinctUpperCase | errors/constants.go:112-136 | the eight method constants are distinct, non-empty, upper-case, and parse back to themselves |
| ValidationErrors.Categorize | integration_test.go:300-389 | the enumeration-level rule agrees with the string-level first-match rule; the result is one of the three categories, and schema exactly when failures are attached |
| ValidationErrors.SetErrorCategory | errors/validation_error_test.go:160-219 | sets the category the string-level rule gives, changes no other field, and gives schema whenever failures are attached |
| ValidationErrors.IsPathMissingError | errors/validation_error_test.go:82-99 | true iff the type string is `path` and the subtype string is `missing` |
| ValidationErrors.IsOperationMissingError | errors/validation_error_test.go:101-118 | true iff the type string is `path` and the subtype string is `missingOperation` |
| ValidationErrors.IsRetrievalError | errors/validation_error_test.go:140-148 | true iff the category string is `retrieval` |
| ValidationErrors.IsStructuralError | errors/validation_error_test.go:150-158 | true iff the category string is `structural` |
| ValidationErrors.DetermineValidationSource | integration_test.go:244-297 | requestBody iff request, responseBody iff response, parameter iff parameter/query/header/cookie, document iff schema, and empty iff path, body or unrecognised |
| Decimal.NatToString | errors/validation_error_test.go:35-46 | a line or column prints as a non-empty digit string without leading zero, one digit exactly below ten |
| Decimal.IntToString | errors/validation_error_test.go:35-46 | a line or column prints as a non-empty string that starts with '-' exactly for negative values, and is otherwise all digits |
| Decimal.ParseIntToString | errors/validation_error_test.go:35-46 | every printed line/column number reads back as the same integer |
| Decimal.IntToStringInjective | errors/validation_error_test.go:35-46 | distinct line/column numbers print differently |
| Categorization.CategorizeAgreesOnStrings | integration_test.go:369-388 | for any type and subtype strings, recognised or not, categorising their parsed forms agrees with the string-level rule |
| Categorization.SchemaTakesPrecedence | integration_test.go:308-312 | attached failures give schema whatever the type and subtype; the result is a schema error and neither retrieval nor structural |
| Categorization.RetrievalPairs | integration_test.go:313-366 | without failures, retrieval holds exactly for the six listed type/subtype pairs, and structural exactly otherwise |
| Categorization.CategoryDependsOnlyOnInputs | integration_test.go:369-388 | two errors that agree on type, subtype and failure presence get the same category |
| Categorization.SetErrorCategoryIdempotent | errors/validation_error_test.go:160-219 | categorising twice equals categorising once |
| Categorization.ExactlyOneCategory | integration_test.go:119-123 | after categorisation exactly one of schema/retrieval/structural holds, and `IsSchemaError` agrees with category schema |
| Categorization.MissingPathIsRetrieval | integration_test.go:235-239 | a missing path or missing operation with no failures is retrieval only, and the two predicates never both hold |
| Categorization.LocationTypedMissingIsStructural | integration_test.go:343-366 | query/header/cookie with missing or required, and path with required, are structural and not retrieval |
| Categorization.LocationSource | integration_test.go:265-279 | query/header/cookie location types map to source parameter; the path location's type maps to the empty string |
| Categorization.DeterminedSourceIsKnown | integration_test.go:287-296 | a non-empty determined source is always one of the four source constants |
| Rendering.FailureErrorShape | errors/validation_error_test.go:13-22 | a failure prints as "Reason: " + reason + ", Location: " + location, of exactly that length, and the source is not printed |
| Rendering.FailureRoundTrip | errors/validation_error_test.go:13-22 | a rendered failure whose location has no comma reads back as exactly its reason and location, whatever the reason contains |
| Rendering.JoinFailuresAppend | errors/validation_error_test.go:60 | printing two non-empty failure slices end to end gives their printings separated by one space |
| Rendering.FailureListSnoc | errors/validation_error_test.go:60 | a one-element slice prints as "[" + element + "]", and each added element adds a space and its rendering before "]" |
| Rendering.ErrorIgnoresClassification | errors/validation_error_test.go:24-33 | the rendering starts with message and reason, and does not depend on type, subtype or category, so categorising does not change it |
| Rendering.ErrorSegmentOrder | errors/validation_error_test.go:48-80 | message/reason, then ", Validation Errors: [...]" iff failures, then ", Line: L, Column: C" last iff line non-zero; a zero line hides the column |
| Rendering.ErrorHeaderOnly | errors/validation_error_test.go:24-33 | without failures and without a line, the rendering is exactly "Error: " + message + ", Reason: " + reason |
| Rendering.ErrorPositionLast | errors/validation_error_test.go:64-80 | the rendering is the rendering of the same error without a line, followed by the position segment |
| Rendering.ParsePositionSuffix | errors/validation_error_test.go:35-46 | whatever precedes it, a line/column suffix reads back as that line and column |
| Rendering.PositionRoundTrip | errors/validation_error_test.go:35-46 | whenever the spec line is set, line and column read back from the rendered error, whatever the message, reason and failures contain |
| ValidationErrorTests.FailureErrorVector | errors/validation_error_test.go:13-22 | the tested failure renders exactly "Reason: Invalid type, Location: /path/to/property" |
| ValidationErrorTests.ErrorVectorPlain | errors/validation_error_test.go:24-33 | the tested error without failures or position renders exactly message and reason |
| ValidationErrorTests.ErrorVectorPosition | errors/validation_error_test.go:35-46 | with line 10 and column 15 the rendering gains exactly ", Line: 10, Column: 15" |
| ValidationErrorTests.ErrorVectorFailures | errors/validation_error_test.go:48-62 | one failure adds exactly ", Validation Errors: [Reason: Invalid enum value, Location: /path/to/enum]" |
| ValidationErrorTests.ErrorVectorFailuresAndPosition | errors/validation_error_test.go:64-80 | failures and position together: the failure list first, then ", Line: 12, Column: 5" |
| ValidationErrorTests.PredicateVectors | errors/validation_error_test.go:82-158 | the tested true and false outcomes of the five predicates, including "wrongType", "wrongOperation", nil and empty lists |
| ValidationErrorTests.SetErrorCategoryVectors | errors/validation_error_test.go:160-219 | the seven tested categorisations, including unknown/unknown to structural |
| IntegrationTests.ValidationSourceTable | integration_test.go:244-297 | the seven tested source mappings |
| IntegrationTests.CategoryClassificationTable | integration_test.go:299-389 | the ten tested categorisations, including request/schema to structural |
| IntegrationTests.RequestBodySchemaScenario | integration_test.go:99-130 | an error with request-body failures is schema, neither retrieval nor structural, and keeps its failures, each still with source `requestBody` |
| IntegrationTests.ParameterEnumScenario | integration_test.go:157-185 | a query/enum error with failures is schema, keeps type query and subtype enum, and its failures keep source `parameter` |
| IntegrationTests.PathParameterTypeScenario | integration_test.go:187-215 | a path/type error with failures is schema, keeps type path and subtype type, is not a path-missing error, and its failures keep source `parameter` |
| IntegrationTests.MissingParameterScenario | integration_test.go:132-155 | a parameter/missing or parameter/required error without failures is retrieval only |
| IntegrationTests.PathNotFoundScenario | integration_test.go:217-240 | an error whose type string is path and subtype string is missing is a path-missing retrieval error only |

## Left out

- `errors/validation_error.go` is not part of this model. The behaviour of
  `Error`, the predicates, `SetErrorCategory` and `DetermineValidationSource`
  comes from the constants and the tests.
- The end-to-end subtests (integration_test.go:17-241) need document parsing,
  HTTP request construction and the validator. Only their conclusions about
  category, type, subtype and failure sources are kept, as lemmas over
  hand-built errors, one per subtest.
- Stamping `ValidationSource` onto failures happens in validators outside
  this package. The model carries the field but does not set it.
- Path matching, parameter decoding, content-type negotiation, body decoding
  and schema evaluation are not in this package and are not modelled.
- Go `fmt` is modelled only as much as the output shapes need: `%s` on a
  failure slice and `%d` on an `int`. Pointer identity is not modelled.
- Rendering.ErrorSegmentOrder: whether the position is printed for a
  negative `SpecLine` is not shown by the tests. The model prints it for
  every non-zero line.
- ValidationErrors.Error: no contract of its own. Its format is stated
  by `Rendering.ErrorSegmentOrder`, `Rendering.ErrorHeaderOnly`,
  `Rendering.ErrorPositionLast`, `Rendering.ErrorIgnoresClassification` and
  `Rendering.PositionRoundTrip`.
- ValidationErrors.FailureError: no contract of its own. Its format is
  stated by `Rendering.FailureErrorShape` and `Rendering.FailureRoundTrip`.
- ValidationErrors.JoinFailures: no contract of its own. Go's `%s` slice
  printing is stated by `Rendering.JoinFailuresAppend` and
  `Rendering.FailureListSnoc`.
- ValidationErrors.FailureListString: no contract of its own, for the same
  reason as `JoinFailures`; see `Rendering.FailureListSnoc`.
- Rendering.FailureRoundTrip: reads a failure back only when its location
  has no comma. A comma in the location would be indistinguishable from the
  separator before "Location:"; the rendering itself does not escape it.
- ValidationErrors.IsSchemaError: no contract of its own. It is the length test on the
  failure list, and its properties are stated in
  `Categorization.ExactlyOneCategory` and
  `Categorization.SchemaTakesPrecedence`.
- The testify and `t.Run` harness is not modelled.
