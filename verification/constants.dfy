/** The string constants of the error model and the closed enumerations built
    on them: error categories, validation sources, parameter locations,
    validation types, validation subtypes and HTTP methods.

    The Go fields that carry these values are plain strings, so every
    enumeration except the parameter locations and HTTP methods has an
    `...Other(name)` case for a string that is none of the constants (the
    tests use "unknown", "wrongType" and "wrongOperation"). The subset types
    below admit an `...Other(name)` value only when `name` is not one of the
    constants, so each enumeration is in one-to-one correspondence with
    `string`: `...String` and `Parse...` are mutually inverse. */
module Constants {

  import opened Wrappers

  // Error categories (errors/constants.go:7-16)
  const ErrorCategorySchema: string := "schema"
  const ErrorCategoryRetrieval: string := "retrieval"
  const ErrorCategoryStructural: string := "structural"

  // Validation sources (errors/constants.go:19-31)
  const ValidationSourceRequestBody: string := "requestBody"
  const ValidationSourceResponseBody: string := "responseBody"
  const ValidationSourceParameter: string := "parameter"
  const ValidationSourceDocument: string := "document"

  // Parameter locations (errors/constants.go:34-46)
  const ParameterTypeQuery: string := "query"
  const ParameterTypePath: string := "path"
  const ParameterTypeHeader: string := "header"
  const ParameterTypeCookie: string := "cookie"

  // Validation types (errors/constants.go:49-76)
  const ValidationTypePath: string := "path"
  const ValidationTypeRequest: string := "request"
  const ValidationTypeResponse: string := "response"
  const ValidationTypeParameter: string := "parameter"
  const ValidationTypeQuery: string := "query"
  const ValidationTypeHeader: string := "header"
  const ValidationTypeCookie: string := "cookie"
  const ValidationTypeBody: string := "body"
  const ValidationTypeSchema: string := "schema"

  // Validation subtypes (errors/constants.go:79-109)
  const ValidationSubTypeMissing: string := "missing"
  const ValidationSubTypeMissingOperation: string := "missingOperation"
  const ValidationSubTypeInvalid: string := "invalid"
  const ValidationSubTypeRequired: string := "required"
  const ValidationSubTypeEnum: string := "enum"
  const ValidationSubTypeType: string := "type"
  const ValidationSubTypeFormat: string := "format"
  const ValidationSubTypeEncoding: string := "encoding"
  const ValidationSubTypeContentType: string := "contentType"
  const ValidationSubTypeSchema: string := "schema"

  // HTTP methods (errors/constants.go:112-136)
  const HttpMethodGet: string := "GET"
  const HttpMethodPost: string := "POST"
  const HttpMethodPut: string := "PUT"
  const HttpMethodPatch: string := "PATCH"
  const HttpMethodDelete: string := "DELETE"
  const HttpMethodHead: string := "HEAD"
  const HttpMethodOptions: string := "OPTIONS"
  const HttpMethodTrace: string := "TRACE"

  /* ---------------------------------------------------------------------- */
  /* Error categories                                                        */
  /* ---------------------------------------------------------------------- */

  datatype ErrorCategoryKind =
    | CategorySchema
    | CategoryRetrieval
    | CategoryStructural
    | CategoryOther(name: string)

  predicate IsKnownCategoryString(s: string) {
    s in {ErrorCategorySchema, ErrorCategoryRetrieval, ErrorCategoryStructural}
  }

  /** An `ErrorCategory` is one of the three categories, or a string that is
      none of them (the empty string of an uncategorised error, for one). */
  type ErrorCategory = c: ErrorCategoryKind | c.CategoryOther? ==> !IsKnownCategoryString(c.name)
    witness CategorySchema

  function CategoryString(c: ErrorCategory): string {
    match c
    case CategorySchema => ErrorCategorySchema
    case CategoryRetrieval => ErrorCategoryRetrieval
    case CategoryStructural => ErrorCategoryStructural
    case CategoryOther(name) => name
  }

  function ParseErrorCategory(s: string): (c: ErrorCategory)
    ensures CategoryString(c) == s
    ensures c.CategoryOther? <==> !IsKnownCategoryString(s)
  {
    if s == ErrorCategorySchema then CategorySchema
    else if s == ErrorCategoryRetrieval then CategoryRetrieval
    else if s == ErrorCategoryStructural then CategoryStructural
    else CategoryOther(s)
  }

  /** The three category constants are pairwise distinct, so a category is
      determined by its string. */
  lemma CategoryStringInjective(c: ErrorCategory, d: ErrorCategory)
    requires CategoryString(c) == CategoryString(d)
    ensures c == d
  {
  }

  lemma ParseCategoryString(c: ErrorCategory)
    ensures ParseErrorCategory(CategoryString(c)) == c
  {
  }

  /* ---------------------------------------------------------------------- */
  /* Validation sources                                                      */
  /* ---------------------------------------------------------------------- */

  datatype ValidationSourceKind =
    | SourceRequestBody
    | SourceResponseBody
    | SourceParameter
    | SourceDocument
    | SourceOther(name: string)

  predicate IsKnownSourceString(s: string) {
    s in {ValidationSourceRequestBody, ValidationSourceResponseBody,
          ValidationSourceParameter, ValidationSourceDocument}
  }

  type ValidationSource = v: ValidationSourceKind | v.SourceOther? ==> !IsKnownSourceString(v.name)
    witness SourceRequestBody

  function SourceString(v: ValidationSource): string {
    match v
    case SourceRequestBody => ValidationSourceRequestBody
    case SourceResponseBody => ValidationSourceResponseBody
    case SourceParameter => ValidationSourceParameter
    case SourceDocument => ValidationSourceDocument
    case SourceOther(name) => name
  }

  function ParseValidationSource(s: string): (v: ValidationSource)
    ensures SourceString(v) == s
    ensures v.SourceOther? <==> !IsKnownSourceString(s)
  {
    if s == ValidationSourceRequestBody then SourceRequestBody
    else if s == ValidationSourceResponseBody then SourceResponseBody
    else if s == ValidationSourceParameter then SourceParameter
    else if s == ValidationSourceDocument then SourceDocument
    else SourceOther(s)
  }

  /** The four source constants are pairwise distinct. */
  lemma SourceStringInjective(v: ValidationSource, w: ValidationSource)
    requires SourceString(v) == SourceString(w)
    ensures v == w
  {
  }

  lemma ParseSourceString(v: ValidationSource)
    ensures ParseValidationSource(SourceString(v)) == v
  {
  }

  /* ---------------------------------------------------------------------- */
  /* Validation types                                                        */
  /* ---------------------------------------------------------------------- */

  datatype ValidationTypeKind =
    | TypePath
    | TypeRequest
    | TypeResponse
    | TypeParameter
    | TypeQuery
    | TypeHeader
    | TypeCookie
    | TypeBody
    | TypeSchema
    | TypeOther(name: string)

  predicate IsKnownTypeString(s: string) {
    s in {ValidationTypePath, ValidationTypeRequest, ValidationTypeResponse,
          ValidationTypeParameter, ValidationTypeQuery, ValidationTypeHeader,
          ValidationTypeCookie, ValidationTypeBody, ValidationTypeSchema}
  }

  type ValidationType = t: ValidationTypeKind | t.TypeOther? ==> !IsKnownTypeString(t.name)
    witness TypePath

  function TypeString(t: ValidationType): string {
    match t
    case TypePath => ValidationTypePath
    case TypeRequest => ValidationTypeRequest
    case TypeResponse => ValidationTypeResponse
    case TypeParameter => ValidationTypeParameter
    case TypeQuery => ValidationTypeQuery
    case TypeHeader => ValidationTypeHeader
    case TypeCookie => ValidationTypeCookie
    case TypeBody => ValidationTypeBody
    case TypeSchema => ValidationTypeSchema
    case TypeOther(name) => name
  }

  function ParseValidationType(s: string): (t: ValidationType)
    ensures TypeString(t) == s
    ensures t.TypeOther? <==> !IsKnownTypeString(s)
  {
    if s == ValidationTypePath then TypePath
    else if s == ValidationTypeRequest then TypeRequest
    else if s == ValidationTypeResponse then TypeResponse
    else if s == ValidationTypeParameter then TypeParameter
    else if s == ValidationTypeQuery then TypeQuery
    else if s == ValidationTypeHeader then TypeHeader
    else if s == ValidationTypeCookie then TypeCookie
    else if s == ValidationTypeBody then TypeBody
    else if s == ValidationTypeSchema then TypeSchema
    else TypeOther(s)
  }

  /** The nine validation-type constants are pairwise distinct. */
  lemma TypeStringInjective(t: ValidationType, u: ValidationType)
    requires TypeString(t) == TypeString(u)
    ensures t == u
  {
  }

  lemma ParseTypeString(t: ValidationType)
    ensures ParseValidationType(TypeString(t)) == t
  {
  }

  /* ---------------------------------------------------------------------- */
  /* Validation subtypes                                                     */
  /* ---------------------------------------------------------------------- */

  datatype ValidationSubTypeKind =
    | SubTypeMissing
    | SubTypeMissingOperation
    | SubTypeInvalid
    | SubTypeRequired
    | SubTypeEnum
    | SubTypeType
    | SubTypeFormat
    | SubTypeEncoding
    | SubTypeContentType
    | SubTypeSchema
    | SubTypeOther(name: string)

  predicate IsKnownSubTypeString(s: string) {
    s in {ValidationSubTypeMissing, ValidationSubTypeMissingOperation,
          ValidationSubTypeInvalid, ValidationSubTypeRequired, ValidationSubTypeEnum,
          ValidationSubTypeType, ValidationSubTypeFormat, ValidationSubTypeEncoding,
          ValidationSubTypeContentType, ValidationSubTypeSchema}
  }

  type ValidationSubType = st: ValidationSubTypeKind | st.SubTypeOther? ==> !IsKnownSubTypeString(st.name)
    witness SubTypeMissing

  function SubTypeString(st: ValidationSubType): string {
    match st
    case SubTypeMissing => ValidationSubTypeMissing
    case SubTypeMissingOperation => ValidationSubTypeMissingOperation
    case SubTypeInvalid => ValidationSubTypeInvalid
    case SubTypeRequired => ValidationSubTypeRequired
    case SubTypeEnum => ValidationSubTypeEnum
    case SubTypeType => ValidationSubTypeType
    case SubTypeFormat => ValidationSubTypeFormat
    case SubTypeEncoding => ValidationSubTypeEncoding
    case SubTypeContentType => ValidationSubTypeContentType
    case SubTypeSchema => ValidationSubTypeSchema
    case SubTypeOther(name) => name
  }

  function ParseValidationSubType(s: string): (st: ValidationSubType)
    ensures SubTypeString(st) == s
    ensures st.SubTypeOther? <==> !IsKnownSubTypeString(s)
  {
    if s == ValidationSubTypeMissing then SubTypeMissing
    else if s == ValidationSubTypeMissingOperation then SubTypeMissingOperation
    else if s == ValidationSubTypeInvalid then SubTypeInvalid
    else if s == ValidationSubTypeRequired then SubTypeRequired
    else if s == ValidationSubTypeEnum then SubTypeEnum
    else if s == ValidationSubTypeType then SubTypeType
    else if s == ValidationSubTypeFormat then SubTypeFormat
    else if s == ValidationSubTypeEncoding then SubTypeEncoding
    else if s == ValidationSubTypeContentType then SubTypeContentType
    else if s == ValidationSubTypeSchema then SubTypeSchema
    else SubTypeOther(s)
  }

  /** The ten validation-subtype constants are pairwise distinct. */
  lemma SubTypeStringInjective(st: ValidationSubType, su: ValidationSubType)
    requires SubTypeString(st) == SubTypeString(su)
    ensures st == su
  {
  }

  lemma ParseSubTypeString(st: ValidationSubType)
    ensures ParseValidationSubType(SubTypeString(st)) == st
  {
  }

  /* ---------------------------------------------------------------------- */
  /* Parameter locations                                                     */
  /* ---------------------------------------------------------------------- */

  datatype ParameterLocation = LocationQuery | LocationPath | LocationHeader | LocationCookie

  function LocationString(l: ParameterLocation): string {
    match l
    case LocationQuery => ParameterTypeQuery
    case LocationPath => ParameterTypePath
    case LocationHeader => ParameterTypeHeader
    case LocationCookie => ParameterTypeCookie
  }

  /** The validation type an error about a parameter at location `l` carries:
      the one whose constant is spelled like the location's. */
  function LocationValidationType(l: ParameterLocation): (t: ValidationType)
    ensures TypeString(t) == LocationString(l)
    ensures t in {TypeQuery, TypePath, TypeHeader, TypeCookie}
  {
    match l
    case LocationQuery => TypeQuery
    case LocationPath => TypePath
    case LocationHeader => TypeHeader
    case LocationCookie => TypeCookie
  }

  /** The four location constants are pairwise distinct, and each one is a
      validation-type constant: parsing a location's string as a validation
      type gives back the type of that location. */
  lemma LocationStringsAreTypeStrings(l: ParameterLocation, m: ParameterLocation)
    ensures IsKnownTypeString(LocationString(l))
    ensures ParseValidationType(LocationString(l)) == LocationValidationType(l)
    ensures LocationString(l) == LocationString(m) ==> l == m
  {
  }

  /* ---------------------------------------------------------------------- */
  /* HTTP methods                                                            */
  /* ---------------------------------------------------------------------- */

  datatype HttpMethod =
    | MethodGet | MethodPost | MethodPut | MethodPatch
    | MethodDelete | MethodHead | MethodOptions | MethodTrace

  function MethodString(m: HttpMethod): string {
    match m
    case MethodGet => HttpMethodGet
    case MethodPost => HttpMethodPost
    case MethodPut => HttpMethodPut
    case MethodPatch => HttpMethodPatch
    case MethodDelete => HttpMethodDelete
    case MethodHead => HttpMethodHead
    case MethodOptions => HttpMethodOptions
    case MethodTrace => HttpMethodTrace
  }

  predicate IsUpperCaseWord(s: string) {
    |s| > 0 && forall i :: 0 <= i < |s| ==> 'A' <= s[i] <= 'Z'
  }

  /** Exactly the eight method names are recognised; any other string,
      including a lower-case spelling, is not a method constant. */
  function ParseHttpMethod(s: string): (r: Option<HttpMethod>)
    ensures r.Some? ==> MethodString(r.value) == s
    ensures r.None? ==> forall m: HttpMethod :: MethodString(m) != s
  {
    if s == HttpMethodGet then Some(MethodGet)
    else if s == HttpMethodPost then Some(MethodPost)
    else if s == HttpMethodPut then Some(MethodPut)
    else if s == HttpMethodPatch then Some(MethodPatch)
    else if s == HttpMethodDelete then Some(MethodDelete)
    else if s == HttpMethodHead then Some(MethodHead)
    else if s == HttpMethodOptions then Some(MethodOptions)
    else if s == HttpMethodTrace then Some(MethodTrace)
    else None
  }

  /** The eight method constants are distinct non-empty upper-case words. */
  lemma MethodStringsDistinctUpperCase(m: HttpMethod, n: HttpMethod)
    ensures IsUpperCaseWord(MethodString(m))
    ensures MethodString(m) == MethodString(n) ==> m == n
    ensures ParseHttpMethod(MethodString(m)) == Some(m)
  {
  }

}
