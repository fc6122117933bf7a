/** The table tests of the validation-source mapping and of the category
    classification, and the category conclusions the end-to-end scenarios
    draw, stated over hand-built records. */
module IntegrationTests {

  import opened Constants
  import opened ValidationErrors
  import opened Categorization
  import ValidationErrorTests

  lemma ValidationSourceTable()
    ensures DetermineValidationSource(ValidationErrorTests.Classified(ValidationTypeRequest, "", [])) == ValidationSourceRequestBody
    ensures DetermineValidationSource(ValidationErrorTests.Classified(ValidationTypeResponse, "", [])) == ValidationSourceResponseBody
    ensures DetermineValidationSource(ValidationErrorTests.Classified(ValidationTypeParameter, "", [])) == ValidationSourceParameter
    ensures DetermineValidationSource(ValidationErrorTests.Classified(ValidationTypeQuery, "", [])) == ValidationSourceParameter
    ensures DetermineValidationSource(ValidationErrorTests.Classified(ValidationTypeHeader, "", [])) == ValidationSourceParameter
    ensures DetermineValidationSource(ValidationErrorTests.Classified(ValidationTypeCookie, "", [])) == ValidationSourceParameter
    ensures DetermineValidationSource(ValidationErrorTests.Classified(ValidationTypeSchema, "", [])) == ValidationSourceDocument
  {
  }

  function CategoryOf(vType: string, vSubType: string, hasSchemaErrors: bool): string {
    var fs := if hasSchemaErrors then [ValidationErrorTests.Failure("Test schema error", "/test")] else [];
    CategoryString(SetErrorCategory(ValidationErrorTests.Classified(vType, vSubType, fs)).errorCategory)
  }

  lemma CategoryClassificationTable()
    ensures CategoryOf("", "", true) == ErrorCategorySchema
    ensures CategoryOf(ValidationTypePath, ValidationSubTypeMissing, false) == ErrorCategoryRetrieval
    ensures CategoryOf(ValidationTypePath, ValidationSubTypeMissingOperation, false) == ErrorCategoryRetrieval
    ensures CategoryOf(ValidationTypeRequest, ValidationSubTypeContentType, false) == ErrorCategoryRetrieval
    ensures CategoryOf(ValidationTypeRequest, ValidationSubTypeMissing, false) == ErrorCategoryRetrieval
    ensures CategoryOf(ValidationTypeRequest, ValidationSubTypeSchema, false) == ErrorCategoryStructural
    ensures CategoryOf(ValidationTypeParameter, ValidationSubTypeMissing, false) == ErrorCategoryRetrieval
    ensures CategoryOf(ValidationTypeParameter, ValidationSubTypeRequired, false) == ErrorCategoryRetrieval
    ensures CategoryOf(ValidationTypeParameter, ValidationSubTypeFormat, false) == ErrorCategoryStructural
    ensures CategoryOf("unknown", "unknown", false) == ErrorCategoryStructural
  {
  }

  /** A request-body schema failure: whatever the type and subtype, an error
      carrying failures stamped with the request-body source is a schema
      error and neither a retrieval nor a structural one. */
  lemma RequestBodySchemaScenario(e: ValidationError)
    requires |e.schemaValidationErrors| > 0
    requires forall i :: 0 <= i < |e.schemaValidationErrors| ==>
               e.schemaValidationErrors[i].validationSource == SourceRequestBody
    ensures var r := SetErrorCategory(e);
            && CategoryString(r.errorCategory) == ErrorCategorySchema
            && IsSchemaError(r) && !IsRetrievalError(r) && !IsStructuralError(r)
            && r.schemaValidationErrors == e.schemaValidationErrors
            && forall i :: 0 <= i < |r.schemaValidationErrors| ==>
                 SourceString(r.schemaValidationErrors[i].validationSource) == ValidationSourceRequestBody
  {
    SchemaTakesPrecedence(e);
  }

  /** A query-parameter enum failure keeps its `query` type and `enum`
      subtype, is categorised as schema, and its failures keep the
      `parameter` source. */
  lemma ParameterEnumScenario(e: ValidationError)
    requires |e.schemaValidationErrors| > 0
    requires e.validationType == TypeQuery && e.validationSubType == SubTypeEnum
    requires forall i :: 0 <= i < |e.schemaValidationErrors| ==>
               e.schemaValidationErrors[i].validationSource == SourceParameter
    ensures var r := SetErrorCategory(e);
            && CategoryString(r.errorCategory) == ErrorCategorySchema && IsSchemaError(r)
            && SubTypeString(r.validationSubType) == ValidationSubTypeEnum
            && TypeString(r.validationType) == ValidationTypeQuery
            && forall i :: 0 <= i < |r.schemaValidationErrors| ==>
                 SourceString(r.schemaValidationErrors[i].validationSource) == ValidationSourceParameter
  {
  }

  /** A path-parameter type failure keeps its `path` type and `type`
      subtype, is categorised as schema, and its failures keep the
      `parameter` source. */
  lemma PathParameterTypeScenario(e: ValidationError)
    requires |e.schemaValidationErrors| > 0
    requires e.validationType == TypePath && e.validationSubType == SubTypeType
    requires forall i :: 0 <= i < |e.schemaValidationErrors| ==>
               e.schemaValidationErrors[i].validationSource == SourceParameter
    ensures var r := SetErrorCategory(e);
            && CategoryString(r.errorCategory) == ErrorCategorySchema && IsSchemaError(r)
            && SubTypeString(r.validationSubType) == ValidationSubTypeType
            && TypeString(r.validationType) == ValidationTypePath
            && !IsPathMissingError(r)
            && forall i :: 0 <= i < |r.schemaValidationErrors| ==>
                 SourceString(r.schemaValidationErrors[i].validationSource) == ValidationSourceParameter
  {
  }

  /** A missing required parameter reported under the `parameter` type is
      a retrieval error only. */
  lemma MissingParameterScenario(e: ValidationError)
    requires |e.schemaValidationErrors| == 0
    requires e.validationType == TypeParameter
    requires e.validationSubType in {SubTypeMissing, SubTypeRequired}
    ensures var r := SetErrorCategory(e);
            && CategoryString(r.errorCategory) == ErrorCategoryRetrieval
            && !IsSchemaError(r) && IsRetrievalError(r) && !IsStructuralError(r)
  {
  }

  /** An unknown path is a retrieval error only. */
  lemma PathNotFoundScenario(e: ValidationError)
    requires |e.schemaValidationErrors| == 0
    requires TypeString(e.validationType) == ValidationTypePath
    requires SubTypeString(e.validationSubType) == ValidationSubTypeMissing
    ensures var r := SetErrorCategory(e);
            && IsPathMissingError(r)
            && CategoryString(r.errorCategory) == ErrorCategoryRetrieval
            && !IsSchemaError(r) && IsRetrievalError(r) && !IsStructuralError(r)
  {
    TypeStringInjective(e.validationType, TypePath);
    SubTypeStringInjective(e.validationSubType, SubTypeMissing);
    MissingPathIsRetrieval(e);
  }

}
