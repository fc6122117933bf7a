/** Properties of the categorisation rule and of the classification
    predicates that hold for every validation error. */
module Categorization {

  import opened Constants
  import opened ValidationErrors

  /** Go's fields are strings: reading any two strings as a type and a
      subtype and categorising them agrees with the rule applied to the
      strings themselves, recognised or not. */
  lemma CategorizeAgreesOnStrings(vType: string, vSubType: string, hasSchemaErrors: bool)
    ensures CategoryString(Categorize(ParseValidationType(vType), ParseValidationSubType(vSubType), hasSchemaErrors))
            == CategoryForStrings(vType, vSubType, hasSchemaErrors)
  {
  }

  /** Schema failures take precedence over every type and subtype,
      recognised or not. */
  lemma SchemaTakesPrecedence(e: ValidationError)
    requires |e.schemaValidationErrors| > 0
    ensures SetErrorCategory(e).errorCategory == CategorySchema
    ensures IsSchemaError(SetErrorCategory(e))
    ensures !IsRetrievalError(SetErrorCategory(e)) && !IsStructuralError(SetErrorCategory(e))
  {
  }

  /** Without schema failures the category is retrieval exactly for the six
      listed (type, subtype) pairs, and structural for every other pair. */
  lemma RetrievalPairs(e: ValidationError)
    requires |e.schemaValidationErrors| == 0
    ensures IsRetrievalError(SetErrorCategory(e))
            <==> (e.validationType, e.validationSubType) in
                   {(TypePath, SubTypeMissing), (TypePath, SubTypeMissingOperation),
                    (TypeRequest, SubTypeContentType), (TypeRequest, SubTypeMissing),
                    (TypeParameter, SubTypeMissing), (TypeParameter, SubTypeRequired)}
    ensures IsStructuralError(SetErrorCategory(e)) <==> !IsRetrievalError(SetErrorCategory(e))
  {
  }

  /** The category is a function of the type, the subtype and whether
      schema failures are present, and of nothing else in the record. */
  lemma CategoryDependsOnlyOnInputs(e: ValidationError, f: ValidationError)
    requires e.validationType == f.validationType
    requires e.validationSubType == f.validationSubType
    requires (|e.schemaValidationErrors| > 0) == (|f.schemaValidationErrors| > 0)
    ensures SetErrorCategory(e).errorCategory == SetErrorCategory(f).errorCategory
  {
  }

  /** Categorising an already categorised error changes nothing. */
  lemma SetErrorCategoryIdempotent(e: ValidationError)
    ensures SetErrorCategory(SetErrorCategory(e)) == SetErrorCategory(e)
  {
  }

  /** After categorisation exactly one of schema, retrieval and structural
      holds, and the category is schema exactly when schema failures are
      attached. */
  lemma ExactlyOneCategory(e: ValidationError)
    ensures var r := SetErrorCategory(e);
            && !(r.errorCategory == CategorySchema && IsRetrievalError(r))
            && !(r.errorCategory == CategorySchema && IsStructuralError(r))
            && !(IsRetrievalError(r) && IsStructuralError(r))
            && (r.errorCategory == CategorySchema || IsRetrievalError(r) || IsStructuralError(r))
            && (IsSchemaError(r) <==> r.errorCategory == CategorySchema)
  {
  }

  /** A missing path or a missing operation is a retrieval error, never a
      schema or structural one, and the two predicates never both hold. */
  lemma MissingPathIsRetrieval(e: ValidationError)
    requires |e.schemaValidationErrors| == 0
    requires IsPathMissingError(e) || IsOperationMissingError(e)
    ensures IsRetrievalError(SetErrorCategory(e))
    ensures !IsSchemaError(SetErrorCategory(e)) && !IsStructuralError(SetErrorCategory(e))
    ensures !(IsPathMissingError(e) && IsOperationMissingError(e))
  {
  }

  /** The retrieval rule for parameters names the generic `parameter` type
      only: an error typed with a concrete location (query, header, cookie)
      whose subtype is `missing` or `required`, or typed `path` with subtype
      `required`, falls through to structural. */
  lemma LocationTypedMissingIsStructural(e: ValidationError, l: ParameterLocation)
    requires |e.schemaValidationErrors| == 0
    requires e.validationType == LocationValidationType(l)
    requires e.validationSubType == SubTypeRequired
             || (e.validationSubType == SubTypeMissing && l != LocationPath)
    ensures IsStructuralError(SetErrorCategory(e))
    ensures !IsRetrievalError(SetErrorCategory(e))
  {
  }

  /** A parameter location's validation type maps to the `parameter`
      source for query, header and cookie; the `path` type has no source. */
  lemma LocationSource(e: ValidationError, l: ParameterLocation)
    requires e.validationType == LocationValidationType(l)
    ensures l != LocationPath ==> DetermineValidationSource(e) == ValidationSourceParameter
    ensures l == LocationPath ==> DetermineValidationSource(e) == ""
  {
  }

  /** A non-empty source is always one of the four source constants. */
  lemma DeterminedSourceIsKnown(e: ValidationError)
    ensures var r := DetermineValidationSource(e);
            r != "" ==> IsKnownSourceString(r) && ParseValidationSource(r) != SourceOther(r)
  {
  }

}
