/**
 * The translation layer of `azurerm_workloads_provider_instance`: expand/flatten
 * of the provider-specific properties and the flatten of the error model.
 */
module ProviderInstance {
  import opened Wrappers

  datatype ProviderSpecificPropertiesModel = ProviderSpecificPropertiesModel(providerType: string)

  /** The Go type `ErrorInnerErrorModel` is used but never declared; it carries nothing. */
  datatype ErrorInnerErrorModel = ErrorInnerErrorModel

  datatype ErrorModel = ErrorModel(code: string, innerError: seq<ErrorInnerErrorModel>, message: string, target: string)

  datatype ProviderSpecificProperties = ProviderSpecificProperties(providerType: string)

  /** The content of an inner error is not read by the flatten. */
  datatype ErrorInnerError = ErrorInnerError

  datatype Error = Error(code: Option<string>, innerError: Option<ErrorInnerError>, message: Option<string>, target: Option<string>)

  /** `provider_type` is validated by `validation.StringIsNotEmpty`. */
  predicate ValidProviderType(s: string) { s != "" }

  /** `expandProviderSpecificPropertiesModel`: nil for an empty list, else the first block's type. */
  function ExpandProviderSpecificProperties(inputList: seq<ProviderSpecificPropertiesModel>)
    : (r: Option<ProviderSpecificProperties>)
    ensures r.None? <==> inputList == []
    ensures r.Some? ==> r.value.providerType == inputList[0].providerType
  {
    if |inputList| == 0 then None
    else Some(ProviderSpecificProperties(providerType := inputList[0].providerType))
  }

  /** `flattenProviderSpecificPropertiesModel`: empty for nil, else one block with the type. */
  function FlattenProviderSpecificProperties(input: Option<ProviderSpecificProperties>)
    : (r: seq<ProviderSpecificPropertiesModel>)
    ensures input.None? ==> r == []
    ensures input.Some? ==> |r| == 1 && r[0].providerType == input.value.providerType
  {
    match input
    case None => []
    case Some(p) => [ProviderSpecificPropertiesModel(providerType := p.providerType)]
  }

  /** flatten after expand gives back a list of at most one block (the schema's `MaxItems`). */
  lemma ProviderSpecificPropertiesRoundTrip(inputList: seq<ProviderSpecificPropertiesModel>)
    requires |inputList| <= 1
    ensures FlattenProviderSpecificProperties(ExpandProviderSpecificProperties(inputList)) == inputList
  {
    if |inputList| == 1 {
      assert [inputList[0]] == inputList;
    }
  }

  /** expand after flatten gives back the SDK value. */
  lemma ProviderSpecificPropertiesFlattenExpand(input: Option<ProviderSpecificProperties>)
    ensures ExpandProviderSpecificProperties(FlattenProviderSpecificProperties(input)) == input
  {
  }

  /** `flattenErrorInnerErrorModel`: empty for nil, else one empty record. */
  function FlattenErrorInnerError(input: Option<ErrorInnerError>): (r: seq<ErrorInnerErrorModel>)
    ensures |r| == if input.None? then 0 else 1
  {
    match input
    case None => []
    case Some(_) => [ErrorInnerErrorModel]
  }

  /** `flattenErrorModel`: empty for nil, else one block with absent strings as `""`. */
  function FlattenError(input: Option<Error>): (r: seq<ErrorModel>)
    ensures input.None? ==> r == []
    ensures input.Some? ==> (|r| == 1 &&
      r[0].code == input.value.code.GetOr("") && r[0].message == input.value.message.GetOr("") &&
      r[0].target == input.value.target.GetOr("") &&
      (|r[0].innerError| == 1 <==> input.value.innerError.Some?) && |r[0].innerError| <= 1)
  {
    match input
    case None => []
    case Some(e) =>
      [ErrorModel(code := e.code.GetOr(""), innerError := FlattenErrorInnerError(e.innerError),
                  message := e.message.GetOr(""), target := e.target.GetOr(""))]
  }

  /** The service error carrying every field of a model block. */
  function ErrorOf(m: ErrorModel): Error
  {
    Error(code := Some(m.code), innerError := if |m.innerError| == 0 then None else Some(ErrorInnerError),
          message := Some(m.message), target := Some(m.target))
  }

  /** The error flatten loses nothing a model block with at most one inner error can hold. */
  lemma ErrorRoundTrip(m: ErrorModel)
    requires |m.innerError| <= 1
    ensures FlattenError(Some(ErrorOf(m))) == [m]
  {
    if |m.innerError| == 1 {
      assert m.innerError[0] == ErrorInnerErrorModel;
      assert m.innerError == [m.innerError[0]];
    }
  }
}
