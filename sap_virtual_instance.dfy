/**
 * The translation layer of `azurerm_workloads_sap_virtual_instance`: the enum
 * validators of its schema, expand/flatten of the SAP configuration and of the
 * managed resource group configuration, and the flatten of the error model.
 *
 * SDK pointer fields are `Option`s; SDK string enums are strings, since the
 * translation only copies them.
 */
module SapVirtualInstance {
  import opened Wrappers

  // ---------------------------------------------------------------------------
  // Terraform-side models
  // ---------------------------------------------------------------------------

  datatype SapConfigurationModel = SapConfigurationModel(configurationType: string)

  datatype ManagedRgConfigurationModel = ManagedRgConfigurationModel(name: string)

  datatype ErrorDefinitionModel = ErrorDefinitionModel(code: string, message: string)

  datatype SapVirtualInstanceErrorModel = SapVirtualInstanceErrorModel(properties: seq<ErrorDefinitionModel>)

  // ---------------------------------------------------------------------------
  // SDK-side values
  // ---------------------------------------------------------------------------

  datatype SapConfiguration = SapConfiguration(configurationType: string)

  datatype ManagedRgConfiguration = ManagedRgConfiguration(name: Option<string>)

  /** The nested `details` of an error definition are not read by the flatten. */
  datatype ErrorDefinition = ErrorDefinition(code: Option<string>, message: Option<string>)

  datatype SapVirtualInstanceError = SapVirtualInstanceError(properties: Option<ErrorDefinition>)

  // ---------------------------------------------------------------------------
  // Enum validators (`validation.StringInSlice(..., false)`)
  // ---------------------------------------------------------------------------

  datatype SapConfigurationType = Discovery | DeploymentWithOsConfig | Deployment
  datatype SapEnvironmentType = NonProd | Prod
  datatype SapProductType = Ecc | S4Hana | Other

  function ConfigurationTypeName(t: SapConfigurationType): string
  {
    match t
    case Discovery => "Discovery"
    case DeploymentWithOsConfig => "DeploymentWithOSConfig"
    case Deployment => "Deployment"
  }

  function EnvironmentName(t: SapEnvironmentType): string
  {
    match t
    case NonProd => "NonProd"
    case Prod => "Prod"
  }

  function ProductName(t: SapProductType): string
  {
    match t
    case Ecc => "ECC"
    case S4Hana => "S4HANA"
    case Other => "Other"
  }

  predicate ValidConfigurationType(s: string) { s in ["Discovery", "DeploymentWithOSConfig", "Deployment"] }
  predicate ValidEnvironment(s: string) { s in ["NonProd", "Prod"] }
  predicate ValidSapProduct(s: string) { s in ["ECC", "S4HANA", "Other"] }

  /** `configuration_type` accepts exactly the names of the SDK's configuration types. */
  lemma ConfigurationTypeValidator(s: string)
    ensures ValidConfigurationType(s) <==> exists t :: ConfigurationTypeName(t) == s
  {
    if ValidConfigurationType(s) {
      if s == "Discovery" { assert ConfigurationTypeName(Discovery) == s; }
      else if s == "Deployment" { assert ConfigurationTypeName(Deployment) == s; }
      else { assert ConfigurationTypeName(DeploymentWithOsConfig) == s; }
    }
  }

  /** `environment` accepts exactly the names of the SDK's environment types. */
  lemma EnvironmentValidator(s: string)
    ensures ValidEnvironment(s) <==> exists t :: EnvironmentName(t) == s
  {
    if ValidEnvironment(s) {
      if s == "NonProd" { assert EnvironmentName(NonProd) == s; }
      else { assert EnvironmentName(Prod) == s; }
    }
  }

  /** `sap_product` accepts exactly the names of the SDK's product types. */
  lemma SapProductValidator(s: string)
    ensures ValidSapProduct(s) <==> exists t :: ProductName(t) == s
  {
    if ValidSapProduct(s) {
      if s == "ECC" { assert ProductName(Ecc) == s; }
      else if s == "S4HANA" { assert ProductName(S4Hana) == s; }
      else { assert ProductName(Other) == s; }
    }
  }

  /** The comparison is case-sensitive. */
  lemma EnumValidatorsAreCaseSensitive()
    ensures !ValidEnvironment("prod") && !ValidSapProduct("s4hana") && !ValidConfigurationType("discovery")
  {
  }

  // ---------------------------------------------------------------------------
  // Expand and flatten
  // ---------------------------------------------------------------------------

  /** `expandSAPConfigurationModel`: nil for an empty list, else the first block's type. */
  function ExpandSapConfiguration(inputList: seq<SapConfigurationModel>): (r: Option<SapConfiguration>)
    ensures r.None? <==> inputList == []
    ensures r.Some? ==> r.value.configurationType == inputList[0].configurationType
  {
    if |inputList| == 0 then None
    else Some(SapConfiguration(configurationType := inputList[0].configurationType))
  }

  /** `expandManagedRGConfigurationModel`: nil for an empty list, and no name for `""`. */
  function ExpandManagedRgConfiguration(inputList: seq<ManagedRgConfigurationModel>): (r: Option<ManagedRgConfiguration>)
    ensures r.None? <==> inputList == []
    ensures r.Some? ==> (r.value.name.None? <==> inputList[0].name == "")
    ensures r.Some? && r.value.name.Some? ==> r.value.name.value == inputList[0].name
  {
    if |inputList| == 0 then None
    else
      var input := inputList[0];
      Some(ManagedRgConfiguration(name := if input.name != "" then Some(input.name) else None))
  }

  /** `flattenSAPConfigurationModel`: empty for nil, else one block with the type. */
  function FlattenSapConfiguration(input: Option<SapConfiguration>): (r: seq<SapConfigurationModel>)
    ensures input.None? ==> r == []
    ensures input.Some? ==> |r| == 1 && r[0].configurationType == input.value.configurationType
  {
    match input
    case None => []
    case Some(c) => [SapConfigurationModel(configurationType := c.configurationType)]
  }

  /** `flattenManagedRGConfigurationModel`: empty for nil, else one block, `""` for no name. */
  function FlattenManagedRgConfiguration(input: Option<ManagedRgConfiguration>): (r: seq<ManagedRgConfigurationModel>)
    ensures input.None? ==> r == []
    ensures input.Some? ==> |r| == 1 && r[0].name == input.value.name.GetOr("")
  {
    match input
    case None => []
    case Some(c) => [ManagedRgConfigurationModel(name := c.name.GetOr(""))]
  }

  /** `flattenErrorDefinitionModel`: empty for nil, else one block with absent fields as `""`. */
  function FlattenErrorDefinition(input: Option<ErrorDefinition>): (r: seq<ErrorDefinitionModel>)
    ensures input.None? ==> r == []
    ensures input.Some? ==>
      |r| == 1 && r[0].code == input.value.code.GetOr("") && r[0].message == input.value.message.GetOr("")
  {
    match input
    case None => []
    case Some(d) => [ErrorDefinitionModel(code := d.code.GetOr(""), message := d.message.GetOr(""))]
  }

  /** `flattenSAPVirtualInstanceErrorModel`: empty for nil, else one block wrapping the flattened definition. */
  function FlattenSapVirtualInstanceError(input: Option<SapVirtualInstanceError>): (r: seq<SapVirtualInstanceErrorModel>)
    ensures input.None? ==> r == []
    ensures input.Some? ==> |r| == 1 && r[0].properties == FlattenErrorDefinition(input.value.properties)
    ensures input.Some? ==> |r[0].properties| <= 1
  {
    match input
    case None => []
    case Some(e) => [SapVirtualInstanceErrorModel(properties := FlattenErrorDefinition(e.properties))]
  }

  // ---------------------------------------------------------------------------
  // Round trips
  // ---------------------------------------------------------------------------

  /** flatten after expand gives back a configuration list of at most one block (the schema's `MaxItems`). */
  lemma SapConfigurationRoundTrip(inputList: seq<SapConfigurationModel>)
    requires |inputList| <= 1
    ensures FlattenSapConfiguration(ExpandSapConfiguration(inputList)) == inputList
  {
    if |inputList| == 1 {
      assert [inputList[0]] == inputList;
    }
  }

  /** expand after flatten gives back the SDK value. */
  lemma SapConfigurationFlattenExpand(input: Option<SapConfiguration>)
    ensures ExpandSapConfiguration(FlattenSapConfiguration(input)) == input
  {
  }

  /** flatten after expand gives back a managed-RG list of at most one block, an empty name included. */
  lemma ManagedRgConfigurationRoundTrip(inputList: seq<ManagedRgConfigurationModel>)
    requires |inputList| <= 1
    ensures FlattenManagedRgConfiguration(ExpandManagedRgConfiguration(inputList)) == inputList
  {
    if |inputList| == 1 {
      assert [inputList[0]] == inputList;
    }
  }

  /** expand after flatten loses exactly one thing: a name the service sent as `""`. */
  lemma ManagedRgConfigurationFlattenExpand(input: Option<ManagedRgConfiguration>)
    ensures ExpandManagedRgConfiguration(FlattenManagedRgConfiguration(input)) == input <==>
      !(input.Some? && input.value.name == Some(""))
  {
  }

  /** The SDK error definition carrying every field of a model block. */
  function ErrorDefinitionOf(m: ErrorDefinitionModel): ErrorDefinition
  {
    ErrorDefinition(code := Some(m.code), message := Some(m.message))
  }

  /** The error flatten loses nothing the model can hold. */
  lemma ErrorRoundTrip(m: ErrorDefinitionModel)
    ensures FlattenSapVirtualInstanceError(Some(SapVirtualInstanceError(Some(ErrorDefinitionOf(m))))) ==
      [SapVirtualInstanceErrorModel([m])]
  {
  }
}
