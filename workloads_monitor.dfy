/**
 * The translation layer of `azurerm_workloads_monitor`: the `routing_preference`
 * validator, the request properties `Create` sends, expand/flatten of the
 * managed resource group configuration and the flatten of the error model.
 */
module WorkloadsMonitor {
  import opened Wrappers

  // ---------------------------------------------------------------------------
  // Models
  // ---------------------------------------------------------------------------

  datatype ManagedRgConfigurationModel = ManagedRgConfigurationModel(name: string)

  /** The Go type `ErrorInnerErrorModel` is used but never declared; it carries nothing. */
  datatype ErrorInnerErrorModel = ErrorInnerErrorModel

  datatype ErrorModel = ErrorModel(code: string, innerError: seq<ErrorInnerErrorModel>, message: string, target: string)

  /** The fields of the Terraform model that `Create` turns into request properties. */
  datatype MonitorModel = MonitorModel(
    appLocation: string,
    logAnalyticsWorkspaceArmId: string,
    managedResourceGroupConfiguration: seq<ManagedRgConfigurationModel>,
    monitorSubnet: string,
    routingPreference: string,
    zoneRedundancyPreference: string)

  datatype ManagedRgConfiguration = ManagedRgConfiguration(name: Option<string>)

  /** The content of an inner error is not read by the flatten. */
  datatype ErrorInnerError = ErrorInnerError

  datatype Error = Error(code: Option<string>, innerError: Option<ErrorInnerError>, message: Option<string>, target: Option<string>)

  datatype MonitorProperties = MonitorProperties(
    appLocation: Option<string>,
    logAnalyticsWorkspaceArmId: Option<string>,
    managedResourceGroupConfiguration: Option<ManagedRgConfiguration>,
    monitorSubnet: Option<string>,
    routingPreference: Option<string>,
    zoneRedundancyPreference: Option<string>)

  // ---------------------------------------------------------------------------
  // Validator
  // ---------------------------------------------------------------------------

  datatype RoutingPreference = Default | RouteAll

  function RoutingPreferenceName(p: RoutingPreference): string
  {
    match p
    case Default => "Default"
    case RouteAll => "RouteAll"
  }

  predicate ValidRoutingPreference(s: string) { s in ["Default", "RouteAll"] }

  /** `routing_preference` accepts exactly the names of the SDK's routing preferences, case-sensitively. */
  lemma RoutingPreferenceValidator(s: string)
    ensures ValidRoutingPreference(s) <==> exists p :: RoutingPreferenceName(p) == s
  {
    if ValidRoutingPreference(s) {
      if s == "Default" { assert RoutingPreferenceName(Default) == s; }
      else { assert RoutingPreferenceName(RouteAll) == s; }
    }
  }

  // ---------------------------------------------------------------------------
  // Expand and flatten
  // ---------------------------------------------------------------------------

  /** `expandManagedRGConfigurationModel`: nil for an empty list, and no name for `""`. */
  function ExpandManagedRgConfiguration(inputList: seq<ManagedRgConfigurationModel>): (r: Option<ManagedRgConfiguration>)
    ensures r.None? <==> inputList == []
    ensures r.Some? ==> (r.value.name.None? <==> inputList[0].name == "")
    ensures r.Some? && r.value.name.Some? ==> r.value.name.value == inputList[0].name
  {
    if |inputList| == 0 then None
    else
      var input := inputList[0];
      Some(ManagedRgConfiguration(name := if input.name != "" then Some(input.name) else None))
  }

  /** `flattenManagedRGConfigurationModel`: empty for nil, else one block, `""` for no name. */
  function FlattenManagedRgConfiguration(input: Option<ManagedRgConfiguration>): (r: seq<ManagedRgConfigurationModel>)
    ensures input.None? ==> r == []
    ensures input.Some? ==> |r| == 1 && r[0].name == input.value.name.GetOr("")
  {
    match input
    case None => []
    case Some(c) => [ManagedRgConfigurationModel(name := c.name.GetOr(""))]
  }

  /** `flattenErrorInnerErrorModel`: empty for nil, else one empty record. */
  function FlattenErrorInnerError(input: Option<ErrorInnerError>): (r: seq<ErrorInnerErrorModel>)
    ensures |r| == if input.None? then 0 else 1
  {
    match input
    case None => []
    case Some(_) => [ErrorInnerErrorModel]
  }

  /** `flattenErrorModel`: empty for nil, else one block with absent strings as `""`. */
  function FlattenError(input: Option<Error>): (r: seq<ErrorModel>)
    ensures input.None? ==> r == []
    ensures input.Some? ==> (|r| == 1 &&
      r[0].code == input.value.code.GetOr("") && r[0].message == input.value.message.GetOr("") &&
      r[0].target == input.value.target.GetOr("") &&
      (|r[0].innerError| == 1 <==> input.value.innerError.Some?) && |r[0].innerError| <= 1)
  {
    match input
    case None => []
    case Some(e) =>
      [ErrorModel(code := e.code.GetOr(""), innerError := FlattenErrorInnerError(e.innerError),
                  message := e.message.GetOr(""), target := e.target.GetOr(""))]
  }

  /** The service error carrying every field of a model block. */
  function ErrorOf(m: ErrorModel): Error
  {
    Error(code := Some(m.code), innerError := if |m.innerError| == 0 then None else Some(ErrorInnerError),
          message := Some(m.message), target := Some(m.target))
  }

  /** The error flatten loses nothing a model block with at most one inner error can hold. */
  lemma ErrorRoundTrip(m: ErrorModel)
    requires |m.innerError| <= 1
    ensures FlattenError(Some(ErrorOf(m))) == [m]
  {
    if |m.innerError| == 1 {
      assert m.innerError[0] == ErrorInnerErrorModel;
      assert m.innerError == [m.innerError[0]];
    }
  }

  /** flatten after expand gives back a managed-RG list of at most one block. */
  lemma ManagedRgConfigurationRoundTrip(inputList: seq<ManagedRgConfigurationModel>)
    requires |inputList| <= 1
    ensures FlattenManagedRgConfiguration(ExpandManagedRgConfiguration(inputList)) == inputList
  {
    if |inputList| == 1 {
      assert [inputList[0]] == inputList;
    }
  }

  // ---------------------------------------------------------------------------
  // Create
  // ---------------------------------------------------------------------------

  /** An optional string the request leaves out when it is empty. */
  function NonEmpty(s: string): (r: Option<string>)
    ensures r.None? <==> s == ""
    ensures r.Some? ==> r.value == s
  {
    if s != "" then Some(s) else None
  }

  /**
   * The monitor properties `Create` sends: the routing preference is always set,
   * the optional strings only when they are not empty.
   */
  function CreateProperties(model: MonitorModel): (p: MonitorProperties)
    ensures p.routingPreference == Some(model.routingPreference)
    ensures p.managedResourceGroupConfiguration == ExpandManagedRgConfiguration(model.managedResourceGroupConfiguration)
    ensures p.appLocation.None? <==> model.appLocation == ""
    ensures p.logAnalyticsWorkspaceArmId.None? <==> model.logAnalyticsWorkspaceArmId == ""
    ensures p.monitorSubnet.None? <==> model.monitorSubnet == ""
    ensures p.zoneRedundancyPreference.None? <==> model.zoneRedundancyPreference == ""
    ensures p.appLocation.GetOr("") == model.appLocation
    ensures p.logAnalyticsWorkspaceArmId.GetOr("") == model.logAnalyticsWorkspaceArmId
    ensures p.monitorSubnet.GetOr("") == model.monitorSubnet
    ensures p.zoneRedundancyPreference.GetOr("") == model.zoneRedundancyPreference
  {
    MonitorProperties(
      appLocation := NonEmpty(model.appLocation),
      logAnalyticsWorkspaceArmId := NonEmpty(model.logAnalyticsWorkspaceArmId),
      managedResourceGroupConfiguration := ExpandManagedRgConfiguration(model.managedResourceGroupConfiguration),
      monitorSubnet := NonEmpty(model.monitorSubnet),
      routingPreference := Some(model.routingPreference),
      zoneRedundancyPreference := NonEmpty(model.zoneRedundancyPreference))
  }

  /** Two models send the same request exactly when they agree on every field of it. */
  lemma CreatePropertiesInjective(a: MonitorModel, b: MonitorModel)
    requires |a.managedResourceGroupConfiguration| <= 1 && |b.managedResourceGroupConfiguration| <= 1
    ensures CreateProperties(a) == CreateProperties(b) <==> a == b
  {
    if CreateProperties(a) == CreateProperties(b) {
      ManagedRgConfigurationRoundTrip(a.managedResourceGroupConfiguration);
      ManagedRgConfigurationRoundTrip(b.managedResourceGroupConfiguration);
    }
  }
}
