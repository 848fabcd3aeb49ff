/**
 * The flatten helpers of `azurerm_workloads_sap_application_server_instance`:
 * the error and load-balancer flattens (nil gives an empty list, a value gives
 * one block with absent fields as `""`), and, for the two array flattens, which
 * append in a loop, a method each proved against a specification function.
 */
module SapApplicationServerInstance {
  import opened Wrappers

  datatype ErrorDefinitionModel = ErrorDefinitionModel(code: string, message: string)

  datatype SapVirtualInstanceErrorModel = SapVirtualInstanceErrorModel(properties: seq<ErrorDefinitionModel>)

  datatype LoadBalancerDetailsModel = LoadBalancerDetailsModel(id: string)

  datatype StorageInformationModel = StorageInformationModel(id: string)

  datatype ApplicationServerVmDetailsModel = ApplicationServerVmDetailsModel(
    storageDetails: seq<StorageInformationModel>, vmType: string, virtualMachineId: string)

  /** The nested `details` of an error definition are not read by the flatten. */
  datatype ErrorDefinition = ErrorDefinition(code: Option<string>, message: Option<string>)

  datatype SapVirtualInstanceError = SapVirtualInstanceError(properties: Option<ErrorDefinition>)

  datatype LoadBalancerDetails = LoadBalancerDetails(id: Option<string>)

  datatype StorageInformation = StorageInformation(id: Option<string>)

  datatype ApplicationServerVmDetails = ApplicationServerVmDetails(
    storageDetails: Option<seq<StorageInformation>>, vmType: Option<string>, virtualMachineId: Option<string>)

  // ---------------------------------------------------------------------------
  // Single-object flattens
  // ---------------------------------------------------------------------------

  function FlattenErrorDefinition(input: Option<ErrorDefinition>): (r: seq<ErrorDefinitionModel>)
    ensures input.None? ==> r == []
    ensures input.Some? ==>
      |r| == 1 && r[0].code == input.value.code.GetOr("") && r[0].message == input.value.message.GetOr("")
  {
    match input
    case None => []
    case Some(d) => [ErrorDefinitionModel(code := d.code.GetOr(""), message := d.message.GetOr(""))]
  }

  function FlattenSapVirtualInstanceError(input: Option<SapVirtualInstanceError>): (r: seq<SapVirtualInstanceErrorModel>)
    ensures input.None? ==> r == []
    ensures input.Some? ==> |r| == 1 && r[0].properties == FlattenErrorDefinition(input.value.properties)
    ensures input.Some? ==> |r[0].properties| <= 1
  {
    match input
    case None => []
    case Some(e) => [SapVirtualInstanceErrorModel(properties := FlattenErrorDefinition(e.properties))]
  }

  function FlattenLoadBalancerDetails(input: Option<LoadBalancerDetails>): (r: seq<LoadBalancerDetailsModel>)
    ensures input.None? ==> r == []
    ensures input.Some? ==> |r| == 1 && r[0].id == input.value.id.GetOr("")
  {
    match input
    case None => []
    case Some(d) => [LoadBalancerDetailsModel(id := d.id.GetOr(""))]
  }

  /** The single-object flattens lose nothing a model block can hold. */
  lemma SingleObjectRoundTrips(error: ErrorDefinitionModel, loadBalancer: LoadBalancerDetailsModel)
    ensures FlattenSapVirtualInstanceError(Some(SapVirtualInstanceError(Some(ErrorDefinition(Some(error.code), Some(error.message)))))) ==
      [SapVirtualInstanceErrorModel([error])]
    ensures FlattenLoadBalancerDetails(Some(LoadBalancerDetails(Some(loadBalancer.id)))) == [loadBalancer]
  {
  }

  // ---------------------------------------------------------------------------
  // Array flattens
  // ---------------------------------------------------------------------------

  function StorageInformationModelOf(s: StorageInformation): (m: StorageInformationModel)
    ensures m.id == s.id.GetOr("")
  {
    StorageInformationModel(id := s.id.GetOr(""))
  }

  /** What `flattenStorageInformationModelArray` computes: nil gives an empty list, else one block per element, in order. */
  function StorageInformationModels(inputList: Option<seq<StorageInformation>>): (r: seq<StorageInformationModel>)
    ensures inputList.None? ==> r == []
    ensures inputList.Some? ==> (|r| == |inputList.value| &&
      forall i :: 0 <= i < |r| ==> r[i] == StorageInformationModelOf(inputList.value[i]))
  {
    match inputList
    case None => []
    case Some(v) => seq(|v|, i requires 0 <= i < |v| => StorageInformationModelOf(v[i]))
  }

  /** `flattenStorageInformationModelArray`. */
  method FlattenStorageInformationArray(inputList: Option<seq<StorageInformation>>)
    returns (outputList: seq<StorageInformationModel>)
    ensures outputList == StorageInformationModels(inputList)
  {
    outputList := [];
    if inputList.None? {
      return;
    }
    var items := inputList.value;
    var i := 0;
    while i < |items|
      invariant 0 <= i <= |items|
      invariant |outputList| == i
      invariant forall j :: 0 <= j < i ==> outputList[j] == StorageInformationModelOf(items[j])
    {
      var input := items[i];
      var output := StorageInformationModel(id := "");
      if input.id.Some? {
        output := output.(id := input.id.value);
      }
      outputList := outputList + [output];
      i := i + 1;
    }
  }

  function ApplicationServerVmDetailsModelOf(d: ApplicationServerVmDetails): (m: ApplicationServerVmDetailsModel)
    ensures m.storageDetails == StorageInformationModels(d.storageDetails)
    ensures m.vmType == d.vmType.GetOr("") && m.virtualMachineId == d.virtualMachineId.GetOr("")
  {
    ApplicationServerVmDetailsModel(
      storageDetails := StorageInformationModels(d.storageDetails),
      vmType := d.vmType.GetOr(""), virtualMachineId := d.virtualMachineId.GetOr(""))
  }

  /** What `flattenApplicationServerVMDetailsModelArray` computes: one block per element, in order. */
  function ApplicationServerVmDetailsModels(inputList: Option<seq<ApplicationServerVmDetails>>)
    : (r: seq<ApplicationServerVmDetailsModel>)
    ensures inputList.None? ==> r == []
    ensures inputList.Some? ==> (|r| == |inputList.value| &&
      forall i :: 0 <= i < |r| ==> r[i] == ApplicationServerVmDetailsModelOf(inputList.value[i]))
  {
    match inputList
    case None => []
    case Some(v) => seq(|v|, i requires 0 <= i < |v| => ApplicationServerVmDetailsModelOf(v[i]))
  }

  /** `flattenApplicationServerVMDetailsModelArray`. */
  method FlattenApplicationServerVmDetailsArray(inputList: Option<seq<ApplicationServerVmDetails>>)
    returns (outputList: seq<ApplicationServerVmDetailsModel>)
    ensures outputList == ApplicationServerVmDetailsModels(inputList)
  {
    outputList := [];
    if inputList.None? {
      return;
    }
    var items := inputList.value;
    var i := 0;
    while i < |items|
      invariant 0 <= i <= |items|
      invariant |outputList| == i
      invariant forall j :: 0 <= j < i ==> outputList[j] == ApplicationServerVmDetailsModelOf(items[j])
    {
      var input := items[i];
      var storageDetails := FlattenStorageInformationArray(input.storageDetails);
      var output := ApplicationServerVmDetailsModel(storageDetails := storageDetails, vmType := "", virtualMachineId := "");
      if input.vmType.Some? {
        output := output.(vmType := input.vmType.value);
      }
      if input.virtualMachineId.Some? {
        output := output.(virtualMachineId := input.virtualMachineId.value);
      }
      outputList := outputList + [output];
      i := i + 1;
    }
  }

  function StorageInformationOf(m: StorageInformationModel): StorageInformation
  {
    StorageInformation(id := Some(m.id))
  }

  function ApplicationServerVmDetailsOf(m: ApplicationServerVmDetailsModel): ApplicationServerVmDetails
  {
    ApplicationServerVmDetails(
      storageDetails := Some(seq(|m.storageDetails|, i requires 0 <= i < |m.storageDetails| => StorageInformationOf(m.storageDetails[i]))),
      vmType := Some(m.vmType), virtualMachineId := Some(m.virtualMachineId))
  }

  /** The storage flatten loses nothing a list of model blocks can hold. */
  lemma StorageInformationRoundTrip(models: seq<StorageInformationModel>)
    ensures StorageInformationModels(Some(seq(|models|, i requires 0 <= i < |models| => StorageInformationOf(models[i])))) == models
  {
  }

  /** The VM-details flatten loses nothing a list of model blocks can hold. */
  lemma ApplicationServerVmDetailsRoundTrip(models: seq<ApplicationServerVmDetailsModel>)
    ensures ApplicationServerVmDetailsModels(Some(seq(|models|, i requires 0 <= i < |models| => ApplicationServerVmDetailsOf(models[i])))) == models
  {
    var api := seq(|models|, i requires 0 <= i < |models| => ApplicationServerVmDetailsOf(models[i]));
    forall i | 0 <= i < |models|
      ensures ApplicationServerVmDetailsModelOf(api[i]) == models[i]
    {
      StorageInformationRoundTrip(models[i].storageDetails);
    }
  }
}
