/**
 * The flatten helpers of `azurerm_workloads_sap_central_instance`: one function
 * per single-object flatten (nil gives an empty list, a value gives one block
 * with absent fields as zero values), and, for the two array flattens, which
 * append in a loop, a method each proved against a specification function.
 */
module SapCentralInstance {
  import opened Wrappers

  /** Go's `int64`; the flattens only copy these values. */
  newtype int64 = x: int | -0x8000_0000_0000_0000 <= x < 0x8000_0000_0000_0000

  // ---------------------------------------------------------------------------
  // Terraform-side models
  // ---------------------------------------------------------------------------

  datatype EnqueueReplicationServerPropertiesModel = EnqueueReplicationServerPropertiesModel(
    ersVersion: string, health: string, hostname: string, ipAddress: string,
    instanceNo: string, kernelPatch: string, kernelVersion: string)

  datatype EnqueueServerPropertiesModel = EnqueueServerPropertiesModel(
    health: string, hostname: string, ipAddress: string, port: int64)

  datatype ErrorDefinitionModel = ErrorDefinitionModel(code: string, message: string)

  datatype SapVirtualInstanceErrorModel = SapVirtualInstanceErrorModel(properties: seq<ErrorDefinitionModel>)

  datatype GatewayServerPropertiesModel = GatewayServerPropertiesModel(health: string, port: int64)

  datatype LoadBalancerDetailsModel = LoadBalancerDetailsModel(id: string)

  datatype MessageServerPropertiesModel = MessageServerPropertiesModel(
    httpPort: int64, httpsPort: int64, health: string, hostname: string, ipAddress: string,
    internalMsPort: int64, msPort: int64)

  datatype StorageInformationModel = StorageInformationModel(id: string)

  datatype CentralServerVmDetailsModel = CentralServerVmDetailsModel(
    storageDetails: seq<StorageInformationModel>, vmType: string, virtualMachineId: string)

  // ---------------------------------------------------------------------------
  // SDK-side values
  // ---------------------------------------------------------------------------

  datatype EnqueueReplicationServerProperties = EnqueueReplicationServerProperties(
    ersVersion: Option<string>, health: Option<string>, hostname: Option<string>, ipAddress: Option<string>,
    instanceNo: Option<string>, kernelPatch: Option<string>, kernelVersion: Option<string>)

  datatype EnqueueServerProperties = EnqueueServerProperties(
    health: Option<string>, hostname: Option<string>, ipAddress: Option<string>, port: Option<int64>)

  /** The nested `details` of an error definition are not read by the flatten. */
  datatype ErrorDefinition = ErrorDefinition(code: Option<string>, message: Option<string>)

  datatype SapVirtualInstanceError = SapVirtualInstanceError(properties: Option<ErrorDefinition>)

  datatype GatewayServerProperties = GatewayServerProperties(health: Option<string>, port: Option<int64>)

  datatype LoadBalancerDetails = LoadBalancerDetails(id: Option<string>)

  datatype MessageServerProperties = MessageServerProperties(
    httpPort: Option<int64>, httpsPort: Option<int64>, health: Option<string>, hostname: Option<string>,
    ipAddress: Option<string>, internalMsPort: Option<int64>, msPort: Option<int64>)

  datatype StorageInformation = StorageInformation(id: Option<string>)

  datatype CentralServerVmDetails = CentralServerVmDetails(
    storageDetails: Option<seq<StorageInformation>>, vmType: Option<string>, virtualMachineId: Option<string>)

  // ---------------------------------------------------------------------------
  // Single-object flattens
  // ---------------------------------------------------------------------------

  function FlattenEnqueueReplicationServerProperties(input: Option<EnqueueReplicationServerProperties>)
    : (r: seq<EnqueueReplicationServerPropertiesModel>)
    ensures input.None? ==> r == []
    ensures input.Some? ==> (|r| == 1 &&
      r[0].ersVersion == input.value.ersVersion.GetOr("") && r[0].health == input.value.health.GetOr("") &&
      r[0].hostname == input.value.hostname.GetOr("") && r[0].ipAddress == input.value.ipAddress.GetOr("") &&
      r[0].instanceNo == input.value.instanceNo.GetOr("") && r[0].kernelPatch == input.value.kernelPatch.GetOr("") &&
      r[0].kernelVersion == input.value.kernelVersion.GetOr(""))
  {
    match input
    case None => []
    case Some(p) =>
      [EnqueueReplicationServerPropertiesModel(
        ersVersion := p.ersVersion.GetOr(""), health := p.health.GetOr(""), hostname := p.hostname.GetOr(""),
        ipAddress := p.ipAddress.GetOr(""), instanceNo := p.instanceNo.GetOr(""),
        kernelPatch := p.kernelPatch.GetOr(""), kernelVersion := p.kernelVersion.GetOr(""))]
  }

  function FlattenEnqueueServerProperties(input: Option<EnqueueServerProperties>): (r: seq<EnqueueServerPropertiesModel>)
    ensures input.None? ==> r == []
    ensures input.Some? ==> (|r| == 1 &&
      r[0].health == input.value.health.GetOr("") && r[0].hostname == input.value.hostname.GetOr("") &&
      r[0].ipAddress == input.value.ipAddress.GetOr("") && r[0].port == input.value.port.GetOr(0))
  {
    match input
    case None => []
    case Some(p) =>
      [EnqueueServerPropertiesModel(
        health := p.health.GetOr(""), hostname := p.hostname.GetOr(""), ipAddress := p.ipAddress.GetOr(""),
        port := p.port.GetOr(0))]
  }

  function FlattenErrorDefinition(input: Option<ErrorDefinition>): (r: seq<ErrorDefinitionModel>)
    ensures input.None? ==> r == []
    ensures input.Some? ==>
      |r| == 1 && r[0].code == input.value.code.GetOr("") && r[0].message == input.value.message.GetOr("")
  {
    match input
    case None => []
    case Some(d) => [ErrorDefinitionModel(code := d.code.GetOr(""), message := d.message.GetOr(""))]
  }

  function FlattenSapVirtualInstanceError(input: Option<SapVirtualInstanceError>): (r: seq<SapVirtualInstanceErrorModel>)
    ensures input.None? ==> r == []
    ensures input.Some? ==> |r| == 1 && r[0].properties == FlattenErrorDefinition(input.value.properties)
    ensures input.Some? ==> |r[0].properties| <= 1
  {
    match input
    case None => []
    case Some(e) => [SapVirtualInstanceErrorModel(properties := FlattenErrorDefinition(e.properties))]
  }

  function FlattenGatewayServerProperties(input: Option<GatewayServerProperties>): (r: seq<GatewayServerPropertiesModel>)
    ensures input.None? ==> r == []
    ensures input.Some? ==>
      |r| == 1 && r[0].health == input.value.health.GetOr("") && r[0].port == input.value.port.GetOr(0)
  {
    match input
    case None => []
    case Some(p) => [GatewayServerPropertiesModel(health := p.health.GetOr(""), port := p.port.GetOr(0))]
  }

  function FlattenLoadBalancerDetails(input: Option<LoadBalancerDetails>): (r: seq<LoadBalancerDetailsModel>)
    ensures input.None? ==> r == []
    ensures input.Some? ==> |r| == 1 && r[0].id == input.value.id.GetOr("")
  {
    match input
    case None => []
    case Some(d) => [LoadBalancerDetailsModel(id := d.id.GetOr(""))]
  }

  function FlattenMessageServerProperties(input: Option<MessageServerProperties>): (r: seq<MessageServerPropertiesModel>)
    ensures input.None? ==> r == []
    ensures input.Some? ==> (|r| == 1 &&
      r[0].httpPort == input.value.httpPort.GetOr(0) && r[0].httpsPort == input.value.httpsPort.GetOr(0) &&
      r[0].health == input.value.health.GetOr("") && r[0].hostname == input.value.hostname.GetOr("") &&
      r[0].ipAddress == input.value.ipAddress.GetOr("") &&
      r[0].internalMsPort == input.value.internalMsPort.GetOr(0) && r[0].msPort == input.value.msPort.GetOr(0))
  {
    match input
    case None => []
    case Some(p) =>
      [MessageServerPropertiesModel(
        httpPort := p.httpPort.GetOr(0), httpsPort := p.httpsPort.GetOr(0), health := p.health.GetOr(""),
        hostname := p.hostname.GetOr(""), ipAddress := p.ipAddress.GetOr(""),
        internalMsPort := p.internalMsPort.GetOr(0), msPort := p.msPort.GetOr(0))]
  }

  // ---------------------------------------------------------------------------
  // The SDK values that carry every field of a model block, and the round trips
  // ---------------------------------------------------------------------------

  function EnqueueReplicationServerPropertiesOf(m: EnqueueReplicationServerPropertiesModel): EnqueueReplicationServerProperties
  {
    EnqueueReplicationServerProperties(
      Some(m.ersVersion), Some(m.health), Some(m.hostname), Some(m.ipAddress),
      Some(m.instanceNo), Some(m.kernelPatch), Some(m.kernelVersion))
  }

  function EnqueueServerPropertiesOf(m: EnqueueServerPropertiesModel): EnqueueServerProperties
  {
    EnqueueServerProperties(Some(m.health), Some(m.hostname), Some(m.ipAddress), Some(m.port))
  }

  function GatewayServerPropertiesOf(m: GatewayServerPropertiesModel): GatewayServerProperties
  {
    GatewayServerProperties(Some(m.health), Some(m.port))
  }

  function MessageServerPropertiesOf(m: MessageServerPropertiesModel): MessageServerProperties
  {
    MessageServerProperties(
      Some(m.httpPort), Some(m.httpsPort), Some(m.health), Some(m.hostname), Some(m.ipAddress),
      Some(m.internalMsPort), Some(m.msPort))
  }

  /** The single-object flattens lose nothing a model block can hold. */
  lemma SingleObjectRoundTrips(
    ers: EnqueueReplicationServerPropertiesModel, es: EnqueueServerPropertiesModel,
    error: ErrorDefinitionModel, gateway: GatewayServerPropertiesModel,
    loadBalancer: LoadBalancerDetailsModel, messageServer: MessageServerPropertiesModel)
    ensures FlattenEnqueueReplicationServerProperties(Some(EnqueueReplicationServerPropertiesOf(ers))) == [ers]
    ensures FlattenEnqueueServerProperties(Some(EnqueueServerPropertiesOf(es))) == [es]
    ensures FlattenSapVirtualInstanceError(Some(SapVirtualInstanceError(Some(ErrorDefinition(Some(error.code), Some(error.message)))))) ==
      [SapVirtualInstanceErrorModel([error])]
    ensures FlattenGatewayServerProperties(Some(GatewayServerPropertiesOf(gateway))) == [gateway]
    ensures FlattenLoadBalancerDetails(Some(LoadBalancerDetails(Some(loadBalancer.id)))) == [loadBalancer]
    ensures FlattenMessageServerProperties(Some(MessageServerPropertiesOf(messageServer))) == [messageServer]
  {
  }

  // ---------------------------------------------------------------------------
  // Array flattens
  // ---------------------------------------------------------------------------

  function StorageInformationModelOf(s: StorageInformation): (m: StorageInformationModel)
    ensures m.id == s.id.GetOr("")
  {
    StorageInformationModel(id := s.id.GetOr(""))
  }

  /** What `flattenStorageInformationModelArray` computes: nil gives an empty list, else one block per element, in order. */
  function StorageInformationModels(inputList: Option<seq<StorageInformation>>): (r: seq<StorageInformationModel>)
    ensures inputList.None? ==> r == []
    ensures inputList.Some? ==> (|r| == |inputList.value| &&
      forall i :: 0 <= i < |r| ==> r[i] == StorageInformationModelOf(inputList.value[i]))
  {
    match inputList
    case None => []
    case Some(v) => seq(|v|, i requires 0 <= i < |v| => StorageInformationModelOf(v[i]))
  }

  /** `flattenStorageInformationModelArray`. */
  method FlattenStorageInformationArray(inputList: Option<seq<StorageInformation>>)
    returns (outputList: seq<StorageInformationModel>)
    ensures outputList == StorageInformationModels(inputList)
  {
    outputList := [];
    if inputList.None? {
      return;
    }
    var items := inputList.value;
    var i := 0;
    while i < |items|
      invariant 0 <= i <= |items|
      invariant |outputList| == i
      invariant forall j :: 0 <= j < i ==> outputList[j] == StorageInformationModelOf(items[j])
    {
      var input := items[i];
      var output := StorageInformationModel(id := "");
      if input.id.Some? {
        output := output.(id := input.id.value);
      }
      outputList := outputList + [output];
      i := i + 1;
    }
  }

  function CentralServerVmDetailsModelOf(d: CentralServerVmDetails): (m: CentralServerVmDetailsModel)
    ensures m.storageDetails == StorageInformationModels(d.storageDetails)
    ensures m.vmType == d.vmType.GetOr("") && m.virtualMachineId == d.virtualMachineId.GetOr("")
  {
    CentralServerVmDetailsModel(
      storageDetails := StorageInformationModels(d.storageDetails),
      vmType := d.vmType.GetOr(""), virtualMachineId := d.virtualMachineId.GetOr(""))
  }

  /** What `flattenCentralServerVMDetailsModelArray` computes: one block per element, in order. */
  function CentralServerVmDetailsModels(inputList: Option<seq<CentralServerVmDetails>>)
    : (r: seq<CentralServerVmDetailsModel>)
    ensures inputList.None? ==> r == []
    ensures inputList.Some? ==> (|r| == |inputList.value| &&
      forall i :: 0 <= i < |r| ==> r[i] == CentralServerVmDetailsModelOf(inputList.value[i]))
  {
    match inputList
    case None => []
    case Some(v) => seq(|v|, i requires 0 <= i < |v| => CentralServerVmDetailsModelOf(v[i]))
  }

  /** `flattenCentralServerVMDetailsModelArray`: each block's storage details are the storage flatten of the same element. */
  method FlattenCentralServerVmDetailsArray(inputList: Option<seq<CentralServerVmDetails>>)
    returns (outputList: seq<CentralServerVmDetailsModel>)
    ensures outputList == CentralServerVmDetailsModels(inputList)
  {
    outputList := [];
    if inputList.None? {
      return;
    }
    var items := inputList.value;
    var i := 0;
    while i < |items|
      invariant 0 <= i <= |items|
      invariant |outputList| == i
      invariant forall j :: 0 <= j < i ==> outputList[j] == CentralServerVmDetailsModelOf(items[j])
    {
      var input := items[i];
      var storageDetails := FlattenStorageInformationArray(input.storageDetails);
      var output := CentralServerVmDetailsModel(storageDetails := storageDetails, vmType := "", virtualMachineId := "");
      if input.vmType.Some? {
        output := output.(vmType := input.vmType.value);
      }
      if input.virtualMachineId.Some? {
        output := output.(virtualMachineId := input.virtualMachineId.value);
      }
      outputList := outputList + [output];
      i := i + 1;
    }
  }

  function StorageInformationOf(m: StorageInformationModel): StorageInformation
  {
    StorageInformation(id := Some(m.id))
  }

  function CentralServerVmDetailsOf(m: CentralServerVmDetailsModel): CentralServerVmDetails
  {
    CentralServerVmDetails(
      storageDetails := Some(seq(|m.storageDetails|, i requires 0 <= i < |m.storageDetails| => StorageInformationOf(m.storageDetails[i]))),
      vmType := Some(m.vmType), virtualMachineId := Some(m.virtualMachineId))
  }

  /** The storage flatten loses nothing a list of model blocks can hold. */
  lemma StorageInformationRoundTrip(models: seq<StorageInformationModel>)
    ensures StorageInformationModels(Some(seq(|models|, i requires 0 <= i < |models| => StorageInformationOf(models[i])))) == models
  {
  }

  /** The VM-details flatten loses nothing a list of model blocks can hold. */
  lemma CentralServerVmDetailsRoundTrip(models: seq<CentralServerVmDetailsModel>)
    ensures CentralServerVmDetailsModels(Some(seq(|models|, i requires 0 <= i < |models| => CentralServerVmDetailsOf(models[i])))) == models
  {
    var api := seq(|models|, i requires 0 <= i < |models| => CentralServerVmDetailsOf(models[i]));
    forall i | 0 <= i < |models|
      ensures CentralServerVmDetailsModelOf(api[i]) == models[i]
    {
      StorageInformationRoundTrip(models[i].storageDetails);
    }
  }
}
