/**
 * The flatten helpers of `azurerm_workloads_sap_database_instance`:
 * the error and load-balancer flattens (nil gives an empty list, a value gives
 * one block with absent fields as `""`), for the two array flattens, which
 * append in a loop, a method each proved against a specification function, and
 * the part of `Read` that copies the service's properties into the state.
 */
module SapDatabaseInstance {
  import opened Wrappers

  datatype ErrorDefinitionModel = ErrorDefinitionModel(code: string, message: string)

  datatype SapVirtualInstanceErrorModel = SapVirtualInstanceErrorModel(properties: seq<ErrorDefinitionModel>)

  datatype LoadBalancerDetailsModel = LoadBalancerDetailsModel(id: string)

  datatype StorageInformationModel = StorageInformationModel(id: string)

  datatype DatabaseVmDetailsModel = DatabaseVmDetailsModel(
    storageDetails: seq<StorageInformationModel>, status: string, virtualMachineId: string)

  /** The nested `details` of an error definition are not read by the flatten. */
  datatype ErrorDefinition = ErrorDefinition(code: Option<string>, message: Option<string>)

  datatype SapVirtualInstanceError = SapVirtualInstanceError(properties: Option<ErrorDefinition>)

  datatype LoadBalancerDetails = LoadBalancerDetails(id: Option<string>)

  datatype StorageInformation = StorageInformation(id: Option<string>)

  datatype DatabaseVmDetails = DatabaseVmDetails(
    storageDetails: Option<seq<StorageInformation>>, status: Option<string>, virtualMachineId: Option<string>)

  // ---------------------------------------------------------------------------
  // Single-object flattens
  // ---------------------------------------------------------------------------

  function FlattenErrorDefinition(input: Option<ErrorDefinition>): (r: seq<ErrorDefinitionModel>)
    ensures input.None? ==> r == []
    ensures input.Some? ==>
      |r| == 1 && r[0].code == input.value.code.GetOr("") && r[0].message == input.value.message.GetOr("")
  {
    match input
    case None => []
    case Some(d) => [ErrorDefinitionModel(code := d.code.GetOr(""), message := d.message.GetOr(""))]
  }

  function FlattenSapVirtualInstanceError(input: Option<SapVirtualInstanceError>): (r: seq<SapVirtualInstanceErrorModel>)
    ensures input.None? ==> r == []
    ensures input.Some? ==> |r| == 1 && r[0].properties == FlattenErrorDefinition(input.value.properties)
    ensures input.Some? ==> |r[0].properties| <= 1
  {
    match input
    case None => []
    case Some(e) => [SapVirtualInstanceErrorModel(properties := FlattenErrorDefinition(e.properties))]
  }

  function FlattenLoadBalancerDetails(input: Option<LoadBalancerDetails>): (r: seq<LoadBalancerDetailsModel>)
    ensures input.None? ==> r == []
    ensures input.Some? ==> |r| == 1 && r[0].id == input.value.id.GetOr("")
  {
    match input
    case None => []
    case Some(d) => [LoadBalancerDetailsModel(id := d.id.GetOr(""))]
  }

  /** The single-object flattens lose nothing a model block can hold. */
  lemma SingleObjectRoundTrips(error: ErrorDefinitionModel, loadBalancer: LoadBalancerDetailsModel)
    ensures FlattenSapVirtualInstanceError(Some(SapVirtualInstanceError(Some(ErrorDefinition(Some(error.code), Some(error.message)))))) ==
      [SapVirtualInstanceErrorModel([error])]
    ensures FlattenLoadBalancerDetails(Some(LoadBalancerDetails(Some(loadBalancer.id)))) == [loadBalancer]
  {
  }

  // ---------------------------------------------------------------------------
  // Array flattens
  // ---------------------------------------------------------------------------

  function StorageInformationModelOf(s: StorageInformation): (m: StorageInformationModel)
    ensures m.id == s.id.GetOr("")
  {
    StorageInformationModel(id := s.id.GetOr(""))
  }

  /** What `flattenStorageInformationModelArray` computes: nil gives an empty list, else one block per element, in order. */
  function StorageInformationModels(inputList: Option<seq<StorageInformation>>): (r: seq<StorageInformationModel>)
    ensures inputList.None? ==> r == []
    ensures inputList.Some? ==> (|r| == |inputList.value| &&
      forall i :: 0 <= i < |r| ==> r[i] == StorageInformationModelOf(inputList.value[i]))
  {
    match inputList
    case None => []
    case Some(v) => seq(|v|, i requires 0 <= i < |v| => StorageInformationModelOf(v[i]))
  }

  /** `flattenStorageInformationModelArray`. */
  method FlattenStorageInformationArray(inputList: Option<seq<StorageInformation>>)
    returns (outputList: seq<StorageInformationModel>)
    ensures outputList == StorageInformationModels(inputList)
  {
    outputList := [];
    if inputList.None? {
      return;
    }
    var items := inputList.value;
    var i := 0;
    while i < |items|
      invariant 0 <= i <= |items|
      invariant |outputList| == i
      invariant forall j :: 0 <= j < i ==> outputList[j] == StorageInformationModelOf(items[j])
    {
      var input := items[i];
      var output := StorageInformationModel(id := "");
      if input.id.Some? {
        output := output.(id := input.id.value);
      }
      outputList := outputList + [output];
      i := i + 1;
    }
  }

  function DatabaseVmDetailsModelOf(d: DatabaseVmDetails): (m: DatabaseVmDetailsModel)
    ensures m.storageDetails == StorageInformationModels(d.storageDetails)
    ensures m.status == d.status.GetOr("") && m.virtualMachineId == d.virtualMachineId.GetOr("")
  {
    DatabaseVmDetailsModel(
      storageDetails := StorageInformationModels(d.storageDetails),
      status := d.status.GetOr(""), virtualMachineId := d.virtualMachineId.GetOr(""))
  }

  /** What `flattenDatabaseVMDetailsModelArray` computes: one block per element, in order. */
  function DatabaseVmDetailsModels(inputList: Option<seq<DatabaseVmDetails>>)
    : (r: seq<DatabaseVmDetailsModel>)
    ensures inputList.None? ==> r == []
    ensures inputList.Some? ==> (|r| == |inputList.value| &&
      forall i :: 0 <= i < |r| ==> r[i] == DatabaseVmDetailsModelOf(inputList.value[i]))
  {
    match inputList
    case None => []
    case Some(v) => seq(|v|, i requires 0 <= i < |v| => DatabaseVmDetailsModelOf(v[i]))
  }

  /** `flattenDatabaseVMDetailsModelArray`. */
  method FlattenDatabaseVmDetailsArray(inputList: Option<seq<DatabaseVmDetails>>)
    returns (outputList: seq<DatabaseVmDetailsModel>)
    ensures outputList == DatabaseVmDetailsModels(inputList)
  {
    outputList := [];
    if inputList.None? {
      return;
    }
    var items := inputList.value;
    var i := 0;
    while i < |items|
      invariant 0 <= i <= |items|
      invariant |outputList| == i
      invariant forall j :: 0 <= j < i ==> outputList[j] == DatabaseVmDetailsModelOf(items[j])
    {
      var input := items[i];
      var storageDetails := FlattenStorageInformationArray(input.storageDetails);
      var output := DatabaseVmDetailsModel(storageDetails := storageDetails, status := "", virtualMachineId := "");
      if input.status.Some? {
        output := output.(status := input.status.value);
      }
      if input.virtualMachineId.Some? {
        output := output.(virtualMachineId := input.virtualMachineId.value);
      }
      outputList := outputList + [output];
      i := i + 1;
    }
  }

  function StorageInformationOf(m: StorageInformationModel): StorageInformation
  {
    StorageInformation(id := Some(m.id))
  }

  function DatabaseVmDetailsOf(m: DatabaseVmDetailsModel): DatabaseVmDetails
  {
    DatabaseVmDetails(
      storageDetails := Some(seq(|m.storageDetails|, i requires 0 <= i < |m.storageDetails| => StorageInformationOf(m.storageDetails[i]))),
      status := Some(m.status), virtualMachineId := Some(m.virtualMachineId))
  }

  /** The storage flatten loses nothing a list of model blocks can hold. */
  lemma StorageInformationRoundTrip(models: seq<StorageInformationModel>)
    ensures StorageInformationModels(Some(seq(|models|, i requires 0 <= i < |models| => StorageInformationOf(models[i])))) == models
  {
  }

  /** The VM-details flatten loses nothing a list of model blocks can hold. */
  lemma DatabaseVmDetailsRoundTrip(models: seq<DatabaseVmDetailsModel>)
    ensures DatabaseVmDetailsModels(Some(seq(|models|, i requires 0 <= i < |models| => DatabaseVmDetailsOf(models[i])))) == models
  {
    var api := seq(|models|, i requires 0 <= i < |models| => DatabaseVmDetailsOf(models[i]));
    forall i | 0 <= i < |models|
      ensures DatabaseVmDetailsModelOf(api[i]) == models[i]
    {
      StorageInformationRoundTrip(models[i].storageDetails);
    }
  }

  // ---------------------------------------------------------------------------
  // Read
  // ---------------------------------------------------------------------------

  /** The properties of a database instance as the service returns them. */
  datatype DatabaseProperties = DatabaseProperties(
    databaseSid: Option<string>, databaseType: Option<string>, errors: Option<SapVirtualInstanceError>,
    ipAddress: Option<string>, loadBalancerDetails: Option<LoadBalancerDetails>, status: Option<string>,
    subnet: Option<string>, vmDetails: Option<seq<DatabaseVmDetails>>)

  /** The fields of the Terraform state that `Read` fills from the properties and the tags. */
  datatype DatabaseInstanceState = DatabaseInstanceState(
    databaseSid: string, databaseType: string, errors: seq<SapVirtualInstanceErrorModel>, ipAddress: string,
    loadBalancerDetails: seq<LoadBalancerDetailsModel>, status: string, subnet: string,
    vmDetails: seq<DatabaseVmDetailsModel>, tags: map<string, string>)

  /**
   * The part of `Read` that copies the properties: each optional string is copied
   * when present and left `""` when absent, and the nested blocks are flattened.
   */
  method ReadProperties(p: DatabaseProperties) returns (state: DatabaseInstanceState)
    ensures state.tags == map[]
    ensures state.databaseSid == p.databaseSid.GetOr("") && state.databaseType == p.databaseType.GetOr("")
    ensures state.ipAddress == p.ipAddress.GetOr("") && state.status == p.status.GetOr("")
    ensures state.subnet == p.subnet.GetOr("")
    ensures state.errors == FlattenSapVirtualInstanceError(p.errors)
    ensures state.loadBalancerDetails == FlattenLoadBalancerDetails(p.loadBalancerDetails)
    ensures state.vmDetails == DatabaseVmDetailsModels(p.vmDetails)
  {
    state := DatabaseInstanceState("", "", [], "", [], "", "", [], map[]);
    if p.databaseSid.Some? {
      state := state.(databaseSid := p.databaseSid.value);
    }
    if p.databaseType.Some? {
      state := state.(databaseType := p.databaseType.value);
    }
    state := state.(errors := FlattenSapVirtualInstanceError(p.errors));
    if p.ipAddress.Some? {
      state := state.(ipAddress := p.ipAddress.value);
    }
    state := state.(loadBalancerDetails := FlattenLoadBalancerDetails(p.loadBalancerDetails));
    if p.status.Some? {
      state := state.(status := p.status.value);
    }
    if p.subnet.Some? {
      state := state.(subnet := p.subnet.value);
    }
    var vmDetails := FlattenDatabaseVmDetailsArray(p.vmDetails);
    state := state.(vmDetails := vmDetails);
  }

  /**
   * `Read`: with no properties every field keeps its zero value; otherwise the
   * properties are copied as `ReadProperties` states. Tags are copied when present.
   */
  method ReadState(properties: Option<DatabaseProperties>, tags: Option<map<string, string>>)
    returns (state: DatabaseInstanceState)
    ensures state.tags == tags.GetOr(map[])
    ensures properties.None? ==>
      state == DatabaseInstanceState("", "", [], "", [], "", "", [], tags.GetOr(map[]))
    ensures properties.Some? ==> (
      var p := properties.value;
      state.databaseSid == p.databaseSid.GetOr("") && state.databaseType == p.databaseType.GetOr("") &&
      state.ipAddress == p.ipAddress.GetOr("") && state.status == p.status.GetOr("") &&
      state.subnet == p.subnet.GetOr("") &&
      state.errors == FlattenSapVirtualInstanceError(p.errors) &&
      state.loadBalancerDetails == FlattenLoadBalancerDetails(p.loadBalancerDetails) &&
      state.vmDetails == DatabaseVmDetailsModels(p.vmDetails))
  {
    state := DatabaseInstanceState("", "", [], "", [], "", "", [], map[]);
    if properties.Some? {
      state := ReadProperties(properties.value);
    }
    if tags.Some? {
      state := state.(tags := tags.value);
    }
  }
}
