# Kubernetes configuration and SAP workloads translation layers

This project models the translation layers of two service packages of the
Terraform AzureRM provider. Each layer converts between the Terraform model of a
resource and the value the Azure SDK sends or receives.

- **Kubernetes configuration.**
  - `azurerm_kubernetes_flux_configuration`: its argument validators, the
    choice of cluster resource provider, the request `Create` builds, the
    properties `Update` rewrites, and every expand/flatten helper. The secrets
    sent as base64 settings are included.
  - The argument validators, custom diff check and helm/compliance flattens of
    `azurerm_kubernetes_configuration_source_control`.
  - The `SourceControlId` resource ID: its constructor, `ID()`, `String()` and
    parser.
- **SAP workloads.** The expand/flatten helpers of
  `azurerm_workloads_sap_virtual_instance`, `_sap_central_instance`,
  `_sap_application_server_instance`, `_sap_database_instance`,
  `_sap_landscape_monitor`, `_monitor` and `_provider_instance`. Also modelled:
  the enum validators of these resources, the properties the monitor's `Create`
  sends, and the state the database instance's `Read` builds.

How Go values are represented:

- A Go pointer is an `Option`; a nil slice is `[]`.
- A `(value, error)` pair is a `Result`.
- A Go string holding bytes is a `seq<byte>` (module `GoBytes`).
- Base64 is Go's `StdEncoding`, the padded alphabet of section 4 of RFC 4648
  (module `Base64`).
- A flatten that meets an absent field writes the field's Go zero value.

Modules, one per source file (`Wrappers`, `GoBytes` and `Base64` are shared
helpers):

| module | file |
|---|---|
| `FluxConfiguration` | kubernetes_configuration_flux_configuration_resource.go |
| `SourceControl` | kubernetes_configuration_source_control_resource.go |
| `SourceControlId` | parse/kubernetes_configuration_source_control.go |
| `SapVirtualInstance` | workloads_sap_virtual_instance_resource.go |
| `SapCentralInstance` | workloads_sap_central_instance_resource.go |
| `SapApplicationServerInstance` | workloads_sap_application_server_instance_resource.go |
| `SapDatabaseInstance` | workloads_sap_database_instance_resource.go |
| `SapLandscapeMonitor` | workloads_sap_landscape_monitor_resource.go |
| `WorkloadsMonitor` | workloads_monitor_resource.go |
| `ProviderInstance` | workloads_provider_instance_resource.go |

The flatten helpers that loop over an SDK array become methods with loop
invariants. Each such method is proved equal to a reference function on the
input sequence. Round-trip lemmas then relate each flatten to its expand, or to
the SDK value built from a model.

The source control ID is meant to parse back to its fields: a resource's
`Read` parses the ID that its `Create` stored with `ID()`. The parser as
written looks for a `clusterResource1` segment, which `ID()` never writes, so
it rejects every rendered ID. The model follows the code and records this
under Findings.

## Model

| member | source | states |
|---|---|---|
| Base64.Decode | internal/services/kubernetesconfiguration/kubernetes_configuration_flux_configuration_resource.go:926-931 | `StdEncoding.DecodeString`: line breaks are dropped, then the text must be whole 4-character quanta of the standard alphabet with padding only at the end |
| Base64.Encode | internal/services/kubernetesconfiguration/kubernetes_configuration_flux_configuration_resource.go:737 | the encoding is a whole number of 4-character quanta, `(n+2)/3*4` characters for `n` bytes |
| Base64.EncodeAlphabet | internal/services/kubernetesconfiguration/kubernetes_configuration_flux_configuration_resource.go:760 | every character of an encoding is in the standard alphabet or is the `=` pad |
| Base64.DecodeEncode | internal/services/kubernetesconfiguration/kubernetes_configuration_flux_configuration_resource.go:926 | decoding an encoding gives back exactly the original bytes, with no error |
| Base64.DecodeQuantaEncode | internal/services/kubernetesconfiguration/kubernetes_configuration_flux_configuration_resource.go:950 | the quantum-by-quantum decoder inverts the encoder, final padded quantum included |
| Base64.DecodeSkipsLineBreak | internal/services/kubernetesconfiguration/kubernetes_configuration_flux_configuration_resource.go:926 | like Go's decoder, a CR or LF anywhere in the input does not change the result |
| Base64.DecodeRejectsPartialQuantum | internal/services/kubernetesconfiguration/kubernetes_configuration_flux_configuration_resource.go:926 | input whose length, line breaks removed, is not a multiple of 4 is rejected |
| FluxConfiguration.LabelPatternCharacterization | internal/services/kubernetesconfiguration/kubernetes_configuration_flux_configuration_resource.go:100-101 | the `^[a-z\d]([-a-z\d]{0,n}[a-z\d])?$` pattern holds iff the length is 1..n+2, every character is a lower-case letter, digit or hyphen, and neither end is a hyphen |
| FluxConfiguration.ValidFluxName | internal/services/kubernetesconfiguration/kubernetes_configuration_flux_configuration_resource.go:100-101 | `name` and a kustomization `name` match the label pattern with at most 28 middle characters, so 1 to 30 characters |
| FluxConfiguration.ValidLongLabel | internal/services/kubernetesconfiguration/kubernetes_configuration_flux_configuration_resource.go:206-207 | `bucket_name`, both `local_auth_ref`s and `namespace` match the label pattern with at most 61 middle characters, so 1 to 63 characters |
| FluxConfiguration.ValidInterval | internal/services/kubernetesconfiguration/kubernetes_configuration_flux_configuration_resource.go:150-164 | timeout, sync and retry intervals lie in 1..35791394, both ends included |
| FluxConfiguration.ValidGitUrl | internal/services/kubernetesconfiguration/kubernetes_configuration_flux_configuration_resource.go:277-281 | the git `url` starts with `http://`, `https://`, `git@` or `ssh://` followed by at least one character other than a line feed |
| FluxConfiguration.ValidKustomization | internal/services/kubernetesconfiguration/kubernetes_configuration_flux_configuration_resource.go:131-165 | the validators of one `kustomizations` element: a valid name and the timeout, sync and retry intervals each valid |
| FluxConfiguration.ValidKustomizationCharacterization | internal/services/kubernetesconfiguration/kubernetes_configuration_flux_configuration_resource.go:131-165 | an element is valid iff its name has 1..30 lower-case letters, digits and hyphens with no hyphen at either end, and the three intervals lie in 1..35791394 |
| FluxConfiguration.ValidClusterResourceName | internal/services/kubernetesconfiguration/kubernetes_configuration_flux_configuration_resource.go:112-114 | only `managedClusters` is accepted, case-sensitively |
| FluxConfiguration.ValidScope | internal/services/kubernetesconfiguration/kubernetes_configuration_flux_configuration_resource.go:400-403 | only `namespace` and `cluster` are accepted, case-sensitively |
| FluxConfiguration.SelectClusterRp | internal/services/kubernetesconfiguration/kubernetes_configuration_flux_configuration_resource.go:431-436 | Create succeeds iff the cluster resource name is `managedClusters`, and then picks `Microsoft.ContainerService`; otherwise the error names the value |
| FluxConfiguration.ValidClusterResourceNameSelects | internal/services/kubernetesconfiguration/kubernetes_configuration_flux_configuration_resource.go:112-115 | every name the schema accepts selects a resource provider |
| FluxConfiguration.OmitEmpty | internal/services/kubernetesconfiguration/kubernetes_configuration_flux_configuration_resource.go:485-487 | an optional string is sent iff it is non-empty, and its value is the input |
| FluxConfiguration.EncodeNonEmpty | internal/services/kubernetesconfiguration/kubernetes_configuration_flux_configuration_resource.go:759-762 | a string is sent iff it is non-empty, and what is sent decodes back to it |
| FluxConfiguration.ExpandKustomization | internal/services/kubernetesconfiguration/kubernetes_configuration_flux_configuration_resource.go:686-699 | `path` is sent iff non-empty and holds the input; name, dependencies, force, prune and the three intervals are always sent with the block's values |
| FluxConfiguration.FlattenKustomization | internal/services/kubernetesconfiguration/kubernetes_configuration_flux_configuration_resource.go:837-867 | each absent field of a definition becomes its zero value, a present one is copied |
| FluxConfiguration.FlattenExpandKustomization | internal/services/kubernetesconfiguration/kubernetes_configuration_flux_configuration_resource.go:679-705 | flattening an expanded kustomization gives back every field of the block |
| FluxConfiguration.KustomizationMapKeys | internal/services/kubernetesconfiguration/kubernetes_configuration_flux_configuration_resource.go:685-702 | the map's keys are exactly the blocks' names |
| FluxConfiguration.KustomizationMapLastWins | internal/services/kubernetesconfiguration/kubernetes_configuration_flux_configuration_resource.go:685-702 | a name maps to the expansion of the last block carrying it |
| FluxConfiguration.ExpandKustomizations | internal/services/kubernetesconfiguration/kubernetes_configuration_flux_configuration_resource.go:679-705 | an empty list gives nil; otherwise the loop builds the map keyed by block name, a later duplicate name overwriting an earlier one |
| FluxConfiguration.DistinctCardinality | internal/services/kubernetesconfiguration/kubernetes_configuration_flux_configuration_resource.go:827-872 | helper of `FlattenKustomizations` and `RoundTripLength`, not a model of these lines: a duplicate-free list has as many elements as its set |
| FluxConfiguration.FlattenKustomizations | internal/services/kubernetesconfiguration/kubernetes_configuration_flux_configuration_resource.go:827-872 | nil gives `[]`; otherwise one block per map entry, in map iteration order, each the flatten of its definition |
| FluxConfiguration.RoundTripKeepsElements | internal/services/kubernetesconfiguration/kubernetes_configuration_flux_configuration_resource.go:827-872 | with distinct names, every block that was expanded is flattened back |
| FluxConfiguration.RoundTripAddsNothing | internal/services/kubernetesconfiguration/kubernetes_configuration_flux_configuration_resource.go:827-872 | with distinct names, every block flattened back was in the input |
| FluxConfiguration.RoundTripLength | internal/services/kubernetesconfiguration/kubernetes_configuration_flux_configuration_resource.go:827-872 | with distinct names, the round trip keeps the number of blocks |
| FluxConfiguration.KustomizationsRoundTrip | internal/services/kubernetesconfiguration/kubernetes_configuration_flux_configuration_resource.go:679-705 | the whole kustomization list survives expand then flatten up to order |
| FluxConfiguration.ExpandRepositoryRef | internal/services/kubernetesconfiguration/kubernetes_configuration_flux_configuration_resource.go:800-825 | nil iff the list is empty; otherwise each of the first block's branch, commit, semver and tag is sent iff non-empty, with its value |
| FluxConfiguration.FlattenRepositoryRef | internal/services/kubernetesconfiguration/kubernetes_configuration_flux_configuration_resource.go:978-1003 | nil gives no block, a value gives exactly one |
| FluxConfiguration.RepositoryRefRoundTrip | internal/services/kubernetesconfiguration/kubernetes_configuration_flux_configuration_resource.go:800-825 | expand then flatten keeps the first block and drops the rest |
| FluxConfiguration.ExpandBucket | internal/services/kubernetesconfiguration/kubernetes_configuration_flux_configuration_resource.go:707-746 | no definition for an empty list; access key, bucket name, local auth ref and URL are sent iff non-empty, insecure and both intervals always; the protected settings exist iff the secret key is non-empty, and then hold exactly `bucketSecretKey` decoding to the secret |
| FluxConfiguration.FlattenBucket | internal/services/kubernetesconfiguration/kubernetes_configuration_flux_configuration_resource.go:874-915 | nil gives no block; otherwise one block from the definition, with the secret key carried over from the prior state |
| FluxConfiguration.BucketRoundTrip | internal/services/kubernetesconfiguration/kubernetes_configuration_flux_configuration_resource.go:707-746 | a bucket block that is also the prior state survives expand then flatten |
| FluxConfiguration.ExpandGit | internal/services/kubernetesconfiguration/kubernetes_configuration_flux_configuration_resource.go:748-798 | a non-empty list always gives settings; `httpsCACert` and `sshKnownHosts` are sent base64-encoded iff non-empty; `httpsUser`, `localAuthRef` and `url` iff non-empty; both intervals always; the repository ref is its expand; the settings hold `httpsKey` and `sshPrivateKey` each iff non-empty, decoding to the secret |
| FluxConfiguration.FlattenGit | internal/services/kubernetesconfiguration/kubernetes_configuration_flux_configuration_resource.go:917-976 | fails iff a present CA certificate or known-hosts value is not valid base64; otherwise one block with both decoded, the HTTPS key and SSH private key carried over from the prior state |
| FluxConfiguration.GitRoundTrip | internal/services/kubernetesconfiguration/kubernetes_configuration_flux_configuration_resource.go:748-798 | a git block that is also the prior state survives expand then flatten, keeping only its first repository ref |
| FluxConfiguration.BuildCreateRequest | internal/services/kubernetesconfiguration/kubernetes_configuration_flux_configuration_resource.go:419-497 | fails iff the cluster resource name is not `managedClusters`; otherwise the request carries scope, suspend, the source kind, git or bucket with their settings, the kustomizations and a namespace only when non-empty |
| FluxConfiguration.UpdateSource | internal/services/kubernetesconfiguration/kubernetes_configuration_flux_configuration_resource.go:524-555 | bucket and git are replaced only when changed; their settings are adopted only when the new list is non-empty, git over bucket; the source kind is Bucket iff a bucket is present; every other property is kept |
| FluxConfiguration.ApplyUpdate | internal/services/kubernetesconfiguration/kubernetes_configuration_flux_configuration_resource.go:524-570 | bucket, git, kustomizations and suspend are replaced only when changed; the source kind is Bucket iff a bucket is present; git settings win over bucket settings; namespace and scope are kept |
| SourceControl.ValidSourceControlName | internal/services/kubernetesconfiguration/kubernetes_configuration_source_control_resource.go:51-55 | `name` passes all three patterns with a 30-character bound |
| SourceControl.ValidOperatorNamespace | internal/services/kubernetesconfiguration/kubernetes_configuration_source_control_resource.go:117-122 | `operator_namespace` passes all three patterns with a 63-character bound |
| SourceControl.ValidOperatorParams | internal/services/kubernetesconfiguration/kubernetes_configuration_source_control_resource.go:128-132 | `operator_params` starts with `--git-readonly` or `--git-email`; the rest is not checked |
| SourceControl.ValidOperatorScope | internal/services/kubernetesconfiguration/kubernetes_configuration_source_control_resource.go:138-141 | `operator_scope` equals `cluster` or `namespace` under Unicode simple case folding |
| SourceControl.ValidLabelCharacterization | internal/services/kubernetesconfiguration/kubernetes_configuration_source_control_resource.go:51-55 | the three patterns together accept exactly 1..max lower-case letters, digits and hyphens starting and ending alphanumeric |
| SourceControl.DefaultOperatorNamespaceIsValid | internal/services/kubernetesconfiguration/kubernetes_configuration_source_control_resource.go:117-122 | example of `ValidLabelCharacterization`: the default `default` passes the namespace validator |
| SourceControl.DefaultOperatorParamsIsValid | internal/services/kubernetesconfiguration/kubernetes_configuration_source_control_resource.go:128-132 | example of `ValidOperatorParams`: the default `--git-readonly` passes |
| SourceControl.OperatorScopeIgnoresCase | internal/services/kubernetesconfiguration/kubernetes_configuration_source_control_resource.go:138-141 | example of `ValidOperatorScope`: `CLUSTER` and `Namespace` are accepted |
| SourceControl.OperatorScopeAcceptsLongS | internal/services/kubernetesconfiguration/kubernetes_configuration_source_control_resource.go:138-141 | example of `ValidOperatorScope`: the long s `ſ` folds to `s` |
| SourceControl.OperatorScopeLength | internal/services/kubernetesconfiguration/kubernetes_configuration_source_control_resource.go:138-141 | an accepted scope has 7 or 9 characters |
| SourceControl.CheckHelmOperator | internal/services/kubernetesconfiguration/kubernetes_configuration_source_control_resource.go:186-194 | the diff fails iff helm operator properties are set while the helm operator is disabled |
| SourceControl.ExpandHelmOperatorProperties | internal/services/kubernetesconfiguration/kubernetes_configuration_source_control_resource.go:306-315 | nil iff the list is empty or its first element is nil; otherwise it sends both chart values |
| SourceControl.FlattenHelmOperatorProperties | internal/services/kubernetesconfiguration/kubernetes_configuration_source_control_resource.go:317-336 | nil gives `[]`; otherwise one block with exactly the two chart keys, absent values as `""` |
| SourceControl.HelmOperatorRoundTrip | internal/services/kubernetesconfiguration/kubernetes_configuration_source_control_resource.go:306-336 | a helm block survives expand then flatten |
| SourceControl.FlattenComplianceStatus | internal/services/kubernetesconfiguration/kubernetes_configuration_source_control_resource.go:338-367 | nil gives `[]`; otherwise one block with the state, level and message, and the last-applied time formatted as RFC 3339 or `""` |
| SourceControlId.NewSourceControlId | internal/services/kubernetesconfiguration/parse/kubernetes_configuration_source_control.go:21-30 | each field holds its argument |
| SourceControlId.Id | internal/services/kubernetesconfiguration/parse/kubernetes_configuration_source_control.go:44-47 | `ID()`: the twelve segments of the template, each after a `/`, with `Microsoft.ContainerService` and `managedClusters` fixed |
| SourceControlId.GoQuote | internal/services/kubernetesconfiguration/parse/kubernetes_configuration_source_control.go:34-38 | `%q`: the string in double quotes, with quote, backslash, the ASCII control characters and DEL escaped |
| SourceControlId.String | internal/services/kubernetesconfiguration/parse/kubernetes_configuration_source_control.go:32-42 | `String()`: the fixed prefix, then the five labelled quoted fields joined by `" / "` |
| SourceControlId.ParseSourceControlId | internal/services/kubernetesconfiguration/parse/kubernetes_configuration_source_control.go:50-81 | the parser as written, with the cluster key `clusterResource1` |
| SourceControlId.ParseSourceControlIdCorrected | internal/services/kubernetesconfiguration/parse/kubernetes_configuration_source_control.go:50-81 | the parser with the cluster key `managedClusters` that `ID()` writes |
| SourceControlId.SplitJoin | internal/services/kubernetesconfiguration/parse/kubernetes_configuration_source_control.go:44-47 | splitting a `/`-join of slash-free segments gives the segments back |
| SourceControlId.IdIgnoresClusterRpAndResourceName | internal/services/kubernetesconfiguration/parse/kubernetes_configuration_source_control.go:44-47 | `ID()` hard-codes `Microsoft.ContainerService` and `managedClusters`, ignoring those two fields |
| SourceControlId.SplitId | internal/services/kubernetesconfiguration/parse/kubernetes_configuration_source_control.go:44-47 | the path after the leading `/` splits into the twelve ID segments |
| SourceControlId.IdInjective | internal/services/kubernetesconfiguration/parse/kubernetes_configuration_source_control.go:44-47 | for slash-free fields, equal IDs have equal subscription, resource group, cluster and configuration names |
| SourceControlId.ReadGoQuote | internal/services/kubernetesconfiguration/parse/kubernetes_configuration_source_control.go:32-42 | a `%q`-quoted string reads back to the original, however the text continues |
| SourceControlId.StringOmitsSubscription | internal/services/kubernetesconfiguration/parse/kubernetes_configuration_source_control.go:32-42 | `String()` does not depend on the subscription |
| SourceControlId.StringDeterminesFields | internal/services/kubernetesconfiguration/parse/kubernetes_configuration_source_control.go:32-42 | equal `String()` outputs have equal values in all five fields it prints |
| SourceControlId.PopSegment | internal/services/kubernetesconfiguration/parse/kubernetes_configuration_source_control.go:69-74 | succeeds iff the key is in the path, returning its value and the path without it |
| SourceControlId.ValidateNoEmptySegments | internal/services/kubernetesconfiguration/parse/kubernetes_configuration_source_control.go:76-78 | passes iff no path segment is left over |
| SourceControlId.ParseWithClusterKey | internal/services/kubernetesconfiguration/parse/kubernetes_configuration_source_control.go:50-81 | a missing subscription or resource group gives its error; succeeds iff both are present and the path keys are exactly the cluster key and `sourceControlConfigurations`; the result has the cluster provider and resource name empty |
| SourceControlId.IdKeySegments | internal/services/kubernetesconfiguration/parse/kubernetes_configuration_source_control.go:44-47 | the key positions of a rendered ID hold the fixed key words and the names |
| SourceControlId.ParseRejectsRenderedIds | internal/services/kubernetesconfiguration/parse/kubernetes_configuration_source_control.go:69-71 | the parser as written rejects every path whose keys come from an `ID()` output |
| SourceControlId.ParseRejectsExampleId | internal/services/kubernetesconfiguration/parse/kubernetes_configuration_source_control.go:69-71 | example of `ParseRejectsRenderedIds`: one concrete rendered ID is rejected |
| SourceControlId.RenderedPartsAreKeySegments | internal/services/kubernetesconfiguration/parse/kubernetes_configuration_source_control.go:44-47 | the parts of a rendered ID use only keys that occur in it |
| SourceControlId.CorrectedParseRoundTrip | internal/services/kubernetesconfiguration/parse/kubernetes_configuration_source_control.go:50-81 | with `managedClusters` as the key, parsing a rendered ID succeeds, gives back every field `ID()` prints, and renders the same ID |
| SapVirtualInstance.ValidConfigurationType | internal/services/workloads/workloads_sap_virtual_instance_resource.go:97-101 | `configuration_type` is one of `Discovery`, `DeploymentWithOSConfig`, `Deployment` |
| SapVirtualInstance.ValidEnvironment | internal/services/workloads/workloads_sap_virtual_instance_resource.go:111-114 | `environment` is `NonProd` or `Prod` |
| SapVirtualInstance.ValidSapProduct | internal/services/workloads/workloads_sap_virtual_instance_resource.go:142-146 | `sap_product` is one of `ECC`, `S4HANA`, `Other` |
| SapVirtualInstance.ConfigurationTypeValidator | internal/services/workloads/workloads_sap_virtual_instance_resource.go:97-101 | accepted iff the string names an SDK configuration type |
| SapVirtualInstance.EnvironmentValidator | internal/services/workloads/workloads_sap_virtual_instance_resource.go:111-114 | accepted iff the string names an SDK environment type |
| SapVirtualInstance.SapProductValidator | internal/services/workloads/workloads_sap_virtual_instance_resource.go:142-146 | accepted iff the string names an SDK product type |
| SapVirtualInstance.EnumValidatorsAreCaseSensitive | internal/services/workloads/workloads_sap_virtual_instance_resource.go:97-146 | example of the three validators: a name in the wrong case is rejected |
| SapVirtualInstance.ExpandSapConfiguration | internal/services/workloads/workloads_sap_virtual_instance_resource.go:379-389 | nil iff the list is empty; otherwise the first block's type |
| SapVirtualInstance.ExpandManagedRgConfiguration | internal/services/workloads/workloads_sap_virtual_instance_resource.go:391-402 | nil iff the list is empty; the name is sent iff it is non-empty |
| SapVirtualInstance.FlattenSapConfiguration | internal/services/workloads/workloads_sap_virtual_instance_resource.go:404-414 | nil gives `[]`, a value one block with its type |
| SapVirtualInstance.FlattenManagedRgConfiguration | internal/services/workloads/workloads_sap_virtual_instance_resource.go:445-456 | nil gives `[]`, a value one block with the name or `""` |
| SapVirtualInstance.FlattenErrorDefinition | internal/services/workloads/workloads_sap_virtual_instance_resource.go:428-443 | nil gives `[]`, a value one block with code and message or `""` |
| SapVirtualInstance.FlattenSapVirtualInstanceError | internal/services/workloads/workloads_sap_virtual_instance_resource.go:416-426 | nil gives `[]`, a value one block wrapping at most one flattened definition |
| SapVirtualInstance.SapConfigurationRoundTrip | internal/services/workloads/workloads_sap_virtual_instance_resource.go:379-414 | a list of at most one block survives expand then flatten |
| SapVirtualInstance.SapConfigurationFlattenExpand | internal/services/workloads/workloads_sap_virtual_instance_resource.go:379-414 | an SDK value survives flatten then expand |
| SapVirtualInstance.ManagedRgConfigurationRoundTrip | internal/services/workloads/workloads_sap_virtual_instance_resource.go:391-456 | a list of at most one block survives expand then flatten, an empty name included |
| SapVirtualInstance.ManagedRgConfigurationFlattenExpand | internal/services/workloads/workloads_sap_virtual_instance_resource.go:391-456 | flatten then expand is the identity iff the service did not send the name `""` |
| SapVirtualInstance.ErrorRoundTrip | internal/services/workloads/workloads_sap_virtual_instance_resource.go:416-443 | an error carrying a model's code and message flattens to that model |
| WorkloadsMonitor.ValidRoutingPreference | internal/services/workloads/workloads_monitor_resource.go:118-121 | `routing_preference` is `Default` or `RouteAll` |
| WorkloadsMonitor.RoutingPreferenceValidator | internal/services/workloads/workloads_monitor_resource.go:114-121 | accepted iff the string names an SDK routing preference |
| WorkloadsMonitor.ExpandManagedRgConfiguration | internal/services/workloads/workloads_monitor_resource.go:379-390 | nil iff the list is empty; the name is sent iff it is non-empty |
| WorkloadsMonitor.FlattenManagedRgConfiguration | internal/services/workloads/workloads_monitor_resource.go:425-436 | nil gives `[]`, a value one block with the name or `""` |
| WorkloadsMonitor.FlattenErrorInnerError | internal/services/workloads/workloads_monitor_resource.go:415-423 | nil gives no block, a value exactly one |
| WorkloadsMonitor.FlattenError | internal/services/workloads/workloads_monitor_resource.go:392-413 | nil gives `[]`; a value gives one block with code, message and target or `""`, and one inner error iff the service sent one |
| WorkloadsMonitor.ErrorRoundTrip | internal/services/workloads/workloads_monitor_resource.go:392-423 | an error carrying a model's fields flattens to that model |
| WorkloadsMonitor.ManagedRgConfigurationRoundTrip | internal/services/workloads/workloads_monitor_resource.go:379-436 | a list of at most one block survives expand then flatten |
| WorkloadsMonitor.NonEmpty | internal/services/workloads/workloads_monitor_resource.go:202-226 | an optional string is sent iff it is non-empty, with the input as value |
| WorkloadsMonitor.CreateProperties | internal/services/workloads/workloads_monitor_resource.go:202-226 | the routing preference is always sent; each other string is sent iff non-empty and reads back as the model value; the managed RG is expanded |
| WorkloadsMonitor.CreatePropertiesInjective | internal/services/workloads/workloads_monitor_resource.go:202-226 | two models send the same properties iff they are equal |
| ProviderInstance.ValidProviderType | internal/services/workloads/workloads_provider_instance_resource.go:86-89 | `provider_type` must not be empty |
| ProviderInstance.ExpandProviderSpecificProperties | internal/services/workloads/workloads_provider_instance_resource.go:294-304 | nil iff the list is empty; otherwise the first block's provider type |
| ProviderInstance.FlattenProviderSpecificProperties | internal/services/workloads/workloads_provider_instance_resource.go:339-349 | nil gives `[]`, a value one block with its provider type |
| ProviderInstance.ProviderSpecificPropertiesRoundTrip | internal/services/workloads/workloads_provider_instance_resource.go:294-349 | a list of at most one block survives expand then flatten |
| ProviderInstance.ProviderSpecificPropertiesFlattenExpand | internal/services/workloads/workloads_provider_instance_resource.go:294-349 | an SDK value survives flatten then expand |
| ProviderInstance.FlattenErrorInnerError | internal/services/workloads/workloads_provider_instance_resource.go:329-337 | nil gives no block, a value exactly one |
| ProviderInstance.FlattenError | internal/services/workloads/workloads_provider_instance_resource.go:306-327 | nil gives `[]`; a value gives one block with code, message and target or `""`, and one inner error iff the service sent one |
| ProviderInstance.ErrorRoundTrip | internal/services/workloads/workloads_provider_instance_resource.go:306-337 | an error carrying a model's fields flattens to that model |
| SapCentralInstance.FlattenEnqueueReplicationServerProperties | internal/services/workloads/workloads_sap_central_instance_resource.go:548-583 | nil gives `[]`; a value gives one block, each absent field as its zero value |
| SapCentralInstance.FlattenEnqueueServerProperties | internal/services/workloads/workloads_sap_central_instance_resource.go:585-608 | nil gives `[]`; a value gives one block, each absent field as its zero value |
| SapCentralInstance.FlattenErrorDefinition | internal/services/workloads/workloads_sap_central_instance_resource.go:622-637 | nil gives `[]`, a value one block with code and message or `""` |
| SapCentralInstance.FlattenSapVirtualInstanceError | internal/services/workloads/workloads_sap_central_instance_resource.go:610-620 | nil gives `[]`, a value one block wrapping the flattened definition |
| SapCentralInstance.FlattenGatewayServerProperties | internal/services/workloads/workloads_sap_central_instance_resource.go:639-654 | nil gives `[]`, a value one block with port and health or zero values |
| SapCentralInstance.FlattenLoadBalancerDetails | internal/services/workloads/workloads_sap_central_instance_resource.go:656-667 | nil gives `[]`, a value one block with the ID or `""` |
| SapCentralInstance.FlattenMessageServerProperties | internal/services/workloads/workloads_sap_central_instance_resource.go:669-704 | nil gives `[]`; a value gives one block, each absent field as its zero value |
| SapCentralInstance.SingleObjectRoundTrips | internal/services/workloads/workloads_sap_central_instance_resource.go:548-704 | a fully populated SDK object built from a model block flattens back to that block, for each single-object flatten |
| SapCentralInstance.StorageInformationModels | internal/services/workloads/workloads_sap_central_instance_resource.go:728-742 | nil gives `[]`; otherwise one block per element, in order, with its ID or `""` |
| SapCentralInstance.FlattenStorageInformationArray | internal/services/workloads/workloads_sap_central_instance_resource.go:733-740 | the loop computes the reference flatten of the storage list |
| SapCentralInstance.CentralServerVmDetailsModels | internal/services/workloads/workloads_sap_central_instance_resource.go:706-726 | nil gives `[]`; otherwise one block per element, in order, each with its storage list flattened |
| SapCentralInstance.FlattenCentralServerVmDetailsArray | internal/services/workloads/workloads_sap_central_instance_resource.go:711-724 | the loop computes the reference flatten of the VM details list |
| SapCentralInstance.StorageInformationRoundTrip | internal/services/workloads/workloads_sap_central_instance_resource.go:728-742 | a storage list built from models flattens back to those models |
| SapCentralInstance.CentralServerVmDetailsRoundTrip | internal/services/workloads/workloads_sap_central_instance_resource.go:706-726 | a VM details list built from models flattens back to those models |
| SapApplicationServerInstance.FlattenErrorDefinition | internal/services/workloads/workloads_sap_application_server_instance_resource.go:434-449 | nil gives `[]`, a value one block with code and message or `""` |
| SapApplicationServerInstance.FlattenSapVirtualInstanceError | internal/services/workloads/workloads_sap_application_server_instance_resource.go:422-432 | nil gives `[]`, a value one block wrapping the flattened definition |
| SapApplicationServerInstance.FlattenLoadBalancerDetails | internal/services/workloads/workloads_sap_application_server_instance_resource.go:451-462 | nil gives `[]`, a value one block with the ID or `""` |
| SapApplicationServerInstance.SingleObjectRoundTrips | internal/services/workloads/workloads_sap_application_server_instance_resource.go:422-462 | the error and load balancer flattens lose nothing a model block holds |
| SapApplicationServerInstance.StorageInformationModels | internal/services/workloads/workloads_sap_application_server_instance_resource.go:486-500 | nil gives `[]`; otherwise one block per element, in order |
| SapApplicationServerInstance.FlattenStorageInformationArray | internal/services/workloads/workloads_sap_application_server_instance_resource.go:486-500 | the loop computes the reference flatten of the storage list |
| SapApplicationServerInstance.ApplicationServerVmDetailsModels | internal/services/workloads/workloads_sap_application_server_instance_resource.go:464-484 | nil gives `[]`; otherwise one block per element, in order, with type, VM ID and flattened storage |
| SapApplicationServerInstance.FlattenApplicationServerVmDetailsArray | internal/services/workloads/workloads_sap_application_server_instance_resource.go:464-484 | the loop computes the reference flatten of the VM details list |
| SapApplicationServerInstance.StorageInformationRoundTrip | internal/services/workloads/workloads_sap_application_server_instance_resource.go:486-500 | a storage list built from models flattens back to those models |
| SapApplicationServerInstance.ApplicationServerVmDetailsRoundTrip | internal/services/workloads/workloads_sap_application_server_instance_resource.go:464-484 | a VM details list built from models flattens back to those models |
| SapDatabaseInstance.FlattenErrorDefinition | internal/services/workloads/workloads_sap_database_instance_resource.go:374-389 | nil gives `[]`, a value one block with code and message or `""` |
| SapDatabaseInstance.FlattenSapVirtualInstanceError | internal/services/workloads/workloads_sap_database_instance_resource.go:362-372 | nil gives `[]`, a value one block wrapping the flattened definition |
| SapDatabaseInstance.FlattenLoadBalancerDetails | internal/services/workloads/workloads_sap_database_instance_resource.go:391-402 | nil gives `[]`, a value one block with the ID or `""` |
| SapDatabaseInstance.SingleObjectRoundTrips | internal/services/workloads/workloads_sap_database_instance_resource.go:362-402 | the error and load balancer flattens lose nothing a model block holds |
| SapDatabaseInstance.StorageInformationModels | internal/services/workloads/workloads_sap_database_instance_resource.go:426-440 | nil gives `[]`; otherwise one block per element, in order |
| SapDatabaseInstance.FlattenStorageInformationArray | internal/services/workloads/workloads_sap_database_instance_resource.go:426-440 | the loop computes the reference flatten of the storage list |
| SapDatabaseInstance.DatabaseVmDetailsModels | internal/services/workloads/workloads_sap_database_instance_resource.go:404-424 | nil gives `[]`; otherwise one block per element, in order, with status, VM ID and flattened storage |
| SapDatabaseInstance.FlattenDatabaseVmDetailsArray | internal/services/workloads/workloads_sap_database_instance_resource.go:404-424 | the loop computes the reference flatten of the VM details list |
| SapDatabaseInstance.StorageInformationRoundTrip | internal/services/workloads/workloads_sap_database_instance_resource.go:426-440 | a storage list built from models flattens back to those models |
| SapDatabaseInstance.DatabaseVmDetailsRoundTrip | internal/services/workloads/workloads_sap_database_instance_resource.go:404-424 | a VM details list built from models flattens back to those models |
| SapDatabaseInstance.ReadProperties | internal/services/workloads/workloads_sap_database_instance_resource.go:306-332 | each optional string is copied or `""`; the errors, load balancer and VM details are their flattens; no tags |
| SapDatabaseInstance.ReadState | internal/services/workloads/workloads_sap_database_instance_resource.go:306-337 | with no properties the state has only its tags; otherwise each optional string is copied or `""`, and the errors, load balancer and VM details are their flattens |
| SapLandscapeMonitor.SidMappingOf | internal/services/workloads/workloads_sap_landscape_monitor_resource.go:325-339 | the top SIDs are always sent; the name is sent iff non-empty |
| SapLandscapeMonitor.ExpandSidMappingArray | internal/services/workloads/workloads_sap_landscape_monitor_resource.go:325-339 | the loop expands every block, in order, and never returns nil |
| SapLandscapeMonitor.SidMappingModels | internal/services/workloads/workloads_sap_landscape_monitor_resource.go:372-390 | nil gives `[]`; otherwise one block per mapping, absent fields as zero values |
| SapLandscapeMonitor.FlattenSidMappingArray | internal/services/workloads/workloads_sap_landscape_monitor_resource.go:372-390 | the loop computes the reference flatten of the SID mappings |
| SapLandscapeMonitor.SidMappingRoundTrip | internal/services/workloads/workloads_sap_landscape_monitor_resource.go:325-390 | any SID mapping list survives expand then flatten |
| SapLandscapeMonitor.SidMappingFlattenExpand | internal/services/workloads/workloads_sap_landscape_monitor_resource.go:325-390 | SDK mappings with a non-empty name and top SIDs survive flatten then expand |
| SapLandscapeMonitor.MetricThresholdsOf | internal/services/workloads/workloads_sap_landscape_monitor_resource.go:341-357 | the three thresholds are always sent; the name is sent iff non-empty |
| SapLandscapeMonitor.ExpandMetricThresholdsArray | internal/services/workloads/workloads_sap_landscape_monitor_resource.go:341-357 | the loop expands every block, in order, and never returns nil |
| SapLandscapeMonitor.MetricThresholdsModels | internal/services/workloads/workloads_sap_landscape_monitor_resource.go:392-418 | nil gives `[]`; otherwise one block per threshold set, absent values as zero |
| SapLandscapeMonitor.FlattenMetricThresholdsArray | internal/services/workloads/workloads_sap_landscape_monitor_resource.go:392-418 | the loop computes the reference flatten of the thresholds |
| SapLandscapeMonitor.MetricThresholdsRoundTrip | internal/services/workloads/workloads_sap_landscape_monitor_resource.go:341-418 | any threshold list survives expand then flatten |
| SapLandscapeMonitor.ExpandedGrouping | internal/services/workloads/workloads_sap_landscape_monitor_resource.go:312-323 | nil iff the list is empty; otherwise the first block's landscape and SAP application mappings, expanded |
| SapLandscapeMonitor.ExpandGrouping | internal/services/workloads/workloads_sap_landscape_monitor_resource.go:312-323 | computes the reference grouping expansion |
| SapLandscapeMonitor.FlattenedGrouping | internal/services/workloads/workloads_sap_landscape_monitor_resource.go:359-370 | nil gives `[]`; otherwise one block with both mapping lists flattened |
| SapLandscapeMonitor.FlattenGrouping | internal/services/workloads/workloads_sap_landscape_monitor_resource.go:359-370 | computes the reference grouping flatten |
| SapLandscapeMonitor.GroupingRoundTrip | internal/services/workloads/workloads_sap_landscape_monitor_resource.go:312-370 | a grouping list of at most one block survives expand then flatten |

## Left out

- The create, read, update and delete bodies are left out: the client calls, polling, timeouts, the existence checks and `metadata` decoding and encoding. `Update`'s `HasChange` answers are a `Changes` parameter. Only the property assembly is modelled: `BuildCreateRequest`, `ApplyUpdate`, `CreateProperties` and `ReadState`.
- The flux configuration `Read` is not modelled separately. It fills name, resource group name, cluster resource name and cluster name from the parsed resource ID; that ID plumbing is left out, because `ParseFluxConfigurationID` is foreign code. Beyond that it copies namespace, scope and suspend when present and calls the bucket, git and kustomization flattens, which are modelled.
- Validators implemented in other packages are not modelled: `IsURLWithHTTPorHTTPS`, `validate.IsCert`, `StringIsNotEmpty` on most fields, the common schema helpers, identity, `location.Normalize` and the resource-group name schema.
- `ParseAzureResourceID` is foreign code. Its result is an input datatype: the subscription, the resource group and the remaining key/value map.
- Base64 decode errors carry no byte offset, because the model only distinguishes success from failure.
- SourceControlId.GoQuote: the `%q` escapes for non-ASCII non-printable characters (Go writes U+00A0 as `\u00a0`) and for invalid UTF-8 are not modelled. Characters at or above 0x80 are written as they are.
- SourceControlId.String: quotes its fields with `GoQuote`, so it shares that gap for non-ASCII non-printable characters and invalid UTF-8.
- SourceControl.FlattenComplianceStatus: RFC 3339 formatting of a `time.Time` is a function parameter, because the clock library is not part of this model.
- Float64 fields are carried as uninterpreted 64-bit values, because the layer only copies them; no floating-point arithmetic is modelled.
- Int64 fields of the central instance are a 64-bit newtype. They are only copied, so no arithmetic is needed.
- The `details` of an SDK error definition are not modelled, because no flatten reads them.
- The source control resource builds its ID with a four-argument constructor, and its name field disagrees with the parse package. The model follows the parse package's six-field ID.
- Go map iteration order is a ghost `order` sequence. The flattened kustomization list is specified up to that order.
- Schema defaults other than the source control namespace and params defaults are not modelled. `ExactlyOneOf`, `ConflictsWith`, `ForceNew` and `Computed` are also left out, because they belong to the schema engine.
- The expand helpers of flux configuration return an `error` that is always nil. The model returns the value alone.
- SourceControl.ExpandHelmOperatorProperties: requires both chart keys in a present block. The Go type assertion would panic without them, and the schema always supplies them.
- The database instance `Read`: name, ID, location and resource group plumbing are left out; `ReadState` models the state built from the properties and tags.
- The monitor `Create`: identity, location and tags are left out; only the properties are modelled.

## Findings

| source | as written | input that shows it | evidently intended | confidence | as-written member | corrected member |
|---|---|---|---|---|---|---|
| internal/services/kubernetesconfiguration/parse/kubernetes_configuration_source_control.go:69 | the parser pops the segment `clusterResource1` | any `ID()` output, e.g. `/subscriptions/sub1/resourceGroups/group1/providers/Microsoft.ContainerService/managedClusters/cluster1/providers/Microsoft.KubernetesConfiguration/sourceControlConfigurations/config1` | pop `managedClusters`, the segment `ID()` writes | medium; not executed | SourceControlId.ParseRejectsRenderedIds | SourceControlId.CorrectedParseRoundTrip |
