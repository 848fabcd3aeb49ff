/**
 * The translation layer of the `azurerm_kubernetes_configuration_flux_configuration`
 * resource: the validators of its schema, the cluster-RP and source-kind
 * selection of Create and Update, and the expand (configuration to request) and
 * flatten (response to state) functions for kustomizations, buckets, git
 * repositories and repository refs.
 *
 * Go strings are byte strings; they are `GoString` here because several of them
 * go through base64. Go pointers are `Option`, a nil slice is `[]`.
 */
module FluxConfiguration {
  import opened Wrappers
  import opened GoBytes
  import Base64

  // ---------------------------------------------------------------------------
  // Constants
  // ---------------------------------------------------------------------------

  const ManagedClusters: GoString := Ascii("managedClusters")
  const ContainerServiceRp: GoString := Ascii("Microsoft.ContainerService")
  const ScopeNamespace: GoString := Ascii("namespace")
  const ScopeCluster: GoString := Ascii("cluster")

  /** Keys of the protected-settings map. */
  const BucketSecretKeySetting: GoString := Ascii("bucketSecretKey")
  const HttpsKeySetting: GoString := Ascii("httpsKey")
  const SshPrivateKeySetting: GoString := Ascii("sshPrivateKey")

  /** The upper bound of every validated interval, in seconds. */
  const MaxIntervalSeconds: int := 35791394

  const Hyphen: byte := 45

  // ---------------------------------------------------------------------------
  // Terraform-side models
  // ---------------------------------------------------------------------------

  datatype KustomizationModel = KustomizationModel(
    name: GoString,
    path: GoString,
    timeoutInSeconds: int,
    syncIntervalInSeconds: int,
    retryIntervalInSeconds: int,
    force: bool,
    prune: bool,
    dependsOn: seq<GoString>)

  datatype RepositoryRefModel = RepositoryRefModel(branch: GoString, commit: GoString, semver: GoString, tag: GoString)

  datatype BucketModel = BucketModel(
    accessKey: GoString,
    bucketSecretKey: GoString,
    bucketName: GoString,
    insecure: bool,
    localAuthRef: GoString,
    syncIntervalInSeconds: int,
    timeoutInSeconds: int,
    url: GoString)

  datatype GitRepositoryModel = GitRepositoryModel(
    httpsCACert: GoString,
    httpsUser: GoString,
    httpsKey: GoString,
    localAuthRef: GoString,
    repositoryRef: seq<RepositoryRefModel>,
    sshKnownHosts: GoString,
    sshPrivateKey: GoString,
    syncIntervalInSeconds: int,
    timeoutInSeconds: int,
    url: GoString)

  datatype FluxConfigurationModel = FluxConfigurationModel(
    name: GoString,
    resourceGroupName: GoString,
    clusterResourceName: GoString,
    clusterName: GoString,
    bucket: seq<BucketModel>,
    gitRepository: seq<GitRepositoryModel>,
    kustomizations: seq<KustomizationModel>,
    namespace: GoString,
    scope: GoString,
    suspend: bool)

  // ---------------------------------------------------------------------------
  // API-side (SDK) types
  // ---------------------------------------------------------------------------

  datatype KustomizationDefinition = KustomizationDefinition(
    dependsOn: Option<seq<GoString>>,
    force: Option<bool>,
    name: Option<GoString>,
    path: Option<GoString>,
    prune: Option<bool>,
    retryIntervalInSeconds: Option<int>,
    syncIntervalInSeconds: Option<int>,
    timeoutInSeconds: Option<int>)

  datatype RepositoryRefDefinition = RepositoryRefDefinition(
    branch: Option<GoString>, commit: Option<GoString>, semver: Option<GoString>, tag: Option<GoString>)

  datatype BucketDefinition = BucketDefinition(
    accessKey: Option<GoString>,
    bucketName: Option<GoString>,
    insecure: Option<bool>,
    localAuthRef: Option<GoString>,
    syncIntervalInSeconds: Option<int>,
    timeoutInSeconds: Option<int>,
    url: Option<GoString>)

  datatype GitRepositoryDefinition = GitRepositoryDefinition(
    httpsCACert: Option<GoString>,
    httpsUser: Option<GoString>,
    localAuthRef: Option<GoString>,
    repositoryRef: Option<RepositoryRefDefinition>,
    sshKnownHosts: Option<GoString>,
    syncIntervalInSeconds: Option<int>,
    timeoutInSeconds: Option<int>,
    url: Option<GoString>)

  datatype SourceKindType = GitRepository | Bucket

  type Settings = map<GoString, GoString>

  /** The request properties that Create builds and Update edits. */
  datatype FluxConfigurationProperties = FluxConfigurationProperties(
    bucket: Option<BucketDefinition>,
    gitRepository: Option<GitRepositoryDefinition>,
    kustomizations: Option<map<GoString, KustomizationDefinition>>,
    namespace: Option<GoString>,
    scope: Option<GoString>,
    suspend: Option<bool>,
    sourceKind: Option<SourceKindType>,
    protectedSettings: Option<Settings>)

  /** What an expand of a source block returns: the definition and the protected settings. */
  datatype Expansion<T> = Expansion(definition: Option<T>, protectedSettings: Option<Settings>)

  datatype FluxError = UnsupportedClusterResource(clusterResourceName: GoString)

  // ---------------------------------------------------------------------------
  // Validators
  // ---------------------------------------------------------------------------

  /** `[a-z\d]` */
  predicate IsLowerAlnum(c: byte) { 97 <= c <= 122 || 48 <= c <= 57 }

  /** `[-a-z\d]` */
  predicate IsLabelChar(c: byte) { IsLowerAlnum(c) || c == Hyphen }

  /**
   * The pattern `^[a-z\d]([-a-z\d]{0,maxMiddle}[a-z\d])?$`, read as the regular
   * expression reads: one leading character, then optionally a run of at most
   * `maxMiddle` middle characters closed by one more leading-class character.
   */
  predicate MatchesLabelPattern(s: GoString, maxMiddle: nat)
  {
    |s| >= 1 && IsLowerAlnum(s[0]) &&
    (|s| == 1 ||
     (|s| - 2 <= maxMiddle &&
      (forall i :: 1 <= i < |s| - 1 ==> IsLabelChar(s[i])) &&
      IsLowerAlnum(s[|s| - 1])))
  }

  /** The label pattern in plain words: a length bound, a character class, no hyphen at either end. */
  lemma LabelPatternCharacterization(s: GoString, maxMiddle: nat)
    ensures MatchesLabelPattern(s, maxMiddle) <==>
      1 <= |s| <= maxMiddle + 2 &&
      (forall i :: 0 <= i < |s| ==> IsLabelChar(s[i])) &&
      s[0] != Hyphen && s[|s| - 1] != Hyphen
  {
  }

  /** `name` and the `name` of a kustomization: 1 to 30 characters. */
  predicate ValidFluxName(s: GoString) { MatchesLabelPattern(s, 28) }

  /** `bucket_name`, both `local_auth_ref`s and `namespace`: 1 to 63 characters. */
  predicate ValidLongLabel(s: GoString) { MatchesLabelPattern(s, 61) }

  /** `validation.IntBetween(1, 35791394)`, both ends included. */
  predicate ValidInterval(n: int) { 1 <= n <= MaxIntervalSeconds }

  /** The validators of one `kustomizations` element (a `path` left unset is `""` and not validated). */
  predicate ValidKustomization(k: KustomizationModel)
  {
    ValidFluxName(k.name) &&
    ValidInterval(k.timeoutInSeconds) && ValidInterval(k.syncIntervalInSeconds) &&
    ValidInterval(k.retryIntervalInSeconds)
  }

  /** One `kustomizations` element in plain words: a 1..30-character label name, three intervals in range. */
  lemma ValidKustomizationCharacterization(k: KustomizationModel)
    ensures ValidKustomization(k) <==>
      1 <= |k.name| <= 30 && (forall i :: 0 <= i < |k.name| ==> IsLabelChar(k.name[i])) &&
      k.name[0] != Hyphen && k.name[|k.name| - 1] != Hyphen &&
      1 <= k.timeoutInSeconds <= MaxIntervalSeconds &&
      1 <= k.syncIntervalInSeconds <= MaxIntervalSeconds &&
      1 <= k.retryIntervalInSeconds <= MaxIntervalSeconds
  {
    LabelPatternCharacterization(k.name, 28);
  }

  /** `^<prefix>(.)+$`: the prefix, then at least one character, none of them a line feed. */
  predicate MatchesPrefixPattern(u: GoString, prefix: GoString)
  {
    |u| > |prefix| && u[..|prefix|] == prefix &&
    forall i :: |prefix| <= i < |u| ==> u[i] != 10
  }

  /** The `url` of a git repository: any of the four scheme patterns. */
  predicate ValidGitUrl(u: GoString)
  {
    MatchesPrefixPattern(u, Ascii("http://")) || MatchesPrefixPattern(u, Ascii("https://")) ||
    MatchesPrefixPattern(u, Ascii("git@")) || MatchesPrefixPattern(u, Ascii("ssh://"))
  }

  /** `cluster_resource_name`: only `managedClusters`, case-sensitive. */
  predicate ValidClusterResourceName(s: GoString) { s == ManagedClusters }

  /** `scope`: `namespace` or `cluster`, case-sensitive. */
  predicate ValidScope(s: GoString) { s == ScopeNamespace || s == ScopeCluster }

  // ---------------------------------------------------------------------------
  // Cluster RP selection (Create)
  // ---------------------------------------------------------------------------

  /** Create's choice of resource provider from `cluster_resource_name`. */
  function SelectClusterRp(clusterResourceName: GoString): (r: Result<GoString, FluxError>)
    ensures r.Success? <==> clusterResourceName == ManagedClusters
    ensures r.Success? ==> r.value == ContainerServiceRp
    ensures r.Failure? ==> r.error.clusterResourceName == clusterResourceName
  {
    if clusterResourceName == ManagedClusters then Success(ContainerServiceRp)
    else Failure(UnsupportedClusterResource(clusterResourceName))
  }

  /** Every name the schema accepts passes Create's selection. */
  lemma ValidClusterResourceNameSelects(s: GoString)
    requires ValidClusterResourceName(s)
    ensures SelectClusterRp(s) == Success(ContainerServiceRp)
  {
  }

  // ---------------------------------------------------------------------------
  // Optional strings
  // ---------------------------------------------------------------------------

  /** `if s != "" { out.F = &s }`: an empty string is left out of the request. */
  function OmitEmpty(s: GoString): (r: Option<GoString>)
    ensures r.None? <==> s == []
    ensures r.GetOr([]) == s
  {
    if s == [] then None else Some(s)
  }

  /** A non-empty string goes out base64-encoded; an empty one is left out. */
  function EncodeNonEmpty(s: GoString): (r: Option<GoString>)
    ensures r.None? <==> s == []
    ensures r.Some? ==> Base64.Decode(r.value) == Success(s)
  {
    Base64.DecodeEncode(s);
    if s == [] then None else Some(Base64.Encode(s))
  }

  /** The flatten side of `EncodeNonEmpty`: absent is `""`, present is decoded. */
  function DecodePresent(o: Option<GoString>): (r: Result<GoString, Base64.DecodeError>)
    ensures o.None? ==> r == Success([])
  {
    match o
    case None => Success([])
    case Some(t) => Base64.Decode(t)
  }

  // ---------------------------------------------------------------------------
  // Kustomizations
  // ---------------------------------------------------------------------------

  /** One element of the expand loop: every field sent, `path` only when non-empty. */
  function ExpandKustomization(k: KustomizationModel): (r: KustomizationDefinition)
    ensures (r.path.None? <==> k.path == []) && r.path.GetOr([]) == k.path
    ensures r.name == Some(k.name) && r.dependsOn == Some(k.dependsOn)
    ensures r.force == Some(k.force) && r.prune == Some(k.prune)
    ensures r.timeoutInSeconds == Some(k.timeoutInSeconds)
    ensures r.syncIntervalInSeconds == Some(k.syncIntervalInSeconds)
    ensures r.retryIntervalInSeconds == Some(k.retryIntervalInSeconds)
  {
    KustomizationDefinition(
      dependsOn := Some(k.dependsOn), force := Some(k.force), name := Some(k.name),
      path := OmitEmpty(k.path), prune := Some(k.prune),
      retryIntervalInSeconds := Some(k.retryIntervalInSeconds),
      syncIntervalInSeconds := Some(k.syncIntervalInSeconds),
      timeoutInSeconds := Some(k.timeoutInSeconds))
  }

  /** One element of the flatten loop: absent fields become zero values. */
  function FlattenKustomization(d: KustomizationDefinition): KustomizationModel
  {
    KustomizationModel(
      name := d.name.GetOr([]), path := d.path.GetOr([]),
      timeoutInSeconds := d.timeoutInSeconds.GetOr(0),
      syncIntervalInSeconds := d.syncIntervalInSeconds.GetOr(0),
      retryIntervalInSeconds := d.retryIntervalInSeconds.GetOr(0),
      force := d.force.GetOr(false), prune := d.prune.GetOr(false),
      dependsOn := d.dependsOn.GetOr([]))
  }

  lemma FlattenExpandKustomization(k: KustomizationModel)
    ensures FlattenKustomization(ExpandKustomization(k)) == k
  {
  }

  /**
   * The map the expand loop builds from a list: each element stored under its
   * name, a later element overwriting an earlier one of the same name.
   */
  function KustomizationMap(input: seq<KustomizationModel>): map<GoString, KustomizationDefinition>
    decreases |input|
  {
    if input == [] then map[]
    else
      var last := input[|input| - 1];
      KustomizationMap(input[..|input| - 1])[last.name := ExpandKustomization(last)]
  }

  function Names(input: seq<KustomizationModel>): seq<GoString>
  {
    seq(|input|, i requires 0 <= i < |input| => input[i].name)
  }

  predicate NamesDistinct(input: seq<KustomizationModel>)
  {
    forall i, j :: 0 <= i < j < |input| ==> input[i].name != input[j].name
  }

  /** The keys of the expanded map are exactly the names in the list. */
  lemma {:induction false} KustomizationMapKeys(input: seq<KustomizationModel>)
    ensures KustomizationMap(input).Keys == set n | n in Names(input)
    decreases |input|
  {
    if input != [] {
      var init := input[..|input| - 1];
      KustomizationMapKeys(init);
      assert Names(input) == Names(init) + [input[|input| - 1].name];
    }
  }

  /** The entry under a name is the expansion of the last element carrying that name. */
  lemma {:induction false} KustomizationMapLastWins(input: seq<KustomizationModel>, j: nat)
    requires j < |input|
    requires forall k :: j < k < |input| ==> input[k].name != input[j].name
    ensures input[j].name in KustomizationMap(input)
    ensures KustomizationMap(input)[input[j].name] == ExpandKustomization(input[j])
    decreases |input|
  {
    if j < |input| - 1 {
      KustomizationMapLastWins(input[..|input| - 1], j);
    }
  }

  /** `expandKustomizationDefinitionModel`: nil for an empty list, the name-keyed map otherwise. */
  method ExpandKustomizations(input: seq<KustomizationModel>) returns (r: Option<map<GoString, KustomizationDefinition>>)
    ensures input == [] ==> r == None
    ensures input != [] ==> r == Some(KustomizationMap(input))
  {
    if |input| == 0 {
      return None;
    }
    var outputList: map<GoString, KustomizationDefinition> := map[];
    var i := 0;
    while i < |input|
      invariant 0 <= i <= |input|
      invariant outputList == KustomizationMap(input[..i])
    {
      var v := input[i];
      assert input[..i + 1][..i] == input[..i];
      outputList := outputList[v.name := ExpandKustomization(v)];
      i := i + 1;
    }
    assert input[..i] == input;
    return Some(outputList);
  }

  /** A sequence without repetitions. */
  predicate Distinct<T(==)>(s: seq<T>)
  {
    forall i, j :: 0 <= i < j < |s| ==> s[i] != s[j]
  }

  lemma {:induction false} DistinctCardinality<T>(s: seq<T>)
    requires Distinct(s)
    ensures |set x | x in s| == |s|
  {
    if s != [] {
      var init := s[..|s| - 1];
      DistinctCardinality(init);
      assert (set x | x in s) == (set x | x in init) + {s[|s| - 1]};
      assert s[|s| - 1] !in init;
    }
  }

  /**
   * `out` is the list the flatten loop produces when Go's map iteration visits
   * the keys of `m` in the order `order`: every key once, one flattened entry each.
   */
  predicate IsKustomizationFlattening(m: map<GoString, KustomizationDefinition>, order: seq<GoString>, out: seq<KustomizationModel>)
  {
    Distinct(order) && (set k | k in order) == m.Keys && |out| == |order| &&
    forall i :: 0 <= i < |out| ==> order[i] in m && out[i] == FlattenKustomization(m[order[i]])
  }

  /**
   * `flattenKustomizationDefinitionModel`. Go visits the map in an unspecified
   * order; the method picks any remaining key at each step, and `order` records
   * the order it chose.
   */
  method FlattenKustomizations(input: Option<map<GoString, KustomizationDefinition>>)
    returns (outputList: seq<KustomizationModel>, ghost order: seq<GoString>)
    ensures input.None? ==> outputList == []
    ensures input.Some? ==> IsKustomizationFlattening(input.value, order, outputList)
    ensures input.Some? ==> |outputList| == |input.value|
  {
    outputList, order := [], [];
    if input.None? {
      return;
    }
    var m := input.value;
    var remaining := m.Keys;
    while remaining != {}
      invariant remaining <= m.Keys
      invariant Distinct(order)
      invariant forall k :: k in order ==> k in m && k !in remaining
      invariant forall k :: k in m ==> k in remaining || k in order
      invariant |outputList| == |order|
      invariant forall i :: 0 <= i < |outputList| ==> order[i] in m && outputList[i] == FlattenKustomization(m[order[i]])
      decreases remaining
    {
      var key :| key in remaining;
      outputList := outputList + [FlattenKustomization(m[key])];
      order := order + [key];
      remaining := remaining - {key};
    }
    assert (set k | k in order) == m.Keys;
    DistinctCardinality(order);
  }

  lemma RoundTripKeepsElements(input: seq<KustomizationModel>, order: seq<GoString>, out: seq<KustomizationModel>, x: KustomizationModel)
    requires NamesDistinct(input)
    requires IsKustomizationFlattening(KustomizationMap(input), order, out)
    requires x in input
    ensures x in out
  {
    var j :| 0 <= j < |input| && input[j] == x;
    KustomizationMapLastWins(input, j);
    assert x.name in KustomizationMap(input).Keys;
    assert x.name in order;
    var i :| 0 <= i < |order| && order[i] == x.name;
    FlattenExpandKustomization(x);
    assert out[i] == x;
  }

  lemma RoundTripAddsNothing(input: seq<KustomizationModel>, order: seq<GoString>, out: seq<KustomizationModel>, i: nat)
    requires NamesDistinct(input)
    requires IsKustomizationFlattening(KustomizationMap(input), order, out)
    requires i < |out|
    ensures out[i] in input
  {
    KustomizationMapKeys(input);
    assert order[i] in Names(input);
    var j :| 0 <= j < |input| && Names(input)[j] == order[i];
    KustomizationMapLastWins(input, j);
    FlattenExpandKustomization(input[j]);
  }

  lemma RoundTripLength(input: seq<KustomizationModel>, order: seq<GoString>, out: seq<KustomizationModel>)
    requires NamesDistinct(input)
    requires IsKustomizationFlattening(KustomizationMap(input), order, out)
    ensures |out| == |input|
  {
    KustomizationMapKeys(input);
    assert Distinct(Names(input));
    DistinctCardinality(Names(input));
    DistinctCardinality(order);
  }

  /**
   * flatten after expand: for a list whose names are distinct (the schema's set is
   * hashed by name), each flattening of the expanded map, in any iteration order,
   * holds exactly the elements of the list, each once.
   */
  lemma KustomizationsRoundTrip(input: seq<KustomizationModel>, order: seq<GoString>, out: seq<KustomizationModel>)
    requires NamesDistinct(input)
    requires IsKustomizationFlattening(KustomizationMap(input), order, out)
    ensures |out| == |input|
    ensures forall x :: x in out <==> x in input
  {
    RoundTripLength(input, order, out);
    forall x | x in input ensures x in out {
      RoundTripKeepsElements(input, order, out, x);
    }
    forall x | x in out ensures x in input {
      var i :| 0 <= i < |out| && out[i] == x;
      RoundTripAddsNothing(input, order, out, i);
    }
  }

  // ---------------------------------------------------------------------------
  // Repository ref
  // ---------------------------------------------------------------------------

  /** `expandRepositoryRefDefinitionModel`: the first element, its empty fields left out. */
  function ExpandRepositoryRef(input: seq<RepositoryRefModel>): (r: Option<RepositoryRefDefinition>)
    ensures r.None? <==> input == []
    ensures r.Some? ==>
      var x := input[0];
      r.value.branch == OmitEmpty(x.branch) && r.value.commit == OmitEmpty(x.commit) &&
      r.value.semver == OmitEmpty(x.semver) && r.value.tag == OmitEmpty(x.tag)
  {
    if input == [] then None
    else
      var x := input[0];
      Some(RepositoryRefDefinition(OmitEmpty(x.branch), OmitEmpty(x.commit), OmitEmpty(x.semver), OmitEmpty(x.tag)))
  }

  /** `flattenRepositoryRefDefinitionModel`: empty for nil, one element with `""` for absent fields. */
  function FlattenRepositoryRef(input: Option<RepositoryRefDefinition>): (r: seq<RepositoryRefModel>)
    ensures |r| == if input.None? then 0 else 1
  {
    match input
    case None => []
    case Some(d) => [RepositoryRefModel(d.branch.GetOr([]), d.commit.GetOr([]), d.semver.GetOr([]), d.tag.GetOr([]))]
  }

  /** The first element of a list, as a list of at most one. */
  function FirstOnly<T>(s: seq<T>): (r: seq<T>)
    ensures |r| <= 1 && (s == [] <==> r == [])
  {
    if s == [] then [] else [s[0]]
  }

  lemma RepositoryRefRoundTrip(input: seq<RepositoryRefModel>)
    ensures FlattenRepositoryRef(ExpandRepositoryRef(input)) == FirstOnly(input)
  {
  }

  // ---------------------------------------------------------------------------
  // Bucket
  // ---------------------------------------------------------------------------

  /** `expandBucketDefinitionModel`. */
  function ExpandBucket(input: seq<BucketModel>): (r: Expansion<BucketDefinition>)
    ensures input == [] ==> r == Expansion(None, None)
    ensures r.definition.Some? <==> input != []
    ensures r.protectedSettings.Some? <==> input != [] && input[0].bucketSecretKey != []
    ensures r.protectedSettings.Some? ==>
      r.protectedSettings.value.Keys == {BucketSecretKeySetting} &&
      Base64.Decode(r.protectedSettings.value[BucketSecretKeySetting]) == Success(input[0].bucketSecretKey)
    ensures r.definition.Some? ==>
      var b, d := input[0], r.definition.value;
      d.accessKey == OmitEmpty(b.accessKey) && d.bucketName == OmitEmpty(b.bucketName) &&
      d.localAuthRef == OmitEmpty(b.localAuthRef) && d.url == OmitEmpty(b.url) &&
      d.insecure == Some(b.insecure) && d.syncIntervalInSeconds == Some(b.syncIntervalInSeconds) &&
      d.timeoutInSeconds == Some(b.timeoutInSeconds)
  {
    if input == [] then Expansion(None, None)
    else
      var b := input[0];
      var output := BucketDefinition(
        accessKey := OmitEmpty(b.accessKey), bucketName := OmitEmpty(b.bucketName),
        insecure := Some(b.insecure), localAuthRef := OmitEmpty(b.localAuthRef),
        syncIntervalInSeconds := Some(b.syncIntervalInSeconds),
        timeoutInSeconds := Some(b.timeoutInSeconds), url := OmitEmpty(b.url));
      var settings: Settings :=
        if b.bucketSecretKey != [] then map[BucketSecretKeySetting := Base64.Encode(b.bucketSecretKey)] else map[];
      Base64.DecodeEncode(b.bucketSecretKey);
      Expansion(Some(output), if |settings| > 0 then Some(settings) else None)
  }

  /** `flattenBucketDefinitionModel`: the secret key comes back from the prior configuration. */
  function FlattenBucket(input: Option<BucketDefinition>, prior: Option<FluxConfigurationModel>): (r: seq<BucketModel>)
    ensures |r| == if input.None? then 0 else 1
    ensures input.Some? ==>
      r[0].bucketSecretKey == (if prior.Some? && prior.value.bucket != [] then prior.value.bucket[0].bucketSecretKey else [])
  {
    match input
    case None => []
    case Some(d) =>
      [BucketModel(
        accessKey := d.accessKey.GetOr([]),
        bucketSecretKey := if prior.Some? && |prior.value.bucket| > 0 then prior.value.bucket[0].bucketSecretKey else [],
        bucketName := d.bucketName.GetOr([]), insecure := d.insecure.GetOr(false),
        localAuthRef := d.localAuthRef.GetOr([]),
        syncIntervalInSeconds := d.syncIntervalInSeconds.GetOr(0),
        timeoutInSeconds := d.timeoutInSeconds.GetOr(0), url := d.url.GetOr([]))]
  }

  /** Reading back a bucket that was sent gives the configured block, secret included. */
  lemma BucketRoundTrip(b: BucketModel, prior: FluxConfigurationModel)
    requires prior.bucket != [] && prior.bucket[0] == b
    ensures FlattenBucket(ExpandBucket([b]).definition, Some(prior)) == [b]
  {
  }

  // ---------------------------------------------------------------------------
  // Git repository
  // ---------------------------------------------------------------------------

  /** `expandGitRepositoryDefinitionModel`: the settings map is always there for a block. */
  function ExpandGit(input: seq<GitRepositoryModel>): (r: Expansion<GitRepositoryDefinition>)
    ensures input == [] ==> r == Expansion(None, None)
    ensures input != [] ==> r.definition.Some? && r.protectedSettings.Some?
    ensures input != [] ==>
      var s := r.protectedSettings.value;
      s.Keys <= {HttpsKeySetting, SshPrivateKeySetting} &&
      (HttpsKeySetting in s <==> input[0].httpsKey != []) &&
      (SshPrivateKeySetting in s <==> input[0].sshPrivateKey != []) &&
      (HttpsKeySetting in s ==> Base64.Decode(s[HttpsKeySetting]) == Success(input[0].httpsKey)) &&
      (SshPrivateKeySetting in s ==> Base64.Decode(s[SshPrivateKeySetting]) == Success(input[0].sshPrivateKey))
    ensures r.definition.Some? ==>
      var g, d := input[0], r.definition.value;
      d.httpsCACert == EncodeNonEmpty(g.httpsCACert) && d.sshKnownHosts == EncodeNonEmpty(g.sshKnownHosts) &&
      d.httpsUser == OmitEmpty(g.httpsUser) && d.localAuthRef == OmitEmpty(g.localAuthRef) &&
      d.url == OmitEmpty(g.url) && d.repositoryRef == ExpandRepositoryRef(g.repositoryRef) &&
      d.syncIntervalInSeconds == Some(g.syncIntervalInSeconds) && d.timeoutInSeconds == Some(g.timeoutInSeconds)
  {
    if input == [] then Expansion(None, None)
    else
      var g := input[0];
      var output := GitRepositoryDefinition(
        httpsCACert := EncodeNonEmpty(g.httpsCACert), httpsUser := OmitEmpty(g.httpsUser),
        localAuthRef := OmitEmpty(g.localAuthRef), repositoryRef := ExpandRepositoryRef(g.repositoryRef),
        sshKnownHosts := EncodeNonEmpty(g.sshKnownHosts),
        syncIntervalInSeconds := Some(g.syncIntervalInSeconds),
        timeoutInSeconds := Some(g.timeoutInSeconds), url := OmitEmpty(g.url));
      var withKey: Settings := if g.httpsKey != [] then map[HttpsKeySetting := Base64.Encode(g.httpsKey)] else map[];
      var settings: Settings :=
        if g.sshPrivateKey != [] then withKey[SshPrivateKeySetting := Base64.Encode(g.sshPrivateKey)] else withKey;
      Base64.DecodeEncode(g.httpsKey);
      Base64.DecodeEncode(g.sshPrivateKey);
      assert HttpsKeySetting != SshPrivateKeySetting;
      Expansion(Some(output), Some(settings))
  }

  /** `flattenGitRepositoryDefinitionModel`: decodes the two encoded fields, carries the secrets over. */
  function FlattenGit(input: Option<GitRepositoryDefinition>, prior: Option<FluxConfigurationModel>)
    : (r: Result<seq<GitRepositoryModel>, Base64.DecodeError>)
    ensures input.None? ==> r == Success([])
    ensures input.Some? ==> (r.Failure? <==>
      DecodePresent(input.value.httpsCACert).Failure? || DecodePresent(input.value.sshKnownHosts).Failure?)
    ensures input.Some? && r.Success? ==> (|r.value| == 1 &&
      var carried := prior.Some? && prior.value.gitRepository != [];
      r.value[0].httpsKey == (if carried then prior.value.gitRepository[0].httpsKey else []) &&
      r.value[0].sshPrivateKey == (if carried then prior.value.gitRepository[0].sshPrivateKey else []))
  {
    match input
    case None => Success([])
    case Some(d) =>
      match DecodePresent(d.httpsCACert)
      case Failure(e) => Failure(e)
      case Success(caCert) =>
        match DecodePresent(d.sshKnownHosts)
        case Failure(e) => Failure(e)
        case Success(knownHosts) =>
          var carried := prior.Some? && |prior.value.gitRepository| > 0;
          Success([GitRepositoryModel(
            httpsCACert := caCert, httpsUser := d.httpsUser.GetOr([]),
            httpsKey := if carried then prior.value.gitRepository[0].httpsKey else [],
            localAuthRef := d.localAuthRef.GetOr([]),
            repositoryRef := FlattenRepositoryRef(d.repositoryRef),
            sshKnownHosts := knownHosts,
            sshPrivateKey := if carried then prior.value.gitRepository[0].sshPrivateKey else [],
            syncIntervalInSeconds := d.syncIntervalInSeconds.GetOr(0),
            timeoutInSeconds := d.timeoutInSeconds.GetOr(0), url := d.url.GetOr([]))])
  }

  /**
   * Reading back a git repository that was sent gives the configured block: the
   * certificate and known hosts survive the base64 trip, the secrets come from the
   * prior configuration, and only the first repository ref is kept.
   */
  lemma GitRoundTrip(g: GitRepositoryModel, prior: FluxConfigurationModel)
    requires prior.gitRepository != [] && prior.gitRepository[0] == g
    ensures FlattenGit(ExpandGit([g]).definition, Some(prior)) == Success([g.(repositoryRef := FirstOnly(g.repositoryRef))])
  {
    RepositoryRefRoundTrip(g.repositoryRef);
  }

  // ---------------------------------------------------------------------------
  // Create and Update
  // ---------------------------------------------------------------------------

  /** What Create sends: the resource provider of the cluster and the request properties. */
  datatype CreateRequest = CreateRequest(clusterRp: GoString, properties: FluxConfigurationProperties)

  /**
   * The request Create builds from the configuration: the cluster RP, scope and
   * suspend, the git source when a git block is present and the bucket source
   * otherwise, the kustomization map, and the namespace when non-empty.
   */
  method BuildCreateRequest(model: FluxConfigurationModel) returns (r: Result<CreateRequest, FluxError>)
    ensures r.Failure? <==> model.clusterResourceName != ManagedClusters
    ensures r.Success? ==>
      var p := r.value.properties;
      r.value.clusterRp == ContainerServiceRp &&
      p.scope == Some(model.scope) && p.suspend == Some(model.suspend) &&
      p.sourceKind == Some(if model.gitRepository != [] then GitRepository else Bucket) &&
      (model.gitRepository != [] ==>
        p.gitRepository == ExpandGit(model.gitRepository).definition && p.bucket == None &&
        p.protectedSettings == ExpandGit(model.gitRepository).protectedSettings) &&
      (model.gitRepository == [] ==>
        p.bucket == ExpandBucket(model.bucket).definition && p.gitRepository == None &&
        p.protectedSettings == ExpandBucket(model.bucket).protectedSettings) &&
      p.kustomizations == (if model.kustomizations == [] then None else Some(KustomizationMap(model.kustomizations))) &&
      (p.namespace.None? <==> model.namespace == []) && p.namespace.GetOr([]) == model.namespace
  {
    var rp := SelectClusterRp(model.clusterResourceName);
    if rp.Failure? {
      return Failure(rp.error);
    }
    var properties := FluxConfigurationProperties(
      bucket := None, gitRepository := None, kustomizations := None, namespace := None,
      scope := Some(model.scope), suspend := Some(model.suspend), sourceKind := None,
      protectedSettings := None);
    if |model.gitRepository| > 0 {
      var git := ExpandGit(model.gitRepository);
      properties := properties.(gitRepository := git.definition, sourceKind := Some(GitRepository),
        protectedSettings := git.protectedSettings);
    } else {
      var bucket := ExpandBucket(model.bucket);
      properties := properties.(bucket := bucket.definition, sourceKind := Some(Bucket),
        protectedSettings := bucket.protectedSettings);
    }
    var kustomizations := ExpandKustomizations(model.kustomizations);
    properties := properties.(kustomizations := kustomizations);
    if model.namespace != [] {
      properties := properties.(namespace := Some(model.namespace));
    }
    return Success(CreateRequest(rp.value, properties));
  }

  /** Which blocks of the configuration Terraform reports as changed (`HasChange`). */
  datatype Changes = Changes(bucket: bool, gitRepository: bool, kustomizations: bool, suspend: bool)

  /**
   * The source part of Update's edit: a changed source is re-expanded and its
   * protected settings adopted only when it is present (git after bucket, so git
   * wins); the source kind is then Bucket exactly when a bucket is present.
   */
  method UpdateSource(properties: FluxConfigurationProperties, model: FluxConfigurationModel, changes: Changes)
    returns (r: FluxConfigurationProperties)
    ensures r.sourceKind == Some(if r.bucket.Some? then Bucket else GitRepository)
    ensures r.bucket == if changes.bucket then ExpandBucket(model.bucket).definition else properties.bucket
    ensures r.gitRepository == if changes.gitRepository then ExpandGit(model.gitRepository).definition else properties.gitRepository
    ensures r.protectedSettings ==
      if changes.gitRepository && model.gitRepository != [] then ExpandGit(model.gitRepository).protectedSettings
      else if changes.bucket && model.bucket != [] then ExpandBucket(model.bucket).protectedSettings
      else properties.protectedSettings
    ensures r == properties.(sourceKind := r.sourceKind, bucket := r.bucket, gitRepository := r.gitRepository,
      protectedSettings := r.protectedSettings)
  {
    r := properties;
    if changes.bucket {
      var bucket := ExpandBucket(model.bucket);
      r := r.(bucket := bucket.definition);
      if r.bucket.Some? {
        r := r.(protectedSettings := bucket.protectedSettings);
      }
    }
    if changes.gitRepository {
      var git := ExpandGit(model.gitRepository);
      r := r.(gitRepository := git.definition);
      if r.gitRepository.Some? {
        r := r.(protectedSettings := git.protectedSettings);
      }
    }
    var sourceKind := if r.bucket.Some? then Bucket else GitRepository;
    r := r.(sourceKind := Some(sourceKind));
  }

  /**
   * Update's edit of the stored properties: the source part as `UpdateSource`
   * states it; kustomizations and suspend are replaced when changed; nothing
   * else is touched.
   */
  method ApplyUpdate(properties: FluxConfigurationProperties, model: FluxConfigurationModel, changes: Changes)
    returns (r: FluxConfigurationProperties)
    ensures r.sourceKind == Some(if r.bucket.Some? then Bucket else GitRepository)
    ensures r.bucket == if changes.bucket then ExpandBucket(model.bucket).definition else properties.bucket
    ensures r.gitRepository == if changes.gitRepository then ExpandGit(model.gitRepository).definition else properties.gitRepository
    ensures r.protectedSettings ==
      if changes.gitRepository && model.gitRepository != [] then ExpandGit(model.gitRepository).protectedSettings
      else if changes.bucket && model.bucket != [] then ExpandBucket(model.bucket).protectedSettings
      else properties.protectedSettings
    ensures r.kustomizations ==
      if !changes.kustomizations then properties.kustomizations
      else if model.kustomizations == [] then None
      else Some(KustomizationMap(model.kustomizations))
    ensures r.suspend == if changes.suspend then Some(model.suspend) else properties.suspend
    ensures r.namespace == properties.namespace && r.scope == properties.scope
  {
    r := UpdateSource(properties, model, changes);
    if changes.kustomizations {
      var kustomizations := ExpandKustomizations(model.kustomizations);
      r := r.(kustomizations := kustomizations);
    }
    if changes.suspend {
      r := r.(suspend := Some(model.suspend));
    }
  }
}
