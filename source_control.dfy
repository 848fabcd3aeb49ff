/**
 * The translation layer of the `azurerm_kubernetes_configuration_source_control`
 * resource: the validators of `name`, `operator_namespace`, `operator_params` and
 * `operator_scope`, the `CustomizeDiff` rule tying helm properties to the helm
 * operator, and the expand/flatten of the helm operator properties and the
 * flatten of the compliance status.
 *
 * Terraform hands a nested block over as a list of `map[string]interface{}`; the
 * values of these blocks are all strings, so a block is a `map<string, string>`,
 * and a list element Go may see as nil is an `Option`.
 */
module SourceControl {
  import opened Wrappers

  // ---------------------------------------------------------------------------
  // Validators
  // ---------------------------------------------------------------------------

  /** `[a-z0-9]` */
  predicate IsLowerAlnum(c: char) { 'a' <= c <= 'z' || '0' <= c <= '9' }

  /** `[a-z0-9-]` */
  predicate IsLabelChar(c: char) { IsLowerAlnum(c) || c == '-' }

  /** `^[a-z0-9]` */
  predicate StartsAlnum(s: string) { |s| >= 1 && IsLowerAlnum(s[0]) }

  /** `[a-z0-9]$` */
  predicate EndsAlnum(s: string) { |s| >= 1 && IsLowerAlnum(s[|s| - 1]) }

  /** `^[a-z0-9-]{1,max}$` */
  predicate LabelCharsUpTo(s: string, max: nat) { 1 <= |s| <= max && forall i :: 0 <= i < |s| ==> IsLabelChar(s[i]) }

  /** `validation.All` of the three patterns, for `name` (30) and `operator_namespace` (63). */
  predicate ValidLabel(s: string, max: nat) { StartsAlnum(s) && EndsAlnum(s) && LabelCharsUpTo(s, max) }

  predicate ValidSourceControlName(s: string) { ValidLabel(s, 30) }

  predicate ValidOperatorNamespace(s: string) { ValidLabel(s, 63) }

  /** The three patterns together say: bounded length, label characters, no hyphen at either end. */
  lemma ValidLabelCharacterization(s: string, max: nat)
    ensures ValidLabel(s, max) <==>
      1 <= |s| <= max && (forall i :: 0 <= i < |s| ==> IsLabelChar(s[i])) && s[0] != '-' && s[|s| - 1] != '-'
  {
  }

  const DefaultOperatorNamespace: string := "default"
  const DefaultOperatorParams: string := "--git-readonly"

  lemma DefaultOperatorNamespaceIsValid()
    ensures ValidOperatorNamespace(DefaultOperatorNamespace)
  {
  }

  predicate HasPrefix(s: string, p: string) { |p| <= |s| && s[..|p|] == p }

  /** `validation.Any(^--git-readonly, ^--git-email)`: only the start of the value is checked. */
  predicate ValidOperatorParams(s: string) { HasPrefix(s, "--git-readonly") || HasPrefix(s, "--git-email") }

  lemma DefaultOperatorParamsIsValid()
    ensures ValidOperatorParams(DefaultOperatorParams)
  {
  }

  /**
   * Does `c` fold to the lower-case ASCII letter `t` under Go's simple case
   * folding? Beside the upper-case letter, `k` also has the Kelvin sign U+212A
   * and `s` the long s U+017F in its orbit.
   */
  predicate FoldsTo(c: char, t: char)
  {
    c == t ||
    ('a' <= t <= 'z' && c as int == t as int - 32) ||
    (t == 'k' && c == '\U{212A}') ||
    (t == 's' && c == '\U{017F}')
  }

  /** `strings.EqualFold(s, t)` for a target `t` of lower-case ASCII letters. */
  predicate EqualFoldLower(s: string, t: string)
  {
    |s| == |t| && forall i :: 0 <= i < |s| ==> FoldsTo(s[i], t[i])
  }

  /** `validation.StringInSlice([cluster, namespace], true)`. */
  predicate ValidOperatorScope(s: string) { EqualFoldLower(s, "cluster") || EqualFoldLower(s, "namespace") }

  /** Case is ignored, so `CLUSTER` and `Namespace` are accepted. */
  lemma OperatorScopeIgnoresCase()
    ensures ValidOperatorScope("CLUSTER") && ValidOperatorScope("Namespace")
  {
    assert EqualFoldLower("CLUSTER", "cluster");
    assert EqualFoldLower("Namespace", "namespace");
  }

  /** Go's folding also accepts the long s, so `clu\U{017F}ter` passes as `cluster`. */
  lemma OperatorScopeAcceptsLongS()
    ensures ValidOperatorScope("clu\U{017F}ter")
  {
    assert EqualFoldLower("clu\U{017F}ter", "cluster");
  }

  /** Anything of another length is refused. */
  lemma OperatorScopeLength(s: string)
    requires ValidOperatorScope(s)
    ensures |s| == 7 || |s| == 9
  {
  }

  // ---------------------------------------------------------------------------
  // CustomizeDiff
  // ---------------------------------------------------------------------------

  datatype DiffError = HelmPropertiesNeedHelmOperator

  /**
   * `helm_operator_properties` may only be set (`GetOk`: a non-empty list) when
   * `enable_helm_operator` is true.
   */
  function CheckHelmOperator(enableHelmOperator: bool, helmOperatorProperties: seq<Option<map<string, string>>>)
    : (r: Outcome<DiffError>)
    ensures r.Fail? <==> helmOperatorProperties != [] && !enableHelmOperator
  {
    var hasHelmOperatorProperties := |helmOperatorProperties| > 0;
    if hasHelmOperatorProperties && !enableHelmOperator then Fail(HelmPropertiesNeedHelmOperator) else Pass
  }

  // ---------------------------------------------------------------------------
  // Helm operator properties
  // ---------------------------------------------------------------------------

  const ChartValuesKey: string := "chart_values"
  const ChartVersionKey: string := "chart_version"

  datatype HelmOperatorProperties = HelmOperatorProperties(chartVersion: Option<string>, chartValues: Option<string>)

  /** A block of the schema: both of its keys are there (Terraform fills absent ones with `""`). */
  predicate IsHelmBlock(v: map<string, string>) { v.Keys == {ChartValuesKey, ChartVersionKey} }

  /**
   * `expandSourceControlHelmOperatorProperties`: nil for an empty list or a nil
   * first element, otherwise both fields taken from the first block. The type
   * assertions in the source panic when a key is missing, hence the requires.
   */
  function ExpandHelmOperatorProperties(input: seq<Option<map<string, string>>>): (r: Option<HelmOperatorProperties>)
    requires input != [] && input[0].Some? ==> ChartVersionKey in input[0].value && ChartValuesKey in input[0].value
    ensures r.None? <==> input == [] || input[0].None?
    ensures r.Some? ==>
      r.value.chartVersion == Some(input[0].value[ChartVersionKey]) &&
      r.value.chartValues == Some(input[0].value[ChartValuesKey])
  {
    if |input| == 0 || input[0].None? then None
    else
      var v := input[0].value;
      Some(HelmOperatorProperties(chartVersion := Some(v[ChartVersionKey]), chartValues := Some(v[ChartValuesKey])))
  }

  /** `flattenSourceControlHelmOperatorProperties`: an empty list for nil, else one block with `""` for absent fields. */
  function FlattenHelmOperatorProperties(input: Option<HelmOperatorProperties>): (r: seq<map<string, string>>)
    ensures input.None? ==> r == []
    ensures input.Some? ==> (|r| == 1 && IsHelmBlock(r[0]) &&
      r[0][ChartValuesKey] == input.value.chartValues.GetOr("") &&
      r[0][ChartVersionKey] == input.value.chartVersion.GetOr(""))
  {
    match input
    case None => []
    case Some(p) =>
      var chartValues := p.chartValues.GetOr("");
      var chartVersion := p.chartVersion.GetOr("");
      [map[ChartValuesKey := chartValues, ChartVersionKey := chartVersion]]
  }

  /** flatten after expand gives back a one-block list unchanged. */
  lemma HelmOperatorRoundTrip(v: map<string, string>)
    requires IsHelmBlock(v)
    ensures FlattenHelmOperatorProperties(ExpandHelmOperatorProperties([Some(v)])) == [v]
  {
    var out := FlattenHelmOperatorProperties(ExpandHelmOperatorProperties([Some(v)]))[0];
    assert out.Keys == v.Keys;
    assert forall k :: k in v ==> out[k] == v[k];
    assert out == v;
  }

  // ---------------------------------------------------------------------------
  // Compliance status
  // ---------------------------------------------------------------------------

  const ComplianceStateKey: string := "compliance_state"
  const LastConfigAppliedKey: string := "last_config_applied"
  const MessageKey: string := "message"
  const MessageLevelKey: string := "message_level"

  /**
   * The service's compliance status. The state and the message level are string
   * enums in the SDK (`""` when unset); the timestamp is of an abstract type.
   */
  datatype ComplianceStatus<Time> = ComplianceStatus(
    complianceState: string, lastConfigApplied: Option<Time>, message: Option<string>, messageLevel: string)

  /**
   * `flattenSourceControlComplianceStatus`. `formatRfc3339` stands for
   * `Time.Format(time.RFC3339)`.
   */
  function FlattenComplianceStatus<Time>(input: Option<ComplianceStatus<Time>>, formatRfc3339: Time -> string)
    : (r: seq<map<string, string>>)
    ensures input.None? ==> r == []
    ensures input.Some? ==> (|r| == 1 &&
      r[0].Keys == {ComplianceStateKey, LastConfigAppliedKey, MessageKey, MessageLevelKey} &&
      r[0][ComplianceStateKey] == input.value.complianceState &&
      r[0][MessageLevelKey] == input.value.messageLevel &&
      r[0][MessageKey] == input.value.message.GetOr("") &&
      r[0][LastConfigAppliedKey] == (match input.value.lastConfigApplied case None => "" case Some(t) => formatRfc3339(t)))
  {
    match input
    case None => []
    case Some(s) =>
      var complianceState := if s.complianceState != "" then s.complianceState else "";
      var lastConfigApplied := match s.lastConfigApplied case None => "" case Some(t) => formatRfc3339(t);
      var message := s.message.GetOr("");
      var messageLevel := if s.messageLevel != "" then s.messageLevel else "";
      [map[ComplianceStateKey := complianceState, LastConfigAppliedKey := lastConfigApplied,
           MessageKey := message, MessageLevelKey := messageLevel]]
  }
}
