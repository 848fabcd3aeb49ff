/**
 * The translation layer of `azurerm_workloads_sap_landscape_monitor`:
 * expand/flatten of the grouping block, of the SID-mapping lists inside it and
 * of the top-metrics thresholds. The list conversions append in a loop, so each
 * is a method proved against a specification function; the grouping ones call
 * them, so they are methods too.
 */
module SapLandscapeMonitor {
  import opened Wrappers

  /** A Go `float64`, by its bits: the thresholds are only copied, never computed with. */
  type Float64 = bv64

  /** The zero value of a Go `float64`, positive zero, has all bits clear. */
  const FloatZero: Float64 := 0

  // ---------------------------------------------------------------------------
  // Terraform-side models
  // ---------------------------------------------------------------------------

  datatype SidMappingModel = SidMappingModel(name: string, topSid: seq<string>)

  datatype GroupingModel = GroupingModel(landscape: seq<SidMappingModel>, sapApplication: seq<SidMappingModel>)

  datatype MetricThresholdsModel = MetricThresholdsModel(green: Float64, name: string, red: Float64, yellow: Float64)

  // ---------------------------------------------------------------------------
  // SDK-side values
  // ---------------------------------------------------------------------------

  datatype SidMapping = SidMapping(name: Option<string>, topSid: Option<seq<string>>)

  datatype Grouping = Grouping(landscape: Option<seq<SidMapping>>, sapApplication: Option<seq<SidMapping>>)

  datatype MetricThresholds = MetricThresholds(
    green: Option<Float64>, name: Option<string>, red: Option<Float64>, yellow: Option<Float64>)

  // ---------------------------------------------------------------------------
  // SID mappings
  // ---------------------------------------------------------------------------

  /** One SID mapping as the expand sends it: the top SIDs always, the name unless it is `""`. */
  function SidMappingOf(m: SidMappingModel): (s: SidMapping)
    ensures s.topSid == Some(m.topSid)
    ensures s.name.None? <==> m.name == ""
    ensures s.name.GetOr("") == m.name
  {
    SidMapping(name := if m.name != "" then Some(m.name) else None, topSid := Some(m.topSid))
  }

  /** What `expandSapLandscapeMonitorSidMappingModelArray` computes, inside its always-present pointer. */
  function ExpandedSidMappings(inputList: seq<SidMappingModel>): (r: seq<SidMapping>)
    ensures |r| == |inputList|
    ensures forall i :: 0 <= i < |r| ==> r[i] == SidMappingOf(inputList[i])
  {
    seq(|inputList|, i requires 0 <= i < |inputList| => SidMappingOf(inputList[i]))
  }

  /** `expandSapLandscapeMonitorSidMappingModelArray`: a list is always returned, empty or not. */
  method ExpandSidMappingArray(inputList: seq<SidMappingModel>) returns (outputList: Option<seq<SidMapping>>)
    ensures outputList == Some(ExpandedSidMappings(inputList))
  {
    var items: seq<SidMapping> := [];
    var i := 0;
    while i < |inputList|
      invariant 0 <= i <= |inputList|
      invariant |items| == i
      invariant forall j :: 0 <= j < i ==> items[j] == SidMappingOf(inputList[j])
    {
      var input := inputList[i];
      var output := SidMapping(name := None, topSid := Some(input.topSid));
      if input.name != "" {
        output := output.(name := Some(input.name));
      }
      items := items + [output];
      i := i + 1;
    }
    assert items == ExpandedSidMappings(inputList);
    outputList := Some(items);
  }

  /** One SID mapping as the flatten stores it: absent fields become `""` and the empty list. */
  function SidMappingModelOf(s: SidMapping): (m: SidMappingModel)
    ensures m.name == s.name.GetOr("") && m.topSid == s.topSid.GetOr([])
  {
    SidMappingModel(name := s.name.GetOr(""), topSid := s.topSid.GetOr([]))
  }

  /** What `flattenSapLandscapeMonitorSidMappingModelArray` computes: nil gives an empty list, else one block per element, in order. */
  function SidMappingModels(inputList: Option<seq<SidMapping>>): (r: seq<SidMappingModel>)
    ensures inputList.None? ==> r == []
    ensures inputList.Some? ==> (|r| == |inputList.value| &&
      forall i :: 0 <= i < |r| ==> r[i] == SidMappingModelOf(inputList.value[i]))
  {
    match inputList
    case None => []
    case Some(v) => seq(|v|, i requires 0 <= i < |v| => SidMappingModelOf(v[i]))
  }

  /** `flattenSapLandscapeMonitorSidMappingModelArray`. */
  method FlattenSidMappingArray(inputList: Option<seq<SidMapping>>) returns (outputList: seq<SidMappingModel>)
    ensures outputList == SidMappingModels(inputList)
  {
    outputList := [];
    if inputList.None? {
      return;
    }
    var items := inputList.value;
    var i := 0;
    while i < |items|
      invariant 0 <= i <= |items|
      invariant |outputList| == i
      invariant forall j :: 0 <= j < i ==> outputList[j] == SidMappingModelOf(items[j])
    {
      var input := items[i];
      var output := SidMappingModel(name := "", topSid := []);
      if input.name.Some? {
        output := output.(name := input.name.value);
      }
      if input.topSid.Some? {
        output := output.(topSid := input.topSid.value);
      }
      outputList := outputList + [output];
      i := i + 1;
    }
  }

  /** flatten after expand is the identity on SID-mapping lists, empty names included. */
  lemma SidMappingRoundTrip(inputList: seq<SidMappingModel>)
    ensures SidMappingModels(Some(ExpandedSidMappings(inputList))) == inputList
  {
  }

  /** expand after flatten gives the service's list back unless it held an empty name or no top SIDs. */
  lemma SidMappingFlattenExpand(v: seq<SidMapping>)
    requires forall i :: 0 <= i < |v| ==> v[i].name != Some("") && v[i].topSid.Some?
    ensures ExpandedSidMappings(SidMappingModels(Some(v))) == v
  {
    var back := ExpandedSidMappings(SidMappingModels(Some(v)));
    forall i | 0 <= i < |v|
      ensures back[i] == v[i]
    {
      assert back[i] == SidMappingOf(SidMappingModelOf(v[i]));
    }
  }

  // ---------------------------------------------------------------------------
  // Metric thresholds
  // ---------------------------------------------------------------------------

  /** One threshold block as the expand sends it: the three levels always, the name unless it is `""`. */
  function MetricThresholdsOf(m: MetricThresholdsModel): (t: MetricThresholds)
    ensures t.green == Some(m.green) && t.red == Some(m.red) && t.yellow == Some(m.yellow)
    ensures t.name.None? <==> m.name == ""
    ensures t.name.GetOr("") == m.name
  {
    MetricThresholds(
      green := Some(m.green), name := if m.name != "" then Some(m.name) else None,
      red := Some(m.red), yellow := Some(m.yellow))
  }

  /** What `expandSapLandscapeMonitorMetricThresholdsModelArray` computes, inside its always-present pointer. */
  function ExpandedMetricThresholds(inputList: seq<MetricThresholdsModel>): (r: seq<MetricThresholds>)
    ensures |r| == |inputList|
    ensures forall i :: 0 <= i < |r| ==> r[i] == MetricThresholdsOf(inputList[i])
  {
    seq(|inputList|, i requires 0 <= i < |inputList| => MetricThresholdsOf(inputList[i]))
  }

  /** `expandSapLandscapeMonitorMetricThresholdsModelArray`. */
  method ExpandMetricThresholdsArray(inputList: seq<MetricThresholdsModel>)
    returns (outputList: Option<seq<MetricThresholds>>)
    ensures outputList == Some(ExpandedMetricThresholds(inputList))
  {
    var items: seq<MetricThresholds> := [];
    var i := 0;
    while i < |inputList|
      invariant 0 <= i <= |inputList|
      invariant |items| == i
      invariant forall j :: 0 <= j < i ==> items[j] == MetricThresholdsOf(inputList[j])
    {
      var input := inputList[i];
      var output := MetricThresholds(green := Some(input.green), name := None, red := Some(input.red), yellow := Some(input.yellow));
      if input.name != "" {
        output := output.(name := Some(input.name));
      }
      items := items + [output];
      i := i + 1;
    }
    assert items == ExpandedMetricThresholds(inputList);
    outputList := Some(items);
  }

  /** One threshold block as the flatten stores it: absent levels become zero, an absent name `""`. */
  function MetricThresholdsModelOf(t: MetricThresholds): (m: MetricThresholdsModel)
    ensures m.green == t.green.GetOr(FloatZero) && m.red == t.red.GetOr(FloatZero)
    ensures m.yellow == t.yellow.GetOr(FloatZero) && m.name == t.name.GetOr("")
  {
    MetricThresholdsModel(
      green := t.green.GetOr(FloatZero), name := t.name.GetOr(""),
      red := t.red.GetOr(FloatZero), yellow := t.yellow.GetOr(FloatZero))
  }

  /** What `flattenSapLandscapeMonitorMetricThresholdsModelArray` computes: one block per element, in order. */
  function MetricThresholdsModels(inputList: Option<seq<MetricThresholds>>): (r: seq<MetricThresholdsModel>)
    ensures inputList.None? ==> r == []
    ensures inputList.Some? ==> (|r| == |inputList.value| &&
      forall i :: 0 <= i < |r| ==> r[i] == MetricThresholdsModelOf(inputList.value[i]))
  {
    match inputList
    case None => []
    case Some(v) => seq(|v|, i requires 0 <= i < |v| => MetricThresholdsModelOf(v[i]))
  }

  /** `flattenSapLandscapeMonitorMetricThresholdsModelArray`. */
  method FlattenMetricThresholdsArray(inputList: Option<seq<MetricThresholds>>)
    returns (outputList: seq<MetricThresholdsModel>)
    ensures outputList == MetricThresholdsModels(inputList)
  {
    outputList := [];
    if inputList.None? {
      return;
    }
    var items := inputList.value;
    var i := 0;
    while i < |items|
      invariant 0 <= i <= |items|
      invariant |outputList| == i
      invariant forall j :: 0 <= j < i ==> outputList[j] == MetricThresholdsModelOf(items[j])
    {
      var input := items[i];
      var output := MetricThresholdsModel(green := FloatZero, name := "", red := FloatZero, yellow := FloatZero);
      if input.green.Some? {
        output := output.(green := input.green.value);
      }
      if input.name.Some? {
        output := output.(name := input.name.value);
      }
      if input.red.Some? {
        output := output.(red := input.red.value);
      }
      if input.yellow.Some? {
        output := output.(yellow := input.yellow.value);
      }
      outputList := outputList + [output];
      i := i + 1;
    }
  }

  /** flatten after expand is the identity on threshold lists, empty names included. */
  lemma MetricThresholdsRoundTrip(inputList: seq<MetricThresholdsModel>)
    ensures MetricThresholdsModels(Some(ExpandedMetricThresholds(inputList))) == inputList
  {
  }

  // ---------------------------------------------------------------------------
  // Grouping
  // ---------------------------------------------------------------------------

  /** What `expandSapLandscapeMonitorPropertiesGroupingModel` computes. */
  function ExpandedGrouping(inputList: seq<GroupingModel>): (r: Option<Grouping>)
    ensures r.None? <==> inputList == []
    ensures r.Some? ==> (
      r.value.landscape == Some(ExpandedSidMappings(inputList[0].landscape)) &&
      r.value.sapApplication == Some(ExpandedSidMappings(inputList[0].sapApplication)))
  {
    if |inputList| == 0 then None
    else Some(Grouping(
      landscape := Some(ExpandedSidMappings(inputList[0].landscape)),
      sapApplication := Some(ExpandedSidMappings(inputList[0].sapApplication))))
  }

  /** `expandSapLandscapeMonitorPropertiesGroupingModel`: nil for an empty list, else both lists of the first block. */
  method ExpandGrouping(inputList: seq<GroupingModel>) returns (output: Option<Grouping>)
    ensures output == ExpandedGrouping(inputList)
  {
    if |inputList| == 0 {
      return None;
    }
    var input := inputList[0];
    var landscape := ExpandSidMappingArray(input.landscape);
    var sapApplication := ExpandSidMappingArray(input.sapApplication);
    output := Some(Grouping(landscape := landscape, sapApplication := sapApplication));
  }

  /** What `flattenSapLandscapeMonitorPropertiesGroupingModel` computes. */
  function FlattenedGrouping(input: Option<Grouping>): (r: seq<GroupingModel>)
    ensures input.None? ==> r == []
    ensures input.Some? ==> (|r| == 1 &&
      r[0].landscape == SidMappingModels(input.value.landscape) &&
      r[0].sapApplication == SidMappingModels(input.value.sapApplication))
  {
    match input
    case None => []
    case Some(g) =>
      [GroupingModel(landscape := SidMappingModels(g.landscape), sapApplication := SidMappingModels(g.sapApplication))]
  }

  /** `flattenSapLandscapeMonitorPropertiesGroupingModel`: empty for nil, else one block. */
  method FlattenGrouping(input: Option<Grouping>) returns (outputList: seq<GroupingModel>)
    ensures outputList == FlattenedGrouping(input)
  {
    if input.None? {
      return [];
    }
    var landscape := FlattenSidMappingArray(input.value.landscape);
    var sapApplication := FlattenSidMappingArray(input.value.sapApplication);
    outputList := [GroupingModel(landscape := landscape, sapApplication := sapApplication)];
  }

  /** flatten after expand gives back a grouping list of at most one block (the schema's `MaxItems`). */
  lemma {:induction false} GroupingRoundTrip(inputList: seq<GroupingModel>)
    requires |inputList| <= 1
    ensures FlattenedGrouping(ExpandedGrouping(inputList)) == inputList
  {
    if |inputList| == 1 {
      SidMappingRoundTrip(inputList[0].landscape);
      SidMappingRoundTrip(inputList[0].sapApplication);
      assert [inputList[0]] == inputList;
    }
  }
}
