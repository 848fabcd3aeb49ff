/**
 * The resource ID of a Kubernetes source control configuration: the
 * field-copying constructor, the `ID()` path it renders, its `String()`
 * description (Go's `%q` quoting included) and the checks the parser makes on
 * what the generic Azure resource-ID parser gives it.
 */
module SourceControlId {
  import opened Wrappers

  datatype SourceControlId = SourceControlId(
    subscriptionId: string,
    resourceGroup: string,
    clusterRp: string,
    clusterResourceName: string,
    clusterName: string,
    sourceControlConfigurationName: string)

  /** `NewKubernetesConfigurationSourceControlID`: each argument lands in its own field. */
  function NewSourceControlId(
    subscriptionId: string, resourceGroup: string, clusterRp: string, clusterResourceName: string,
    clusterName: string, sourceControlConfigurationName: string): (id: SourceControlId)
    ensures id.subscriptionId == subscriptionId && id.resourceGroup == resourceGroup
    ensures id.clusterRp == clusterRp && id.clusterResourceName == clusterResourceName
    ensures id.clusterName == clusterName && id.sourceControlConfigurationName == sourceControlConfigurationName
  {
    SourceControlId(
      subscriptionId := subscriptionId, resourceGroup := resourceGroup, clusterRp := clusterRp,
      clusterResourceName := clusterResourceName, clusterName := clusterName,
      sourceControlConfigurationName := sourceControlConfigurationName)
  }

  // ---------------------------------------------------------------------------
  // Joining and splitting on a separator
  // ---------------------------------------------------------------------------

  /** `strings.Join(segments, sep)`. */
  function Join(segments: seq<string>, sep: string): string
  {
    if |segments| == 0 then ""
    else if |segments| == 1 then segments[0]
    else segments[0] + sep + Join(segments[1..], sep)
  }

  /** `strings.Split(s, "/")`: never empty, one more piece than there are slashes. */
  function Split(s: string): (r: seq<string>)
    ensures |r| >= 1
  {
    if s == [] then [""]
    else
      var rest := Split(s[1..]);
      if s[0] == '/' then [""] + rest else [[s[0]] + rest[0]] + rest[1..]
  }

  lemma {:induction false} SplitNoSlash(x: string)
    requires '/' !in x
    ensures Split(x) == [x]
  {
    if x != [] {
      assert '/' !in x[1..];
      SplitNoSlash(x[1..]);
      assert [x[0]] + x[1..] == x;
    }
  }

  lemma {:induction false} SplitSlash(x: string, rest: string)
    requires '/' !in x
    ensures Split(x + "/" + rest) == [x] + Split(rest)
  {
    if x == [] {
      assert x + "/" + rest == "/" + rest;
      assert ("/" + rest)[1..] == rest;
    } else {
      assert (x + "/" + rest)[1..] == x[1..] + "/" + rest;
      assert '/' !in x[1..];
      SplitSlash(x[1..], rest);
      assert [x[0]] + x[1..] == x;
    }
  }

  /** Splitting undoes joining, as long as no piece holds the separator. */
  lemma {:induction false} SplitJoin(segments: seq<string>)
    requires |segments| >= 1
    requires forall i :: 0 <= i < |segments| ==> '/' !in segments[i]
    ensures Split(Join(segments, "/")) == segments
  {
    if |segments| == 1 {
      SplitNoSlash(segments[0]);
    } else {
      SplitJoin(segments[1..]);
      SplitSlash(segments[0], Join(segments[1..], "/"));
      assert [segments[0]] + segments[1..] == segments;
    }
  }

  // ---------------------------------------------------------------------------
  // ID()
  // ---------------------------------------------------------------------------

  const ClusterRpSegment: string := "Microsoft.ContainerService"
  const ClusterResourceSegment: string := "managedClusters"

  /**
   * The path segments of `ID()`, in order: keys at even positions, values at
   * odd ones. The provider and the cluster resource type are constants.
   */
  function IdSegments(id: SourceControlId): (r: seq<string>)
    ensures |r| == 12
  {
    ["subscriptions", id.subscriptionId, "resourceGroups", id.resourceGroup,
     "providers", ClusterRpSegment, ClusterResourceSegment, id.clusterName,
     "providers", "Microsoft.KubernetesConfiguration", "sourceControlConfigurations", id.sourceControlConfigurationName]
  }

  /** `ID()`: the segments of the format template, each preceded by a `/`. */
  function Id(id: SourceControlId): string
  {
    "/" + Join(IdSegments(id), "/")
  }

  lemma JoinCons(segments: seq<string>, sep: string)
    requires |segments| >= 2
    ensures Join(segments, sep) == segments[0] + sep + Join(segments[1..], sep)
  {
  }

  /** `ID()` does not look at the `ClusterRp` and `ClusterResourceName` fields. */
  lemma IdIgnoresClusterRpAndResourceName(id: SourceControlId, clusterRp: string, clusterResourceName: string)
    ensures Id(id.(clusterRp := clusterRp, clusterResourceName := clusterResourceName)) == Id(id)
  {
  }

  /** The fields `ID()` writes hold no `/`, as Azure names do not. */
  predicate SlashFree(id: SourceControlId)
  {
    '/' !in id.subscriptionId && '/' !in id.resourceGroup && '/' !in id.clusterName &&
    '/' !in id.sourceControlConfigurationName
  }

  lemma SplitId(id: SourceControlId)
    requires SlashFree(id)
    ensures |Id(id)| >= 1 && Split(Id(id)[1..]) == IdSegments(id)
  {
    assert Id(id)[1..] == Join(IdSegments(id), "/");
    SplitJoin(IdSegments(id));
  }

  /** Different IDs render differently: `ID()` loses none of the four fields it writes. */
  lemma IdInjective(a: SourceControlId, b: SourceControlId)
    requires SlashFree(a) && SlashFree(b) && Id(a) == Id(b)
    ensures a.subscriptionId == b.subscriptionId && a.resourceGroup == b.resourceGroup
    ensures a.clusterName == b.clusterName && a.sourceControlConfigurationName == b.sourceControlConfigurationName
  {
    SplitId(a);
    SplitId(b);
    assert IdSegments(a) == IdSegments(b);
    assert IdSegments(a)[1] == IdSegments(b)[1] && IdSegments(a)[3] == IdSegments(b)[3];
    assert IdSegments(a)[7] == IdSegments(b)[7] && IdSegments(a)[11] == IdSegments(b)[11];
  }

  // ---------------------------------------------------------------------------
  // Go's %q
  // ---------------------------------------------------------------------------

  function HexDigit(n: int): (c: char)
    requires 0 <= n < 16
  {
    if n < 10 then ('0' as int + n) as char else ('a' as int + n - 10) as char
  }

  function HexValue(c: char): Option<int>
  {
    if '0' <= c <= '9' then Some(c as int - '0' as int)
    else if 'a' <= c <= 'f' then Some(c as int - 'a' as int + 10)
    else if 'A' <= c <= 'F' then Some(c as int - 'A' as int + 10)
    else None
  }

  /**
   * How `strconv.Quote` writes one character: `\"` and `\\`, the C escapes for
   * bell, backspace, form feed, line feed, carriage return, tab and vertical tab,
   * `\xHH` for the other ASCII control characters and DEL, the character itself
   * otherwise.
   */
  function QuoteChar(c: char): string
  {
    var n := c as int;
    if c == '"' then "\\\""
    else if c == '\\' then "\\\\"
    else if n == 7 then "\\a"
    else if n == 8 then "\\b"
    else if n == 12 then "\\f"
    else if n == 10 then "\\n"
    else if n == 13 then "\\r"
    else if n == 9 then "\\t"
    else if n == 11 then "\\v"
    else if n < 32 || n == 127 then ['\\', 'x', HexDigit(n / 16), HexDigit(n % 16)]
    else [c]
  }

  function QuoteBody(s: string): string
  {
    if s == [] then "" else QuoteChar(s[0]) + QuoteBody(s[1..])
  }

  /** `fmt.Sprintf("%q", s)`. */
  function GoQuote(s: string): string
  {
    "\"" + QuoteBody(s) + "\""
  }

  /** The character a one-letter escape stands for. */
  function UnescapeLetter(c: char): Option<char>
  {
    if c == 'a' then Some(7 as char)
    else if c == 'b' then Some(8 as char)
    else if c == 'f' then Some(12 as char)
    else if c == 'n' then Some(10 as char)
    else if c == 'r' then Some(13 as char)
    else if c == 't' then Some(9 as char)
    else if c == 'v' then Some(11 as char)
    else if c == '\\' || c == '"' then Some(c)
    else None
  }

  /** Prepend a character to the value part of a read. */
  function Cons(c: char, read: Option<(string, string)>): Option<(string, string)>
  {
    match read
    case None => None
    case Some(p) => Some(([c] + p.0, p.1))
  }

  /**
   * Read a quoted string whose opening quote is already consumed: the decoded
   * value up to the closing quote, and what follows that quote.
   */
  function ReadQuotedBody(t: string): Option<(string, string)>
    decreases |t|
  {
    if t == [] then None
    else if t[0] == '"' then Some(("", t[1..]))
    else if t[0] != '\\' then Cons(t[0], ReadQuotedBody(t[1..]))
    else if |t| < 2 then None
    else if t[1] == 'x' then
      if |t| < 4 || HexValue(t[2]).None? || HexValue(t[3]).None? then None
      else Cons((HexValue(t[2]).value * 16 + HexValue(t[3]).value) as char, ReadQuotedBody(t[4..]))
    else
      match UnescapeLetter(t[1])
      case None => None
      case Some(c) => Cons(c, ReadQuotedBody(t[2..]))
  }

  function ReadQuoted(t: string): Option<(string, string)>
  {
    if |t| > 0 && t[0] == '"' then ReadQuotedBody(t[1..]) else None
  }

  lemma HexRoundTrip(n: int)
    requires 0 <= n < 16
    ensures HexValue(HexDigit(n)) == Some(n)
  {
  }

  lemma QuoteCharRead(c: char, more: string)
    ensures ReadQuotedBody(QuoteChar(c) + more) == Cons(c, ReadQuotedBody(more))
  {
    var n := c as int;
    var q := QuoteChar(c);
    if c == '"' || c == '\\' || n == 7 || n == 8 || n == 12 || n == 10 || n == 13 || n == 9 || n == 11 {
      assert |q| == 2 && q[0] == '\\' && q[1] != 'x';
      assert (q + more)[2..] == more;
    } else if n < 32 || n == 127 {
      HexRoundTrip(n / 16);
      HexRoundTrip(n % 16);
      assert (q + more)[4..] == more;
      assert (n / 16 * 16 + n % 16) as char == c;
    } else {
      assert q == [c];
      assert (q + more)[1..] == more;
    }
  }

  lemma {:induction false} QuoteBodyRead(s: string, rest: string)
    ensures ReadQuotedBody(QuoteBody(s) + "\"" + rest) == Some((s, rest))
  {
    if s == [] {
      assert QuoteBody(s) + "\"" + rest == "\"" + rest;
      assert ("\"" + rest)[1..] == rest;
    } else {
      assert QuoteBody(s) + "\"" + rest == QuoteChar(s[0]) + (QuoteBody(s[1..]) + "\"" + rest);
      QuoteCharRead(s[0], QuoteBody(s[1..]) + "\"" + rest);
      QuoteBodyRead(s[1..], rest);
      assert [s[0]] + s[1..] == s;
    }
  }

  /** A `%q` rendering can be read back: the value, and exactly the text after it. */
  lemma ReadGoQuote(s: string, rest: string)
    ensures ReadQuoted(GoQuote(s) + rest) == Some((s, rest))
  {
    assert (GoQuote(s) + rest)[1..] == QuoteBody(s) + "\"" + rest;
    QuoteBodyRead(s, rest);
  }

  // ---------------------------------------------------------------------------
  // String()
  // ---------------------------------------------------------------------------

  const DescriptionPrefix: string := "Kubernetes Configuration Source Control Configuration"

  /** The labels `String()` puts before its five quoted fields, in order. */
  const StringTags: seq<string> :=
    ["Source Control Configuration Name ", "Cluster Name ", "Cluster Resource Name ", "Cluster RP ", "Resource Group "]

  /** The fields `String()` shows, in the order of `StringTags`. */
  function StringFields(id: SourceControlId): seq<string>
  {
    [id.sourceControlConfigurationName, id.clusterName, id.clusterResourceName, id.clusterRp, id.resourceGroup]
  }

  /** Each field quoted with `%q` behind its label. */
  function Labelled(tags: seq<string>, fields: seq<string>): (r: seq<string>)
    requires |tags| == |fields|
    ensures |r| == |tags|
  {
    if |tags| == 0 then [] else [tags[0] + GoQuote(fields[0])] + Labelled(tags[1..], fields[1..])
  }

  /** `String()`: five labelled, quoted fields joined by `" / "` under a fixed prefix. */
  function String(id: SourceControlId): string
  {
    DescriptionPrefix + ": (" + Join(Labelled(StringTags, StringFields(id)), " / ") + ")"
  }

  /** The description does not mention the subscription. */
  lemma StringOmitsSubscription(id: SourceControlId, subscriptionId: string)
    ensures String(id.(subscriptionId := subscriptionId)) == String(id)
  {
  }

  /** Equal literal text, then equal text after a quoted field: the fields are equal too. */
  lemma PeelQuoted(p: string, x: string, r: string, y: string, q: string)
    requires p + GoQuote(x) + r == p + GoQuote(y) + q
    ensures x == y && r == q
  {
    var t := p + GoQuote(x) + r;
    assert t[|p|..] == GoQuote(x) + r;
    assert t[|p|..] == GoQuote(y) + q;
    ReadGoQuote(x, r);
    ReadGoQuote(y, q);
  }

  lemma Assoc(a: string, b: string, c: string)
    ensures a + (b + c) == a + b + c
  {
  }

  /** Joining a head onto at least one more segment, regrouped around the head. */
  lemma JoinedHead(pre: string, head: string, rest: seq<string>)
    requires |rest| >= 1
    ensures pre + Join([head] + rest, " / ") + ")" == pre + head + (" / " + Join(rest, " / ") + ")")
  {
    JoinCons([head] + rest, " / ");
    assert ([head] + rest)[1..] == rest;
    var j := Join(rest, " / ");
    calc {
      pre + Join([head] + rest, " / ") + ")";
      pre + (head + " / " + j) + ")";
      { Assoc(head, " / ", j); }
      pre + (head + (" / " + j)) + ")";
      { Assoc(pre, head, " / " + j); }
      pre + head + (" / " + j) + ")";
      { Assoc(pre + head, " / " + j, ")"); }
      pre + head + (" / " + j + ")");
    }
  }

  /**
   * One step through two equal descriptions: the first joined field is equal,
   * and so is what follows it.
   */
  lemma PeelJoined(pre: string, tag: string, x: string, y: string, sa: seq<string>, sb: seq<string>)
    requires |sa| >= 1 && |sb| >= 1
    requires pre + Join([tag + GoQuote(x)] + sa, " / ") + ")" == pre + Join([tag + GoQuote(y)] + sb, " / ") + ")"
    ensures x == y && " / " + Join(sa, " / ") + ")" == " / " + Join(sb, " / ") + ")"
  {
    var qx, qy := GoQuote(x), GoQuote(y);
    var rx, ry := " / " + Join(sa, " / ") + ")", " / " + Join(sb, " / ") + ")";
    JoinedHead(pre, tag + qx, sa);
    JoinedHead(pre, tag + qy, sb);
    Assoc(pre, tag, qx);
    Assoc(pre, tag, qy);
    assert pre + tag + qx + rx == pre + tag + qy + ry;
    PeelQuoted(pre + tag, x, rx, y, ry);
  }

  /** Labelled quoted fields joined under the same text determine the fields. */
  lemma {:induction false} LabelledInjective(pre: string, tags: seq<string>, xs: seq<string>, ys: seq<string>)
    requires |tags| >= 1 && |tags| == |xs| == |ys|
    requires pre + Join(Labelled(tags, xs), " / ") + ")" == pre + Join(Labelled(tags, ys), " / ") + ")"
    ensures xs == ys
    decreases |tags|
  {
    var la, lb := Labelled(tags, xs), Labelled(tags, ys);
    if |tags| == 1 {
      assert Join(la, " / ") == tags[0] + GoQuote(xs[0]);
      assert Join(lb, " / ") == tags[0] + GoQuote(ys[0]);
      Assoc(pre, tags[0], GoQuote(xs[0]));
      Assoc(pre, tags[0], GoQuote(ys[0]));
      PeelQuoted(pre + tags[0], xs[0], ")", ys[0], ")");
      assert xs == [xs[0]] && ys == [ys[0]];
    } else {
      var ra, rb := Labelled(tags[1..], xs[1..]), Labelled(tags[1..], ys[1..]);
      assert la == [tags[0] + GoQuote(xs[0])] + ra;
      assert lb == [tags[0] + GoQuote(ys[0])] + rb;
      PeelJoined(pre, tags[0], xs[0], ys[0], ra, rb);
      LabelledInjective(" / ", tags[1..], xs[1..], ys[1..]);
      assert xs == [xs[0]] + xs[1..] && ys == [ys[0]] + ys[1..];
    }
  }

  /**
   * The description determines every field it shows: equal descriptions mean
   * equal name, cluster name, cluster resource name, cluster RP and resource group.
   */
  lemma StringDeterminesFields(a: SourceControlId, b: SourceControlId)
    requires String(a) == String(b)
    ensures a.sourceControlConfigurationName == b.sourceControlConfigurationName
    ensures a.clusterName == b.clusterName && a.clusterResourceName == b.clusterResourceName
    ensures a.clusterRp == b.clusterRp && a.resourceGroup == b.resourceGroup
  {
    LabelledInjective(DescriptionPrefix + ": (", StringTags, StringFields(a), StringFields(b));
    assert StringFields(a)[0] == StringFields(b)[0] && StringFields(a)[1] == StringFields(b)[1];
    assert StringFields(a)[2] == StringFields(b)[2] && StringFields(a)[3] == StringFields(b)[3];
    assert StringFields(a)[4] == StringFields(b)[4];
  }

  // ---------------------------------------------------------------------------
  // Parsing
  // ---------------------------------------------------------------------------

  /**
   * What the generic Azure resource-ID parser hands over: the subscription, the
   * resource group, and the remaining key/value segments of the path.
   */
  datatype ResourceIdParts = ResourceIdParts(subscriptionId: string, resourceGroup: string, path: map<string, string>)

  datatype ParseError = MissingSubscription | MissingResourceGroup | MissingSegment(key: string) | ExtraSegments

  /** `PopSegment`: take the value under `key` out of the path, or fail when it is missing. */
  function PopSegment(path: map<string, string>, key: string): (r: Result<(string, map<string, string>), ParseError>)
    ensures r.Success? <==> key in path
    ensures r.Success? ==> r.value.0 == path[key] && r.value.1 == path - {key}
    ensures r.Failure? ==> r.error == MissingSegment(key)
  {
    if key in path then Success((path[key], path - {key})) else Failure(MissingSegment(key))
  }

  /** `ValidateNoEmptySegments`: nothing may be left over. */
  function ValidateNoEmptySegments(path: map<string, string>): (r: Outcome<ParseError>)
    ensures r.Pass? <==> |path| == 0
  {
    if |path| == 0 then Pass else Fail(ExtraSegments)
  }

  const ConfigurationsKey: string := "sourceControlConfigurations"

  /**
   * The body of `KubernetesConfigurationSourceControlID`, with the path key under
   * which the cluster name is looked up as a parameter.
   */
  function ParseWithClusterKey(parts: ResourceIdParts, clusterKey: string): (r: Result<SourceControlId, ParseError>)
    requires clusterKey != ConfigurationsKey
    ensures parts.subscriptionId == "" ==> r == Failure(MissingSubscription)
    ensures parts.subscriptionId != "" && parts.resourceGroup == "" ==> r == Failure(MissingResourceGroup)
    ensures r.Success? <==>
      parts.subscriptionId != "" && parts.resourceGroup != "" && parts.path.Keys == {clusterKey, ConfigurationsKey}
    ensures r.Success? ==>
      r.value == NewSourceControlId(parts.subscriptionId, parts.resourceGroup, "", "",
        parts.path[clusterKey], parts.path[ConfigurationsKey])
  {
    if parts.subscriptionId == "" then Failure(MissingSubscription)
    else if parts.resourceGroup == "" then Failure(MissingResourceGroup)
    else
      match PopSegment(parts.path, clusterKey)
      case Failure(e) => Failure(e)
      case Success(cluster) =>
        match PopSegment(cluster.1, ConfigurationsKey)
        case Failure(e) => Failure(e)
        case Success(name) =>
          match ValidateNoEmptySegments(name.1)
          case Fail(e) => Failure(e)
          case Pass =>
            assert parts.path.Keys == {clusterKey, ConfigurationsKey} by {
              assert name.1 == parts.path - {clusterKey} - {ConfigurationsKey};
              assert forall k :: k in parts.path ==> k == clusterKey || k == ConfigurationsKey || k in name.1;
            }
            Success(NewSourceControlId(parts.subscriptionId, parts.resourceGroup, "", "", cluster.0, name.0))
  }

  /** The cluster key the parser looks up, as written. */
  const AsWrittenClusterKey: string := "clusterResource1"

  /** `KubernetesConfigurationSourceControlID`, as written. */
  function ParseSourceControlId(parts: ResourceIdParts): Result<SourceControlId, ParseError>
  {
    ParseWithClusterKey(parts, AsWrittenClusterKey)
  }

  /** The keys of a path: every segment at an even position. */
  function KeySegments(segments: seq<string>): set<string>
    decreases |segments|
  {
    if |segments| < 2 then {} else {segments[0]} + KeySegments(segments[2..])
  }

  lemma IdKeySegments(id: SourceControlId)
    ensures KeySegments(IdSegments(id)) ==
      {"subscriptions", "resourceGroups", "providers", ClusterResourceSegment, ConfigurationsKey}
  {
    var s := IdSegments(id);
    assert KeySegments(s[10..]) == {s[10]} by { assert s[10..][2..] == []; }
    assert KeySegments(s[8..]) == {s[8]} + KeySegments(s[10..]) by { assert s[8..][2..] == s[10..]; }
    assert KeySegments(s[6..]) == {s[6]} + KeySegments(s[8..]) by { assert s[6..][2..] == s[8..]; }
    assert KeySegments(s[4..]) == {s[4]} + KeySegments(s[6..]) by { assert s[4..][2..] == s[6..]; }
    assert KeySegments(s[2..]) == {s[2]} + KeySegments(s[4..]) by { assert s[2..][2..] == s[4..]; }
    assert KeySegments(s) == {s[0]} + KeySegments(s[2..]);
  }

  /**
   * As written, no ID that `ID()` renders parses: whatever the generic parser
   * keeps of the path, its keys come from the even-position segments, and
   * `clusterResource1` is never one of them.
   */
  lemma ParseRejectsRenderedIds(id: SourceControlId, parts: ResourceIdParts)
    requires SlashFree(id)
    requires |Id(id)| >= 1 && parts.path.Keys <= KeySegments(Split(Id(id)[1..]))
    ensures ParseSourceControlId(parts).Failure?
  {
    SplitId(id);
    IdKeySegments(id);
    assert AsWrittenClusterKey !in parts.path.Keys;
  }

  /** The same with a concrete ID. */
  lemma ParseRejectsExampleId()
    ensures var id := NewSourceControlId("sub1", "group1", ClusterRpSegment, ClusterResourceSegment, "cluster1", "config1");
      forall parts: ResourceIdParts :: parts.path.Keys <= KeySegments(Split(Id(id)[1..])) ==> ParseSourceControlId(parts).Failure?
  {
    var id := NewSourceControlId("sub1", "group1", ClusterRpSegment, ClusterResourceSegment, "cluster1", "config1");
    assert SlashFree(id);
    SplitId(id);
    forall parts: ResourceIdParts | parts.path.Keys <= KeySegments(Split(Id(id)[1..]))
      ensures ParseSourceControlId(parts).Failure?
    {
      ParseRejectsRenderedIds(id, parts);
    }
  }

  /** The parser with the key `ID()` actually writes for the cluster. */
  function ParseSourceControlIdCorrected(parts: ResourceIdParts): Result<SourceControlId, ParseError>
  {
    ParseWithClusterKey(parts, ClusterResourceSegment)
  }

  /**
   * The path left of `ID()` once the generic parser has taken out the
   * subscription, the resource group and the provider segments.
   */
  function RenderedParts(id: SourceControlId): (parts: ResourceIdParts)
  {
    ResourceIdParts(id.subscriptionId, id.resourceGroup,
      map[ClusterResourceSegment := id.clusterName, ConfigurationsKey := id.sourceControlConfigurationName])
  }

  lemma RenderedPartsAreKeySegments(id: SourceControlId)
    requires SlashFree(id)
    ensures |Id(id)| >= 1 && RenderedParts(id).path.Keys <= KeySegments(Split(Id(id)[1..]))
  {
    SplitId(id);
    IdKeySegments(id);
  }

  /**
   * With the corrected key, parsing what `ID()` renders gives back the ID: the
   * same subscription, resource group, cluster and name, hence the same `ID()`.
   */
  lemma CorrectedParseRoundTrip(id: SourceControlId)
    requires id.subscriptionId != "" && id.resourceGroup != ""
    ensures ParseSourceControlIdCorrected(RenderedParts(id)).Success?
    ensures var parsed := ParseSourceControlIdCorrected(RenderedParts(id)).value;
      parsed.subscriptionId == id.subscriptionId && parsed.resourceGroup == id.resourceGroup &&
      parsed.clusterName == id.clusterName && parsed.sourceControlConfigurationName == id.sourceControlConfigurationName &&
      Id(parsed) == Id(id)
  {
    assert RenderedParts(id).path.Keys == {ClusterResourceSegment, ConfigurationsKey};
  }
}
