/** config/service_monitor.go: translation of a ServiceMonitor into one agent
    instance config per endpoint, each with one scrape job whose relabel
    pipeline has a fixed order.

    The specification functions take a `Variant`: the live translation
    (`Live`) and the older copy in operator/service_monitor_converter.go
    (`Legacy`) differ only in the target limit and in the target label of the
    target-port display rule, so both are described once. */
module Translation {
  import opened Wrappers
  import opened Text
  import opened Monitoring
  import opened Writer

  datatype Variant = Live | Legacy

  const ServiceLabelPrefix := "__meta_kubernetes_service_label_"
  const PodLabelPrefix := "__meta_kubernetes_pod_label_"
  const PortLabelPrefix := "__meta_kubernetes_endpoint_port_"
  const PortNameLabel := "__meta_kubernetes_endpoint_port_name"
  const PortNumberLabel := "__meta_kubernetes_endpoint_port_number"
  const TargetKindLabel := "__meta_kubernetes_endpoint_address_target_kind"
  const TargetNameLabel := "__meta_kubernetes_endpoint_address_target_name"
  const NamespaceLabel := "__meta_kubernetes_namespace"
  const ServiceNameLabel := "__meta_kubernetes_service_name"
  const PodNameLabel := "__meta_kubernetes_pod_name"
  const ContainerNameLabel := "__meta_kubernetes_pod_container_name"

  /** The name of the instance config and of its job: `{namespace}/{name}/{i}`. */
  function JobName(sm: ServiceMonitor, i: nat): string {
    sm.namespace + "/" + sm.name + "/" + Itoa(i)
  }

  /** A keep or drop rule on one source label. */
  function SelectRule(action: string, source: string, pattern: string): Rule {
    Rule([source], "", Some(Regexp(pattern)), 0, "", "", action)
  }

  // ---------------------------------------------------------------- selector

  /** Some enumeration of a set (Go's map iteration order is unspecified). */
  ghost function SetToSeq(keys: set<string>): (s: seq<string>)
    ensures multiset(s) == multiset(keys)
  {
    if keys == {} then []
    else
      var x :| x in keys;
      assert keys == (keys - {x}) + {x};
      [x] + SetToSeq(keys - {x})
  }

  /** The label keys in ascending byte order. */
  ghost function SortedKeys(keys: set<string>): seq<string> {
    Sort(SetToSeq(keys))
  }

  lemma CountAtLeastTwo(s: seq<string>, i: nat, j: nat)
    requires i < j < |s|
    ensures s[i] == s[j] ==> multiset(s)[s[i]] >= 2
  {
    assert s == s[..j] + s[j..];
    assert s[i] in multiset(s[..j]) && s[j] in multiset(s[j..]);
  }

  lemma SortedKeysMembers(keys: set<string>)
    ensures forall x :: x in SortedKeys(keys) ==> x in keys
  {
    var s := SortedKeys(keys);
    forall x | x in s
      ensures x in keys
    {
      assert x in multiset(s);
    }
  }

  /** The sorted keys are exactly the keys, each once, strictly ascending. */
  lemma SortedKeysSpec(keys: set<string>)
    ensures |SortedKeys(keys)| == |keys|
    ensures forall x :: x in SortedKeys(keys) <==> x in keys
    ensures forall i, j :: 0 <= i < j < |SortedKeys(keys)| ==> Below(SortedKeys(keys)[i], SortedKeys(keys)[j])
  {
    var s := SortedKeys(keys);
    assert multiset(s) == multiset(keys);
    assert |multiset(s)| == |s|;
    forall x
      ensures x in s <==> x in keys
    {
      assert x in s <==> x in multiset(s);
    }
    forall i, j | 0 <= i < j < |s|
      ensures Below(s[i], s[j])
    {
      CountAtLeastTwo(s, i, j);
      assert multiset(keys)[s[i]] <= 1;
    }
  }

  function MatchLabelRule(m: map<string, string>, key: string): Rule
    requires key in m
  {
    SelectRule(Keep, ServiceLabelPrefix + SafeLabelName(key), m[key])
  }

  function MatchLabelRules(m: map<string, string>, keys: seq<string>): seq<Rule>
    requires forall k :: k in keys ==> k in m
  {
    seq(|keys|, j requires 0 <= j < |keys| => MatchLabelRule(m, keys[j]))
  }

  /** The rule for one match expression: at most one rule; an operator other
      than In, NotIn, Exists and DoesNotExist gives none. */
  function ExpressionRule(e: Requirement): seq<Rule> {
    var source := ServiceLabelPrefix + SafeLabelName(e.key);
    if e.operator == OpIn then [SelectRule(Keep, source, Join(e.values, "|"))]
    else if e.operator == OpNotIn then [SelectRule(Drop, source, Join(e.values, "|"))]
    else if e.operator == OpExists then [SelectRule(Keep, source, ".*")]
    else if e.operator == OpDoesNotExist then [SelectRule(Drop, source, ".*")]
    else []
  }

  function ExpressionRules(es: seq<Requirement>): seq<Rule> {
    if es == [] then [] else ExpressionRules(es[..|es| - 1]) + ExpressionRule(es[|es| - 1])
  }

  // ---------------------------------------------------------------- ports

  /** The port filter: named port first, then a target port by name or number. */
  function PortRules(ep: Endpoint): seq<Rule> {
    if ep.port != "" then [SelectRule(Keep, PortNameLabel, ep.port)]
    else if ep.targetPort.Some? then
      if ep.targetPort.value.strVal != "" then [SelectRule(Keep, PortNameLabel, ep.targetPort.value.String())]
      else if ep.targetPort.value.intVal != 0 then [SelectRule(Keep, PortNumberLabel, ep.targetPort.value.String())]
      else []
    else []
  }

  // ---------------------------------------------------------------- fixed rules

  function ConstantRules(): seq<Rule> {
    [ Rule([TargetKindLabel, TargetNameLabel], ";", Some(Regexp("Node;(.*)")), 0, "node", "${1}", ""),
      Rule([TargetKindLabel, TargetNameLabel], ";", Some(Regexp("Pod;(.*)")), 0, "pod", "${1}", ""),
      Rule([NamespaceLabel], "", None, 0, "namespace", "", ""),
      Rule([ServiceNameLabel], "", None, 0, "service_name", "", ""),
      Rule([PodNameLabel], "", None, 0, "pod", "", ""),
      Rule([ContainerNameLabel], "", None, 0, "container", "", "") ]
  }

  /** Copies a (sanitised) service or pod label onto the target when non-empty. */
  function CopyLabelRule(prefix: string, key: string): Rule {
    Rule([prefix + SafeLabelName(key)], "", Some(Regexp("(.+)")), 0, SafeLabelName(key), "${1}", "")
  }

  function CopyLabelRules(prefix: string, labels: seq<string>): seq<Rule> {
    seq(|labels|, j requires 0 <= j < |labels| => CopyLabelRule(prefix, labels[j]))
  }

  const DefaultJobRule := Rule([ServiceNameLabel], "", None, 0, "job", "${1}", "")

  function JobLabelRule(jobLabel: string): Rule {
    Rule([ServiceLabelPrefix + SafeLabelName(jobLabel)], "", Some(Regexp("(.+)")), 0, "job", "${1}", "")
  }

  function JobRules(sm: ServiceMonitor): seq<Rule> {
    [DefaultJobRule] + (if sm.spec.jobLabel != "" then [JobLabelRule(sm.spec.jobLabel)] else [])
  }

  /** The target label the display rule writes for a target port. */
  function DisplayLabel(v: Variant): string {
    if v.Live? then "endpoint" else ""
  }

  function EndpointLabelRules(v: Variant, ep: Endpoint): seq<Rule> {
    if ep.port != "" then [Rule([], "", None, 0, "endpoint", ep.port, "")]
    else if ep.targetPort.Some? && ep.targetPort.value.String() != "" then
      [Rule([], "", None, 0, DisplayLabel(v), ep.targetPort.value.String(), "")]
    else []
  }

  // ---------------------------------------------------------------- the job

  ghost function SelectorRules(sm: ServiceMonitor): seq<Rule> {
    var m := sm.spec.selector.matchLabels;
    SortedKeysMembers(m.Keys);
    MatchLabelRules(m, SortedKeys(m.Keys)) + ExpressionRules(sm.spec.selector.matchExpressions)
  }

  /** The whole relabel pipeline of one endpoint's job, in emission order. */
  ghost function Pipeline(v: Variant, sm: ServiceMonitor, ep: Endpoint): seq<Rule> {
    SelectorRules(sm)
    + PortRules(ep)
    + ConstantRules()
    + CopyLabelRules(ServiceLabelPrefix, sm.spec.targetLabels)
    + CopyLabelRules(PodLabelPrefix, sm.spec.podTargetLabels)
    + JobRules(sm)
    + EndpointLabelRules(v, ep)
    + ConvertRelabels(ep.relabelConfigs)
    + ConvertRelabels(ep.metricRelabelConfigs)
  }

  function ParseDurationOrZero(p: Parsers, s: string): int {
    p.duration(s).GetOr(0)
  }

  /** The scrape job of one endpoint with an empty relabel pipeline. */
  function ScrapeHeader(v: Variant, p: Parsers, sm: ServiceMonitor, ep: Endpoint, i: nat): ScrapeConfig {
    ScrapeConfig(
      JobName(sm, i),
      ep.honorLabels,
      ep.honorTimestamps.GetOr(false),
      [SdConfig(EffectiveNamespaceSelector(sm))],
      sm.spec.sampleLimit,
      if v.Live? then sm.spec.targetLimit else 0,
      if ep.interval != "" then ParseDurationOrZero(p, ep.interval) else 0,
      if ep.scrapeTimeout != "" then ParseDurationOrZero(p, ep.scrapeTimeout) else 0,
      ep.path,
      ep.scheme,
      ep.params,
      EndpointHTTPConfig(p, ep),
      [])
  }

  /** The client settings of one endpoint's job: proxy, TLS and bearer token. */
  function EndpointHTTPConfig(p: Parsers, ep: Endpoint): HTTPClientConfig {
    HTTPClientConfig(
      if ep.proxyURL.Some? then p.url(ep.proxyURL.value) else None,
      if ep.tlsConfig.Some? then TLS(ep.tlsConfig.value.insecureSkipVerify, ep.tlsConfig.value.serverName)
      else TLS(false, ""),
      ep.bearerTokenFile)
  }

  ghost function EndpointScrapeConfig(v: Variant, p: Parsers, sm: ServiceMonitor, ep: Endpoint, i: nat): ScrapeConfig {
    ScrapeHeader(v, p, sm, ep, i).(relabelConfigs := Pipeline(v, sm, ep))
  }

  ghost function EndpointInstance(v: Variant, rw: RemoteWriteConfig, p: Parsers, sm: ServiceMonitor, ep: Endpoint, i: nat): InstanceConfig {
    InstanceConfig(JobName(sm, i), [EndpointScrapeConfig(v, p, sm, ep, i)], [rw])
  }

  /** The translation of a whole ServiceMonitor: one instance per endpoint. */
  ghost function Translate(v: Variant, rw: RemoteWriteConfig, p: Parsers, sm: ServiceMonitor): seq<InstanceConfig> {
    var eps := sm.spec.endpoints;
    seq(|eps|, i requires 0 <= i < |eps| => EndpointInstance(v, rw, p, sm, eps[i], i))
  }

  /** A sequence with one instance per endpoint, each the endpoint's own, is the translation. */
  lemma TranslateByElements(v: Variant, rw: RemoteWriteConfig, p: Parsers, sm: ServiceMonitor, s: seq<InstanceConfig>)
    requires |s| == |sm.spec.endpoints|
    requires forall j :: 0 <= j < |s| ==> s[j] == EndpointInstance(v, rw, p, sm, sm.spec.endpoints[j], j)
    ensures s == Translate(v, rw, p, sm)
  {
  }
}

module ServiceMonitorWriter {
  import opened Wrappers
  import opened Text
  import opened Monitoring
  import opened Writer
  import opened Translation

  /** Collects the keys of the match labels in map order, then sorts them. */
  method CollectSortedKeys(m: map<string, string>) returns (keys: seq<string>)
    ensures keys == SortedKeys(m.Keys)
  {
    var labelKeys: seq<string> := [];
    var rest := m.Keys;
    while rest != {}
      invariant rest <= m.Keys
      invariant multiset(labelKeys) == multiset(m.Keys - rest)
      decreases |rest|
    {
      var k :| k in rest;
      assert m.Keys - (rest - {k}) == (m.Keys - rest) + {k};
      labelKeys := labelKeys + [k];
      rest := rest - {k};
    }
    assert m.Keys - rest == m.Keys;
    keys := Sort(labelKeys);
    SortDependsOnElements(labelKeys, SetToSeq(m.Keys));
  }

  /** Appends one keep rule per match label, in the order of `keys`. */
  method AppendMatchLabelRules(rules: seq<Rule>, m: map<string, string>, keys: seq<string>) returns (r: seq<Rule>)
    requires forall k :: k in keys ==> k in m
    ensures r == rules + MatchLabelRules(m, keys)
  {
    r := rules;
    for j := 0 to |keys|
      invariant r == rules + MatchLabelRules(m, keys[..j])
    {
      assert MatchLabelRules(m, keys[..j + 1]) == MatchLabelRules(m, keys[..j]) + [MatchLabelRule(m, keys[j])];
      r := r + [SelectRule(Keep, ServiceLabelPrefix + SafeLabelName(keys[j]), m[keys[j]])];
    }
    assert keys[..|keys|] == keys;
  }

  /** Appends the rule of each match expression, in order. */
  method AppendMatchExpressionRules(rules: seq<Rule>, es: seq<Requirement>) returns (r: seq<Rule>)
    ensures r == rules + ExpressionRules(es)
  {
    r := rules;
    for j := 0 to |es|
      invariant r == rules + ExpressionRules(es[..j])
    {
      assert es[..j + 1][..j] == es[..j];
      var e := es[j];
      var source := ServiceLabelPrefix + SafeLabelName(e.key);
      if e.operator == OpIn {
        r := r + [SelectRule(Keep, source, Join(e.values, "|"))];
      } else if e.operator == OpNotIn {
        r := r + [SelectRule(Drop, source, Join(e.values, "|"))];
      } else if e.operator == OpExists {
        r := r + [SelectRule(Keep, source, ".*")];
      } else if e.operator == OpDoesNotExist {
        r := r + [SelectRule(Drop, source, ".*")];
      }
    }
    assert es[..|es|] == es;
  }

  /** Appends one copy rule per label name, in order. */
  method AppendCopyLabelRules(rules: seq<Rule>, prefix: string, labels: seq<string>) returns (r: seq<Rule>)
    ensures r == rules + CopyLabelRules(prefix, labels)
  {
    r := rules;
    for j := 0 to |labels|
      invariant r == rules + CopyLabelRules(prefix, labels[..j])
    {
      assert CopyLabelRules(prefix, labels[..j + 1]) == CopyLabelRules(prefix, labels[..j]) + [CopyLabelRule(prefix, labels[j])];
      var l := SafeLabelName(labels[j]);
      r := r + [Rule([prefix + l], "", Some(Regexp("(.+)")), 0, l, "${1}", "")];
    }
    assert labels[..|labels|] == labels;
  }

  /** The client settings, each copied only when it is set. */
  method MakeHTTPClientConfig(p: Parsers, ep: Endpoint) returns (http: HTTPClientConfig)
    ensures http == EndpointHTTPConfig(p, ep)
  {
    http := EmptyHTTPClientConfig;
    if ep.proxyURL.Some? {
      http := http.(proxyURL := p.url(ep.proxyURL.value));
    }
    if ep.tlsConfig.Some? {
      http := http.(tls := http.tls.(insecureSkipVerify := ep.tlsConfig.value.insecureSkipVerify));
      http := http.(tls := http.tls.(serverName := ep.tlsConfig.value.serverName));
    }
    if ep.bearerTokenFile != "" {
      http := http.(bearerTokenFile := ep.bearerTokenFile);
    }
  }

  /** The scrape job of endpoint `i` before any relabel rule: the scalar
      fields, each optional one copied only when it is set. */
  method NewScrapeConfig(v: Variant, p: Parsers, sm: ServiceMonitor, ep: Endpoint, i: nat) returns (sc: ScrapeConfig)
    ensures sc == ScrapeHeader(v, p, sm, ep, i)
  {
    var honorTimestamps := false;
    if ep.honorTimestamps.Some? {
      honorTimestamps := ep.honorTimestamps.value;
    }
    var name := JobName(sm, i);
    var namespaces := EffectiveNamespaceSelector(sm);
    var targetLimit := 0;
    if v.Live? {
      targetLimit := sm.spec.targetLimit;
    }
    var interval, timeout := 0, 0;
    if ep.interval != "" {
      interval := p.duration(ep.interval).GetOr(0);
    }
    if ep.scrapeTimeout != "" {
      timeout := p.duration(ep.scrapeTimeout).GetOr(0);
    }
    var path, scheme, params := "", "", None;
    if ep.path != "" {
      path := ep.path;
    }
    if ep.params.Some? {
      params := ep.params;
    }
    if ep.scheme != "" {
      scheme := ep.scheme;
    }
    var http := MakeHTTPClientConfig(p, ep);
    sc := ScrapeConfig(name, ep.honorLabels, honorTimestamps, [SdConfig(namespaces)],
                       sm.spec.sampleLimit, targetLimit, interval, timeout, path, scheme, params, http, []);
  }

  /** The selector's rules: match labels in key order, then expressions. */
  method MakeSelectorRules(sm: ServiceMonitor) returns (r: seq<Rule>)
    ensures r == SelectorRules(sm)
  {
    var m := sm.spec.selector.matchLabels;
    var labelKeys := CollectSortedKeys(m);
    SortedKeysMembers(m.Keys);
    var ml := AppendMatchLabelRules([], m, labelKeys);
    var ex := AppendMatchExpressionRules([], sm.spec.selector.matchExpressions);
    assert ml == MatchLabelRules(m, SortedKeys(m.Keys)) by {
      assert [] + MatchLabelRules(m, labelKeys) == MatchLabelRules(m, labelKeys);
    }
    assert ex == ExpressionRules(sm.spec.selector.matchExpressions) by {
      assert [] + ExpressionRules(sm.spec.selector.matchExpressions) == ExpressionRules(sm.spec.selector.matchExpressions);
    }
    r := ml + ex;
  }

  /** Appends the port filter. */
  method AppendPortRules(rules: seq<Rule>, ep: Endpoint) returns (r: seq<Rule>)
    ensures r == rules + PortRules(ep)
  {
    r := rules;
    if ep.port != "" {
      r := r + [SelectRule(Keep, PortNameLabel, ep.port)];
    } else if ep.targetPort.Some? {
      if ep.targetPort.value.strVal != "" {
        r := r + [SelectRule(Keep, PortNameLabel, ep.targetPort.value.String())];
      } else if ep.targetPort.value.intVal != 0 {
        r := r + [SelectRule(Keep, PortNumberLabel, ep.targetPort.value.String())];
      }
    }
  }

  /** Appends the job-name rules and the endpoint display rule. */
  method AppendJobAndEndpointRules(v: Variant, rules: seq<Rule>, sm: ServiceMonitor, ep: Endpoint) returns (r: seq<Rule>)
    ensures r == rules + JobRules(sm) + EndpointLabelRules(v, ep)
  {
    r := rules + [DefaultJobRule];
    if sm.spec.jobLabel != "" {
      r := r + [JobLabelRule(sm.spec.jobLabel)];
    }
    if ep.port != "" {
      r := r + [Rule([], "", None, 0, "endpoint", ep.port, "")];
    } else if ep.targetPort.Some? && ep.targetPort.value.String() != "" {
      r := r + [Rule([], "", None, 0, if v.Live? then "endpoint" else "", ep.targetPort.value.String(), "")];
    }
  }

  /** Builds the instance config of endpoint `i`. */
  method MakeInstanceForServiceMonitorEndpoint(w: Writer, p: Parsers, sm: ServiceMonitor, ep: Endpoint, i: nat)
    returns (c: InstanceConfig)
    ensures c == EndpointInstance(Live, w.rwc, p, sm, ep, i)
  {
    var sc := NewScrapeConfig(Live, p, sm, ep, i);
    var rules := MakeSelectorRules(sm);
    rules := AppendPortRules(rules, ep);
    rules := rules + ConstantRules();
    rules := AppendCopyLabelRules(rules, ServiceLabelPrefix, sm.spec.targetLabels);
    rules := AppendCopyLabelRules(rules, PodLabelPrefix, sm.spec.podTargetLabels);
    rules := AppendJobAndEndpointRules(Live, rules, sm, ep);
    var extra := MakeRelabelConfigs(ep.relabelConfigs);
    rules := rules + extra;
    extra := MakeRelabelConfigs(ep.metricRelabelConfigs);
    rules := rules + extra;
    sc := sc.(relabelConfigs := rules);
    c := InstanceConfig(sc.jobName, [sc], [w.rwc]);
  }

  /** One instance config per endpoint, in endpoint order. */
  method ScrapeConfigsForServiceMonitor(w: Writer, p: Parsers, sm: ServiceMonitor) returns (results: seq<InstanceConfig>)
    ensures |results| == |sm.spec.endpoints|
    ensures results == Translate(Live, w.rwc, p, sm)
  {
    var eps := sm.spec.endpoints;
    results := [];
    for i := 0 to |eps|
      invariant |results| == i
      invariant forall j :: 0 <= j < i ==> results[j] == EndpointInstance(Live, w.rwc, p, sm, eps[j], j)
    {
      var c := MakeInstanceForServiceMonitorEndpoint(w, p, sm, eps[i], i);
      results := results + [c];
    }
    TranslateByElements(Live, w.rwc, p, sm, results);
  }
}
