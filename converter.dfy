/** operator/service_monitor_converter.go: the older copy of the translation,
    which takes the remote-write config as a parameter. It shares the
    specification functions of the live translation with `Variant` set to
    `Legacy`. */
module Converter {
  import opened Wrappers
  import opened Text
  import opened Monitoring
  import opened Writer
  import opened Translation
  import opened ServiceMonitorWriter

  /** Builds the instance config of endpoint `i` the older way. */
  method MakeInstanceForServiceMonitorEndpoint(rw: RemoteWriteConfig, p: Parsers, sm: ServiceMonitor, ep: Endpoint, i: nat)
    returns (c: InstanceConfig)
    ensures c == EndpointInstance(Legacy, rw, p, sm, ep, i)
  {
    var sc := NewScrapeConfig(Legacy, p, sm, ep, i);
    var rules := MakeSelectorRules(sm);
    rules := AppendPortRules(rules, ep);
    rules := rules + ConstantRules();
    rules := AppendCopyLabelRules(rules, ServiceLabelPrefix, sm.spec.targetLabels);
    rules := AppendCopyLabelRules(rules, PodLabelPrefix, sm.spec.podTargetLabels);
    rules := AppendJobAndEndpointRules(Legacy, rules, sm, ep);
    var extra := MakeRelabelConfigs(ep.relabelConfigs);
    rules := rules + extra;
    extra := MakeRelabelConfigs(ep.metricRelabelConfigs);
    rules := rules + extra;
    sc := sc.(relabelConfigs := rules);
    c := InstanceConfig(sc.jobName, [sc], [rw]);
  }

  /** One instance config per endpoint, in endpoint order. */
  method MakeInstanceForServiceMonitor(rw: RemoteWriteConfig, p: Parsers, sm: ServiceMonitor) returns (results: seq<InstanceConfig>)
    ensures |results| == |sm.spec.endpoints|
    ensures results == Translate(Legacy, rw, p, sm)
  {
    var eps := sm.spec.endpoints;
    results := [];
    for i := 0 to |eps|
      invariant |results| == i
      invariant forall j :: 0 <= j < i ==> results[j] == EndpointInstance(Legacy, rw, p, sm, eps[j], j)
    {
      var c := MakeInstanceForServiceMonitorEndpoint(rw, p, sm, eps[i], i);
      results := results + [c];
    }
    TranslateByElements(Legacy, rw, p, sm, results);
  }
}
