/** Properties of the ServiceMonitor translation, stated over the
    specification functions that both copies of the translation are proved
    to compute. */
module TranslationLemmas {
  import opened Wrappers
  import opened Text
  import opened Monitoring
  import opened Writer
  import opened Translation

  // ---------------------------------------------------------------- naming

  /** Endpoints of one monitor never share an instance name. */
  lemma {:induction false} JobNamesDistinct(sm: ServiceMonitor, i: nat, j: nat)
    ensures JobName(sm, i) == JobName(sm, j) ==> i == j
  {
    var prefix := sm.namespace + "/" + sm.name + "/";
    assert (prefix + Itoa(i))[|prefix|..] == Itoa(i);
    assert (prefix + Itoa(j))[|prefix|..] == Itoa(j);
    ItoaInjective(i, j);
  }

  lemma JobNameExample(sm: ServiceMonitor)
    requires sm.namespace == "myapp" && sm.name == "dummy"
    ensures JobName(sm, 0) == "myapp/dummy/0"
  {
  }

  /** One instance per endpoint, named after it, with one job of the same
      name, discovering endpoints in the selected namespaces and writing to
      the given remote; no two instances share a name. */
  lemma {:induction false} TranslateShape(v: Variant, rw: RemoteWriteConfig, p: Parsers, sm: ServiceMonitor)
    ensures |Translate(v, rw, p, sm)| == |sm.spec.endpoints|
    ensures forall i :: 0 <= i < |Translate(v, rw, p, sm)| ==>
      var c := Translate(v, rw, p, sm)[i];
      c.name == JobName(sm, i) && c.remoteWrite == [rw] &&
      |c.scrapeConfigs| == 1 && c.scrapeConfigs[0].jobName == c.name &&
      c.scrapeConfigs[0].sdConfigs == [SDConfig(RoleEndpoint, EffectiveNamespaceSelector(sm))]
    ensures forall i, j :: 0 <= i < j < |Translate(v, rw, p, sm)| ==>
      Translate(v, rw, p, sm)[i].name != Translate(v, rw, p, sm)[j].name
  {
    var t := Translate(v, rw, p, sm);
    forall i, j | 0 <= i < j < |t|
      ensures t[i].name != t[j].name
    {
      JobNamesDistinct(sm, i, j);
    }
  }

  // ---------------------------------------------------------------- selector

  /** The match-label rules come first, one keep rule per label, in strictly
      ascending key order, covering every label. */
  lemma MatchLabelRulesSorted(sm: ServiceMonitor)
    ensures var m := sm.spec.selector.matchLabels;
      var keys := SortedKeys(m.Keys);
      |keys| == |m| &&
      (forall k :: k in m <==> k in keys) &&
      (forall i, j :: 0 <= i < j < |keys| ==> Below(keys[i], keys[j])) &&
      |SelectorRules(sm)| >= |m| &&
      (forall j :: 0 <= j < |m| ==>
        SelectorRules(sm)[j] == SelectRule(Keep, ServiceLabelPrefix + SafeLabelName(keys[j]), m[keys[j]]))
  {
    SortedKeysSpec(sm.spec.selector.matchLabels.Keys);
  }

  lemma SortedKeysExample()
    ensures SortedKeys({"z", "b", "a/b/c"}) == ["a/b/c", "b", "z"]
  {
    var expected := ["a/b/c", "b", "z"];
    assert multiset({"z", "b", "a/b/c"}) == multiset(expected);
    assert Below("a/b/c", "b") && Below("b", "z");
    BelowTransitive("a/b/c", "b", "z");
    assert Sorted(expected);
    SortedUnique(SortedKeys({"z", "b", "a/b/c"}), expected);
  }

  lemma SafeLabelNamesOfExample()
    ensures SafeLabelName("a/b/c") == "a_b_c"
    ensures SafeLabelName("b") == "b" && SafeLabelName("z") == "z"
  {
    SafeLabelNameAgrees("a/b/c", "a_b_c");
    SafeLabelNameAgrees("b", "b");
    SafeLabelNameAgrees("z", "z");
  }

  lemma MatchLabelRulesOfExample(m: map<string, string>)
    requires m == map["z" := "1", "b" := "2", "a/b/c" := "3"]
    ensures MatchLabelRules(m, ["a/b/c", "b", "z"]) == [
      SelectRule(Keep, ServiceLabelPrefix + "a_b_c", "3"),
      SelectRule(Keep, ServiceLabelPrefix + "b", "2"),
      SelectRule(Keep, ServiceLabelPrefix + "z", "1")]
  {
    SafeLabelNamesOfExample();
  }

  /** Labels `z`, `b` and `a/b/c` are matched in the order `a_b_c`, `b`, `z`. */
  lemma MatchLabelsExample(m: map<string, string>)
    requires m == map["z" := "1", "b" := "2", "a/b/c" := "3"]
    ensures SortedKeys(m.Keys) == ["a/b/c", "b", "z"]
    ensures MatchLabelRules(m, SortedKeys(m.Keys)) == [
      SelectRule(Keep, ServiceLabelPrefix + "a_b_c", "3"),
      SelectRule(Keep, ServiceLabelPrefix + "b", "2"),
      SelectRule(Keep, ServiceLabelPrefix + "z", "1")]
  {
    assert m.Keys == {"z", "b", "a/b/c"};
    SortedKeysExample();
    MatchLabelRulesOfExample(m);
  }

  // ---------------------------------------------------------------- ports

  /** A named port takes precedence over a target port; a target port is
      matched by name when it carries one, else by a non-zero number. */
  lemma PortRuleCases(ep: Endpoint)
    ensures |PortRules(ep)| <= 1
    ensures ep.port != "" ==> PortRules(ep) == [SelectRule(Keep, PortNameLabel, ep.port)]
    ensures ep.port == "" && ep.targetPort.Some? && ep.targetPort.value.strVal != "" ==>
      PortRules(ep) == [SelectRule(Keep, PortNameLabel, ep.targetPort.value.String())]
    ensures ep.port == "" && ep.targetPort.Some? && ep.targetPort.value.strVal == "" && ep.targetPort.value.intVal != 0 ==>
      PortRules(ep) == [SelectRule(Keep, PortNumberLabel, ep.targetPort.value.String())]
    ensures PortRules(ep) == [] <==>
      ep.port == "" && (ep.targetPort.None? || (ep.targetPort.value.strVal == "" && ep.targetPort.value.intVal == 0))
  {
  }

  lemma ItoaExample()
    ensures Itoa(9000) == "9000"
  {
    assert NatToString(9) == "9";
    assert NatToString(90) == "90";
    assert NatToString(900) == "900";
  }

  /** Target port 9000 keeps port number 9000; target port "metrics" keeps
      the port named "metrics". */
  lemma TargetPortExamples(ep: Endpoint)
    requires ep.port == ""
    ensures ep.targetPort == Some(FromInt(9000)) ==> PortRules(ep) == [SelectRule(Keep, PortNumberLabel, "9000")]
    ensures ep.targetPort == Some(FromString("metrics")) ==> PortRules(ep) == [SelectRule(Keep, PortNameLabel, "metrics")]
  {
    ItoaExample();
  }

  // ---------------------------------------------------------------- display rule

  /** The live translation labels every display rule `endpoint`, with the
      port's name or the target port's text as its value. */
  lemma DisplayRuleLabelled(ep: Endpoint)
    ensures |EndpointLabelRules(Live, ep)| <= 1
    ensures forall r :: r in EndpointLabelRules(Live, ep) ==> r.targetLabel == "endpoint" && r.sourceLabels == []
    ensures |EndpointLabelRules(Live, ep)| == 1 <==>
      ep.port != "" || (ep.targetPort.Some? && ep.targetPort.value.String() != "")
    ensures ep.port != "" ==> EndpointLabelRules(Live, ep)[0].replacement == ep.port
    ensures ep.port == "" && ep.targetPort.Some? && ep.targetPort.value.String() != "" ==>
      EndpointLabelRules(Live, ep)[0].replacement == ep.targetPort.value.String()
  {
  }

  /** The older translation writes a target port's display value to an empty
      label name, where the live one writes it to `endpoint`. */
  lemma LegacyDisplayRuleUnlabelled(ep: Endpoint)
    requires ep.port == "" && ep.targetPort.Some? && ep.targetPort.value.String() != ""
    ensures EndpointLabelRules(Legacy, ep) == [Rule([], "", None, 0, "", ep.targetPort.value.String(), "")]
    ensures EndpointLabelRules(Live, ep) == [Rule([], "", None, 0, "endpoint", ep.targetPort.value.String(), "")]
  {
  }

  /** Target port 9000 is displayed under an empty label by the older copy. */
  lemma LegacyDisplayRuleAt9000(ep: Endpoint)
    requires ep.port == "" && ep.targetPort == Some(FromInt(9000))
    ensures EndpointLabelRules(Legacy, ep) == [Rule([], "", None, 0, "", "9000", "")]
  {
    ItoaExample();
    LegacyDisplayRuleUnlabelled(ep);
  }

  /** The two copies translate alike except for the target limit, which the
      older one leaves at zero, and the target-port display rule. */
  lemma VariantsAgree(p: Parsers, sm: ServiceMonitor, ep: Endpoint, i: nat)
    ensures ScrapeHeader(Legacy, p, sm, ep, i) == ScrapeHeader(Live, p, sm, ep, i).(targetLimit := 0)
    ensures ep.port != "" || ep.targetPort.None? || ep.targetPort.value.String() == "" ==>
      Pipeline(Legacy, sm, ep) == Pipeline(Live, sm, ep)
  {
  }

  // ---------------------------------------------------------------- scalars

  /** The scalar settings of a job: each optional one keeps its zero value
      unless the endpoint sets it; a duration that does not parse gives 0. */
  lemma ScrapeHeaderFields(v: Variant, p: Parsers, sm: ServiceMonitor, ep: Endpoint, i: nat)
    ensures var sc := ScrapeHeader(v, p, sm, ep, i);
      sc.honorLabels == ep.honorLabels &&
      sc.honorTimestamps == (ep.honorTimestamps == Some(true)) &&
      sc.sampleLimit == sm.spec.sampleLimit &&
      sc.targetLimit == (if v.Live? then sm.spec.targetLimit else 0) &&
      (ep.interval == "" || p.duration(ep.interval).None? ==> sc.scrapeInterval == 0) &&
      (ep.interval != "" && p.duration(ep.interval).Some? ==> sc.scrapeInterval == p.duration(ep.interval).value) &&
      (ep.scrapeTimeout == "" || p.duration(ep.scrapeTimeout).None? ==> sc.scrapeTimeout == 0) &&
      (ep.scrapeTimeout != "" && p.duration(ep.scrapeTimeout).Some? ==> sc.scrapeTimeout == p.duration(ep.scrapeTimeout).value) &&
      sc.metricsPath == ep.path && sc.scheme == ep.scheme && sc.params == ep.params &&
      (ep.proxyURL.None? ==> sc.http.proxyURL.None?) &&
      (ep.proxyURL.Some? ==> sc.http.proxyURL == p.url(ep.proxyURL.value)) &&
      (ep.tlsConfig.None? ==> sc.http.tls == TLS(false, "")) &&
      (ep.tlsConfig.Some? ==> sc.http.tls.insecureSkipVerify == ep.tlsConfig.value.insecureSkipVerify &&
                              sc.http.tls.serverName == ep.tlsConfig.value.serverName) &&
      sc.http.bearerTokenFile == ep.bearerTokenFile &&
      sc.relabelConfigs == []
  {
  }

  // ---------------------------------------------------------------- expressions

  /** One rule for each of the four known operators and none otherwise:
      `In` and `Exists` keep, `NotIn` and `DoesNotExist` drop; the set
      operators match any listed value, the existence ones any value. */
  lemma ExpressionRuleCases(e: Requirement)
    ensures var known := e.operator == OpIn || e.operator == OpNotIn || e.operator == OpExists || e.operator == OpDoesNotExist;
      (known ==> |ExpressionRule(e)| == 1) && (!known ==> ExpressionRule(e) == [])
    ensures forall r :: r in ExpressionRule(e) ==>
      r.sourceLabels == [ServiceLabelPrefix + SafeLabelName(e.key)] &&
      r.action == (if e.operator == OpIn || e.operator == OpExists then Keep else Drop) &&
      r.regex == Some(Regexp(if e.operator == OpIn || e.operator == OpNotIn then Join(e.values, "|") else ".*"))
  {
  }

  /** The rules of a list of expressions are the rules of its parts, in order. */
  lemma {:induction false} ExpressionRulesAppend(a: seq<Requirement>, b: seq<Requirement>)
    ensures ExpressionRules(a + b) == ExpressionRules(a) + ExpressionRules(b)
    decreases |b|
  {
    if b != [] {
      var b' := b[..|b| - 1];
      assert (a + b)[..|a + b| - 1] == a + b';
      assert (a + b)[|a + b| - 1] == b[|b| - 1];
      ExpressionRulesAppend(a, b');
    } else {
      assert a + b == a;
    }
  }

  /** Every expression rule reads the service label named by its expression. */
  lemma {:induction false} ExpressionRulesSources(es: seq<Requirement>)
    ensures forall r :: r in ExpressionRules(es) ==>
      exists e :: e in es && r.sourceLabels == [ServiceLabelPrefix + SafeLabelName(e.key)]
  {
    if es != [] {
      var init := es[..|es| - 1];
      ExpressionRulesSources(init);
      ExpressionRuleCases(es[|es| - 1]);
      forall r | r in ExpressionRules(es)
        ensures exists e :: e in es && r.sourceLabels == [ServiceLabelPrefix + SafeLabelName(e.key)]
      {
        if r in ExpressionRules(init) {
          var e :| e in init && r.sourceLabels == [ServiceLabelPrefix + SafeLabelName(e.key)];
          assert e in es;
        } else {
          assert es[|es| - 1] in es;
        }
      }
    }
  }

  // ---------------------------------------------------------------- no port filter

  /** No rule reads a label under the endpoint-port prefix. */
  predicate NoPortSource(rules: seq<Rule>) {
    forall r, l :: r in rules && l in r.sourceLabels ==> !HasPrefix(l, PortLabelPrefix)
  }

  lemma PrefixedNotPort(x: string)
    ensures !HasPrefix(ServiceLabelPrefix + x, PortLabelPrefix)
    ensures !HasPrefix(PodLabelPrefix + x, PortLabelPrefix)
  {
    var s := ServiceLabelPrefix + x;
    var q := PodLabelPrefix + x;
    assert s[18] == 's' && q[18] == 'p' && PortLabelPrefix[18] == 'e';
    if |PortLabelPrefix| <= |s| {
      assert s[..|PortLabelPrefix|][18] == s[18];
    }
    if |PortLabelPrefix| <= |q| {
      assert q[..|PortLabelPrefix|][18] == q[18];
    }
  }

  lemma ConstantRulesNoPortSource()
    ensures NoPortSource(ConstantRules())
  {
    assert TargetKindLabel[27] == 'a' && TargetNameLabel[27] == 'a' && PortLabelPrefix[27] == 'p';
    assert TargetKindLabel[..32][27] == 'a' && TargetNameLabel[..32][27] == 'a';
    assert ContainerNameLabel[18] == 'p' && ContainerNameLabel[..32][18] == 'p' && PortLabelPrefix[18] == 'e';
  }

  lemma NoPortSourceConcat(a: seq<Rule>, b: seq<Rule>)
    requires NoPortSource(a) && NoPortSource(b)
    ensures NoPortSource(a + b)
  {
    forall r, l | r in a + b && l in r.sourceLabels
      ensures !HasPrefix(l, PortLabelPrefix)
    {
      assert r in a || r in b;
    }
  }

  lemma SelectorRulesNoPortSource(sm: ServiceMonitor)
    ensures NoPortSource(SelectorRules(sm))
  {
    var m := sm.spec.selector.matchLabels;
    SortedKeysMembers(m.Keys);
    var ml := MatchLabelRules(m, SortedKeys(m.Keys));
    forall r, l | r in ml && l in r.sourceLabels
      ensures !HasPrefix(l, PortLabelPrefix)
    {
      var j :| 0 <= j < |ml| && ml[j] == r;
      PrefixedNotPort(SafeLabelName(SortedKeys(m.Keys)[j]));
    }
    var ex := ExpressionRules(sm.spec.selector.matchExpressions);
    ExpressionRulesSources(sm.spec.selector.matchExpressions);
    forall r, l | r in ex && l in r.sourceLabels
      ensures !HasPrefix(l, PortLabelPrefix)
    {
      var e :| e in sm.spec.selector.matchExpressions && r.sourceLabels == [ServiceLabelPrefix + SafeLabelName(e.key)];
      PrefixedNotPort(SafeLabelName(e.key));
    }
    NoPortSourceConcat(ml, ex);
  }

  lemma CopyLabelRulesNoPortSource(labels: seq<string>)
    ensures NoPortSource(CopyLabelRules(ServiceLabelPrefix, labels))
    ensures NoPortSource(CopyLabelRules(PodLabelPrefix, labels))
  {
    forall prefix, r, l | (prefix == ServiceLabelPrefix || prefix == PodLabelPrefix) &&
                          r in CopyLabelRules(prefix, labels) && l in r.sourceLabels
      ensures !HasPrefix(l, PortLabelPrefix)
    {
      var j :| 0 <= j < |labels| && CopyLabelRules(prefix, labels)[j] == r;
      PrefixedNotPort(SafeLabelName(labels[j]));
    }
  }

  lemma JobRulesNoPortSource(sm: ServiceMonitor)
    ensures NoPortSource(JobRules(sm))
  {
    PrefixedNotPort(SafeLabelName(sm.spec.jobLabel));
  }

  /** Without a port, a target port or rules of its own, an endpoint's job
      reads no endpoint-port label at all. */
  lemma NoPortRuleWhenUnset(v: Variant, sm: ServiceMonitor, ep: Endpoint)
    requires ep.port == "" && ep.targetPort.None?
    requires ep.relabelConfigs == [] && ep.metricRelabelConfigs == []
    ensures NoPortSource(Pipeline(v, sm, ep))
  {
    SelectorRulesNoPortSource(sm);
    ConstantRulesNoPortSource();
    CopyLabelRulesNoPortSource(sm.spec.targetLabels);
    CopyLabelRulesNoPortSource(sm.spec.podTargetLabels);
    JobRulesNoPortSource(sm);
    var a := SelectorRules(sm) + PortRules(ep);
    NoPortSourceConcat(SelectorRules(sm), PortRules(ep));
    NoPortSourceConcat(a, ConstantRules());
    var b := a + ConstantRules();
    NoPortSourceConcat(b, CopyLabelRules(ServiceLabelPrefix, sm.spec.targetLabels));
    var c := b + CopyLabelRules(ServiceLabelPrefix, sm.spec.targetLabels);
    NoPortSourceConcat(c, CopyLabelRules(PodLabelPrefix, sm.spec.podTargetLabels));
    var d := c + CopyLabelRules(PodLabelPrefix, sm.spec.podTargetLabels);
    NoPortSourceConcat(d, JobRules(sm));
    var e := d + JobRules(sm);
    NoPortSourceConcat(e, EndpointLabelRules(v, ep));
    var f := e + EndpointLabelRules(v, ep);
    NoPortSourceConcat(f, ConvertRelabels(ep.relabelConfigs));
    NoPortSourceConcat(f + ConvertRelabels(ep.relabelConfigs), ConvertRelabels(ep.metricRelabelConfigs));
  }

  // ---------------------------------------------------------------- order

  /** The selector's rules open the pipeline, the port filter follows, then
      the six fixed rules, the target-label, pod-label, job and display
      rules, and the endpoint's own relabel rules close it, the target
      relabel rules before the metric relabel rules. */
  lemma PipelineOrder(v: Variant, sm: ServiceMonitor, ep: Endpoint)
    ensures var r := Pipeline(v, sm, ep);
      var n := |SelectorRules(sm)|;
      var k := n + |PortRules(ep)|;
      var user := ConvertRelabels(ep.relabelConfigs) + ConvertRelabels(ep.metricRelabelConfigs);
      k + 6 <= |r| - |user| &&
      r[..n] == SelectorRules(sm) &&
      r[n..k] == PortRules(ep) &&
      r[k..k + 6] == ConstantRules() &&
      r[k + 6..|r| - |user|] ==
        CopyLabelRules(ServiceLabelPrefix, sm.spec.targetLabels)
        + CopyLabelRules(PodLabelPrefix, sm.spec.podTargetLabels) + JobRules(sm) + EndpointLabelRules(v, ep) &&
      r[|r| - |user|..] == user
  {
    var a := SelectorRules(sm) + PortRules(ep) + ConstantRules();
    var t, pod, job, shown := CopyLabelRules(ServiceLabelPrefix, sm.spec.targetLabels),
      CopyLabelRules(PodLabelPrefix, sm.spec.podTargetLabels), JobRules(sm), EndpointLabelRules(v, ep);
    var u1, u2 := ConvertRelabels(ep.relabelConfigs), ConvertRelabels(ep.metricRelabelConfigs);
    assert Pipeline(v, sm, ep) == a + t + pod + job + shown + u1 + u2;
    Assoc(a + t + pod + job + shown, u1, u2);
    Assoc(a, t, pod);
    Assoc(a, t + pod, job);
    Assoc(a, t + pod + job, shown);
    FiveSlices(SelectorRules(sm), PortRules(ep), ConstantRules(), t + pod + job + shown, u1 + u2);
  }

  lemma Assoc(x: seq<Rule>, y: seq<Rule>, z: seq<Rule>)
    ensures x + y + z == x + (y + z)
  {
  }

  /** Each piece of a five-part concatenation sits at its offset. */
  lemma FiveSlices(a: seq<Rule>, b: seq<Rule>, c: seq<Rule>, d: seq<Rule>, e: seq<Rule>)
    ensures var r := a + b + c + d + e;
      && r[..|a|] == a
      && r[|a|..|a| + |b|] == b
      && r[|a| + |b|..|a| + |b| + |c|] == c
      && r[|a| + |b| + |c|..|r| - |e|] == d
      && r[|r| - |e|..] == e
  {
  }

  // ---------------------------------------------------------------- labels and job

  /** Target labels `a`, `b`, `c/d/e` are copied from the service labels of
      the same (sanitised) names onto `a`, `b`, `c_d_e`. */
  lemma CopyLabelsExample(labels: seq<string>)
    requires labels == ["a", "b", "c/d/e"]
    ensures |CopyLabelRules(ServiceLabelPrefix, labels)| == 3
    ensures CopyLabelRules(ServiceLabelPrefix, labels)[0] == Rule([ServiceLabelPrefix + "a"], "", Some(Regexp("(.+)")), 0, "a", "${1}", "")
    ensures CopyLabelRules(ServiceLabelPrefix, labels)[1] == Rule([ServiceLabelPrefix + "b"], "", Some(Regexp("(.+)")), 0, "b", "${1}", "")
    ensures CopyLabelRules(ServiceLabelPrefix, labels)[2] == Rule([ServiceLabelPrefix + "c_d_e"], "", Some(Regexp("(.+)")), 0, "c_d_e", "${1}", "")
  {
    SafeLabelNamesShort();
    SafeLabelNameExample();
  }

  lemma SafeLabelNamesShort()
    ensures SafeLabelName("a") == "a" && SafeLabelName("b") == "b"
  {
    SafeLabelNameAgrees("a", "a");
    SafeLabelNameAgrees("b", "b");
  }

  /** The job label defaults to the service name; a job label overrides it
      from the named service label, after the default so that it wins. */
  lemma JobRulesOrder(sm: ServiceMonitor)
    ensures JobRules(sm)[0] == Rule([ServiceNameLabel], "", None, 0, "job", "${1}", "")
    ensures |JobRules(sm)| == (if sm.spec.jobLabel == "" then 1 else 2)
    ensures sm.spec.jobLabel != "" ==>
      JobRules(sm)[1].targetLabel == "job" &&
      JobRules(sm)[1].sourceLabels == [ServiceLabelPrefix + SafeLabelName(sm.spec.jobLabel)]
  {
  }

  lemma JobLabelExample(sm: ServiceMonitor)
    requires sm.spec.jobLabel == "foo.bar/app"
    ensures JobRules(sm)[1] == Rule([ServiceLabelPrefix + "foo_bar_app"], "", Some(Regexp("(.+)")), 0, "job", "${1}", "")
  {
    SafeLabelNameExample();
  }
}
