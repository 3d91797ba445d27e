/** config/writer.go: the writer that holds the remote-write destination and
    the small helpers shared by the translation: label-name sanitising,
    namespace selection, the discovery config and the copy of user relabel
    rules. */
module Writer {
  import opened Wrappers
  import opened Monitoring

  /** The writer is configured with the single remote-write destination that
      every produced instance config sends to. */
  datatype Writer = Writer(rwc: RemoteWriteConfig)

  function NewWriter(rwc: RemoteWriteConfig): (w: Writer)
    ensures w.rwc == rwc
  {
    Writer(rwc)
  }

  /** Characters allowed in a Prometheus label name: `[A-Za-z0-9_]`. */
  predicate IsLabelChar(c: char) {
    ('a' <= c <= 'z') || ('A' <= c <= 'Z') || ('0' <= c <= '9') || c == '_'
  }

  predicate IsLabelName(s: string) {
    forall j :: 0 <= j < |s| ==> IsLabelChar(s[j])
  }

  /** Replaces every character outside `[A-Za-z0-9_]` by `_`, one for one. */
  function SafeLabelName(name: string): (r: string)
    ensures |r| == |name|
    ensures forall j :: 0 <= j < |name| ==> r[j] == (if IsLabelChar(name[j]) then name[j] else '_')
  {
    if name == [] then []
    else [if IsLabelChar(name[0]) then name[0] else '_'] + SafeLabelName(name[1..])
  }

  lemma SafeLabelNameIsLabelName(name: string)
    ensures IsLabelName(SafeLabelName(name))
  {
  }

  /** Names that are already valid pass through unchanged; in particular the
      sanitiser is idempotent. */
  lemma SafeLabelNameFixesLabelNames(name: string)
    ensures IsLabelName(name) <==> SafeLabelName(name) == name
    ensures SafeLabelName(SafeLabelName(name)) == SafeLabelName(name)
  {
    var r := SafeLabelName(name);
    if IsLabelName(name) {
      assert r == name;
    } else {
      var j :| 0 <= j < |name| && !IsLabelChar(name[j]);
      assert r[j] != name[j];
    }
    assert SafeLabelName(r) == r;
  }

  /** The sanitised form equals `expected` when `expected` holds `_` exactly
      where `name` has a character outside the label alphabet. */
  lemma SafeLabelNameAgrees(name: string, expected: string)
    requires |name| == |expected|
    requires forall j :: 0 <= j < |name| ==> expected[j] == (if IsLabelChar(name[j]) then name[j] else '_')
    ensures SafeLabelName(name) == expected
  {
  }

  lemma SafeLabelNameExample()
    ensures SafeLabelName("c/d/e") == "c_d_e"
    ensures SafeLabelName("foo.bar/app") == "foo_bar_app"
  {
    SafeLabelNameAgrees("c/d/e", "c_d_e");
    SafeLabelNameAgrees("foo.bar/app", "foo_bar_app");
  }

  /** The namespaces to discover targets in: none (all namespaces) when
      `Any` is set, the monitor's own namespace when no names are listed,
      otherwise the listed names. */
  function EffectiveNamespaceSelector(sm: ServiceMonitor): (r: seq<string>)
    ensures r == [] <==> sm.spec.namespaceSelector.any
    ensures !sm.spec.namespaceSelector.any && sm.spec.namespaceSelector.matchNames != [] ==>
              r == sm.spec.namespaceSelector.matchNames
    ensures !sm.spec.namespaceSelector.any && sm.spec.namespaceSelector.matchNames == [] ==>
              r == [sm.namespace]
  {
    if sm.spec.namespaceSelector.any then []
    else if |sm.spec.namespaceSelector.matchNames| == 0 then [sm.namespace]
    else sm.spec.namespaceSelector.matchNames
  }

  /** Endpoint-role discovery restricted to the given namespaces (all when empty). */
  function SdConfig(namespaces: seq<string>): (r: SDConfig)
    ensures r.role == RoleEndpoint
    ensures r.namespaces == namespaces
  {
    if |namespaces| != 0 then SDConfig(RoleEndpoint, namespaces) else SDConfig(RoleEndpoint, [])
  }

  /** One user relabel rule as Prometheus sees it: every field copied, the
      regex compiled only when one is given. */
  function ConvertRelabel(c: RelabelConfig): Rule {
    Rule(c.sourceLabels, c.separator, if c.regex != "" then Some(Regexp(c.regex)) else None,
         c.modulus, c.targetLabel, c.replacement, c.action)
  }

  function ConvertRelabels(cs: seq<RelabelConfig>): seq<Rule> {
    seq(|cs|, j requires 0 <= j < |cs| => ConvertRelabel(cs[j]))
  }

  /** Copies the user rules in order; Replacement, TargetLabel, Separator,
      Action, Modulus and the source labels are copied field for field and the
      regex is set exactly when the user gave a non-empty one. */
  method MakeRelabelConfigs(rlcs: seq<RelabelConfig>) returns (results: seq<Rule>)
    ensures |results| == |rlcs|
    ensures forall j :: 0 <= j < |rlcs| ==>
      && results[j].sourceLabels == rlcs[j].sourceLabels
      && results[j].replacement == rlcs[j].replacement
      && results[j].targetLabel == rlcs[j].targetLabel
      && results[j].separator == rlcs[j].separator
      && results[j].action == rlcs[j].action
      && results[j].modulus == rlcs[j].modulus
      && (results[j].regex.Some? <==> rlcs[j].regex != "")
      && (results[j].regex.Some? ==> results[j].regex.value == Regexp(rlcs[j].regex))
    ensures results == ConvertRelabels(rlcs)
  {
    results := [];
    for i := 0 to |rlcs|
      invariant results == ConvertRelabels(rlcs[..i])
    {
      var c := rlcs[i];
      var rlc := Rule([], c.separator, None, c.modulus, c.targetLabel, c.replacement, c.action);
      if c.regex != "" {
        rlc := rlc.(regex := Some(Regexp(c.regex)));
      }
      for k := 0 to |c.sourceLabels|
        invariant rlc == ConvertRelabel(c).(sourceLabels := c.sourceLabels[..k])
      {
        rlc := rlc.(sourceLabels := rlc.sourceLabels + [c.sourceLabels[k]]);
      }
      assert c.sourceLabels[..|c.sourceLabels|] == c.sourceLabels;
      results := results + [rlc];
    }
    assert rlcs[..|rlcs|] == rlcs;
  }
}
