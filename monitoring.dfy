/** The data the core reads and writes: the ServiceMonitor resource of the
    monitoring.coreos.com/v1 API (input) and the Prometheus scrape and
    relabel configuration wrapped in an agent instance config (output).
    Only the fields the core reads or writes are kept. */
module Monitoring {
  import opened Wrappers
  import opened Text

  /** A relabel rule as written in a ServiceMonitor endpoint. */
  datatype RelabelConfig = RelabelConfig(
    sourceLabels: seq<string>,
    separator: string,
    targetLabel: string,
    regex: string,
    modulus: nat,
    replacement: string,
    action: string)

  /** Kubernetes `intstr.IntOrString`: `isString` is the `Type` tag; both
      payload fields exist whatever the tag says. */
  datatype IntOrString = IntOrString(isString: bool, intVal: int, strVal: string) {
    /** `IntOrString.String()`: the string payload for a string, else the decimal form. */
    function String(): string {
      if isString then strVal else Itoa(intVal)
    }
  }

  function FromString(s: string): IntOrString { IntOrString(true, 0, s) }
  function FromInt(i: int): IntOrString { IntOrString(false, i, "") }

  /** The subset of the endpoint TLS settings that the translation copies. */
  datatype TLSConfig = TLSConfig(insecureSkipVerify: bool, serverName: string)

  /** One scrape endpoint of a ServiceMonitor; `Option` marks Go's nil pointers and nil maps. */
  datatype Endpoint = Endpoint(
    port: string,
    targetPort: Option<IntOrString>,
    path: string,
    scheme: string,
    params: Option<map<string, seq<string>>>,
    interval: string,
    scrapeTimeout: string,
    tlsConfig: Option<TLSConfig>,
    bearerTokenFile: string,
    honorLabels: bool,
    honorTimestamps: Option<bool>,
    proxyURL: Option<string>,
    relabelConfigs: seq<RelabelConfig>,
    metricRelabelConfigs: seq<RelabelConfig>)

  /** An endpoint with every field unset (`v1.Endpoint{}`). */
  const EmptyEndpoint := Endpoint("", None, "", "", None, "", "", None, "", false, None, None, [], [])

  /** `metav1.LabelSelectorRequirement`; the operator is kept as its string. */
  datatype Requirement = Requirement(key: string, operator: string, values: seq<string>)

  datatype LabelSelector = LabelSelector(matchLabels: map<string, string>, matchExpressions: seq<Requirement>)

  datatype NamespaceSelector = NamespaceSelector(any: bool, matchNames: seq<string>)

  datatype ServiceMonitorSpec = ServiceMonitorSpec(
    jobLabel: string,
    targetLabels: seq<string>,
    podTargetLabels: seq<string>,
    endpoints: seq<Endpoint>,
    selector: LabelSelector,
    namespaceSelector: NamespaceSelector,
    sampleLimit: nat,
    targetLimit: nat)

  /** `kind` is the object's TypeMeta kind, carried into work-queue items. */
  datatype ServiceMonitor = ServiceMonitor(
    kind: string,
    namespace: string,
    name: string,
    resourceVersion: string,
    spec: ServiceMonitorSpec)

  const OpIn := "In"
  const OpNotIn := "NotIn"
  const OpExists := "Exists"
  const OpDoesNotExist := "DoesNotExist"

  /** A compiled relabel regex; only its source pattern is modelled. */
  datatype Regexp = Regexp(pattern: string)

  /** Prometheus `relabel.Config`; an unset regex is `None`, an unset action `""`. */
  datatype Rule = Rule(
    sourceLabels: seq<string>,
    separator: string,
    regex: Option<Regexp>,
    modulus: nat,
    targetLabel: string,
    replacement: string,
    action: string)

  const Keep := "keep"
  const Drop := "drop"

  /** Role of the Kubernetes service-discovery configuration ("endpoints"). */
  const RoleEndpoint := "endpoints"

  datatype SDConfig = SDConfig(role: string, namespaces: seq<string>)

  /** A parsed URL; `None` stands for Go's nil `*url.URL`. */
  datatype Url = Url(text: string)

  datatype TLS = TLS(insecureSkipVerify: bool, serverName: string)

  datatype HTTPClientConfig = HTTPClientConfig(proxyURL: Option<Url>, tls: TLS, bearerTokenFile: string)

  const EmptyHTTPClientConfig := HTTPClientConfig(None, TLS(false, ""), "")

  /** Prometheus `config.ScrapeConfig`; durations are nanosecond counts, 0 when unset. */
  datatype ScrapeConfig = ScrapeConfig(
    jobName: string,
    honorLabels: bool,
    honorTimestamps: bool,
    sdConfigs: seq<SDConfig>,
    sampleLimit: nat,
    targetLimit: nat,
    scrapeInterval: int,
    scrapeTimeout: int,
    metricsPath: string,
    scheme: string,
    params: Option<map<string, seq<string>>>,
    http: HTTPClientConfig,
    relabelConfigs: seq<Rule>)

  datatype RemoteWriteConfig = RemoteWriteConfig(url: Option<Url>)

  /** The agent's `instance.Config`: one named unit of scrape work. */
  datatype InstanceConfig = InstanceConfig(
    name: string,
    scrapeConfigs: seq<ScrapeConfig>,
    remoteWrite: seq<RemoteWriteConfig>)

  /** The library parsers the translation calls: `model.ParseDuration` and
      `url.Parse`, both returning `None` where Go returns an error. */
  datatype Parsers = Parsers(duration: string -> Option<int>, url: string -> Option<Url>)
}
