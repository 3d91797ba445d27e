/** operator/controller.go and operator/servicemonitor_worker.go: the
    controller that watches ServiceMonitors, queues work for them and makes
    the agent's scrape configs follow them.

    The first half states each step as a function on a `State` value; the
    class `Controller` below does the same steps on its fields, and each of
    its methods is proved to move its state exactly as the function says. */
module Operator {
  import opened Wrappers
  import opened Monitoring
  import opened Writer
  import opened Translation
  import ServiceMonitorWriter
  import TranslationLemmas
  import opened ConfigManager

  /** A work-queue item: a `monitorTarget`, or any other value someone put
      on the queue. */
  datatype Item = Target(kind: string, key: string, delete: bool) | Foreign(description: string)

  /** What the ServiceMonitor lister answers for a namespace and name. */
  datatype Lookup = Found(sm: ServiceMonitor) | NotFound | LookupFailed(err: string)

  /** The world a worker talks to: the network behind the config manager
      and the informer's lister. */
  datatype Env = Env(net: Request -> Exchange, lookup: (string, string) -> Lookup)

  /** What the controller is built with and never changes. */
  datatype Setup = Setup(manager: Manager, writer: Writer, parsers: Parsers)

  predicate NoDuplicates<T(==)>(s: seq<T>) {
    forall i, j :: 0 <= i < j < |s| ==> s[i] != s[j]
  }

  /** `cache.MetaNamespaceKeyFunc`: "namespace/name", or just the name when
      the namespace is empty. */
  function KeyOf(sm: ServiceMonitor): string {
    if sm.namespace == "" then sm.name else sm.namespace + "/" + sm.name
  }

  /** Index of the first `/` of `s`, or `|s|` when there is none. */
  function SlashIndex(s: string): (k: nat)
    ensures k <= |s|
    ensures forall j :: 0 <= j < k ==> s[j] != '/'
    ensures k < |s| ==> s[k] == '/'
  {
    if s == [] || s[0] == '/' then 0 else 1 + SlashIndex(s[1..])
  }

  /** `cache.SplitMetaNamespaceKey`: a key without a slash is a name in the
      empty namespace, a key with one slash is "namespace/name", anything
      else is malformed. */
  function SplitMetaNamespaceKey(key: string): (r: Option<(string, string)>)
    ensures r.Some? <==> forall i, j :: 0 <= i < j < |key| && key[i] == '/' ==> key[j] != '/'
    ensures r.Some? ==> '/' !in r.value.0 && '/' !in r.value.1
    ensures r.Some? ==> key == r.value.1 || key == r.value.0 + "/" + r.value.1
    ensures r.Some? && '/' !in key ==> r.value == ("", key)
    ensures r.Some? && '/' in key ==> key == r.value.0 + "/" + r.value.1
  {
    var k := SlashIndex(key);
    if k == |key| then Some(("", key))
    else if '/' in key[k + 1..] then None
    else Some((key[..k], key[k + 1..]))
  }

  /** `workqueue.Add` on the waiting items: an item already waiting is not
      queued a second time. */
  function Added(q: seq<Item>, x: Item): (r: seq<Item>)
    ensures forall y :: y in r <==> y in q || y == x
    ensures |q| <= |r| <= |q| + 1 && r[..|q|] == q
    ensures NoDuplicates(q) ==> NoDuplicates(r)
  {
    if x in q then q else q + [x]
  }

  /** The controller's changing state: the tombstones of deleted monitors
      by key, the work queue (the items waiting, the items waiting out a
      backoff, the rate limiter's failure counts, the shut-down flag) and
      the calls made on the config manager so far. */
  datatype State = State(
    removed: map<string, ServiceMonitor>,
    queue: seq<Item>,
    delayed: seq<Item>,
    failures: map<Item, nat>,
    shuttingDown: bool,
    sent: seq<Call>)
  {
    /** No item waits twice and every tombstone is filed under its own key. */
    ghost predicate Valid() {
      && NoDuplicates(queue)
      && (forall k :: k in removed ==> KeyOf(removed[k]) == k)
    }

    /** `workqueue.Add`: ignored once the queue is shut down. */
    function Add(x: Item): State {
      if shuttingDown then this else this.(queue := Added(queue, x))
    }

    /** `AddRateLimited`: the failure is counted and the item waits out its
        backoff before it is added again (not once shut down). */
    function AddRateLimited(x: Item): State {
      var n := if x in failures then failures[x] else 0;
      this.(failures := failures[x := n + 1], delayed := if shuttingDown then delayed else delayed + [x])
    }

    /** `Forget`: the rate limiter drops the item's failure history. */
    function Forget(x: Item): State {
      this.(failures := failures - {x})
    }
  }

  const Initial := State(map[], [], [], map[], false, [])

  /** The add handler: a live monitor's tombstone is dropped, then a sync is queued. */
  function AfterEnqueue(s: State, sm: ServiceMonitor): State {
    s.(removed := s.removed - {KeyOf(sm)}).Add(Target(sm.kind, KeyOf(sm), false))
  }

  /** The delete handler: the monitor is kept as a tombstone, then a delete is queued. */
  function AfterEnqueueDelete(s: State, sm: ServiceMonitor): State {
    s.(removed := s.removed[KeyOf(sm) := sm]).Add(Target(sm.kind, KeyOf(sm), true))
  }

  /** The update handler: a resync that brings the same resource version
      changes nothing; anything else is handled as an add. */
  function AfterUpdate(s: State, oldSm: ServiceMonitor, newSm: ServiceMonitor): State {
    if oldSm.resourceVersion == newSm.resourceVersion then s else AfterEnqueue(s, newSm)
  }

  function Updates(cfgs: seq<InstanceConfig>): (calls: seq<Call>)
    ensures |calls| == |cfgs|
  {
    seq(|cfgs|, j requires 0 <= j < |cfgs| => UpdateCall(cfgs[j]))
  }

  function Deletes(cfgs: seq<InstanceConfig>): (calls: seq<Call>)
    ensures |calls| == |cfgs|
  {
    seq(|cfgs|, j requires 0 <= j < |cfgs| => DeleteCall(cfgs[j].name))
  }

  /** Where a run of calls that stops at the first error stops: every call
      before it succeeds, and the call at it (if any) fails. */
  function FirstFailure(m: Manager, net: Request -> Exchange, calls: seq<Call>): (k: nat)
    ensures k <= |calls|
    ensures forall j :: 0 <= j < k ==> Perform(m, net, calls[j]).Pass?
    ensures k < |calls| ==> Perform(m, net, calls[k]).Fail?
  {
    if calls == [] then 0
    else if Perform(m, net, calls[0]).Fail? then 0
    else 1 + FirstFailure(m, net, calls[1..])
  }

  /** The calls made: up to and including the first that fails. */
  function Attempted(m: Manager, net: Request -> Exchange, calls: seq<Call>): seq<Call> {
    var k := FirstFailure(m, net, calls);
    if k < |calls| then calls[..k + 1] else calls
  }

  /** The error of the first failing call, if any. */
  function FailFast(m: Manager, net: Request -> Exchange, calls: seq<Call>): Outcome<string> {
    var k := FirstFailure(m, net, calls);
    if k < |calls| then Perform(m, net, calls[k]) else Pass
  }

  /** The calls a sync of `key` makes, or the lister error it returns. A
      malformed key and a monitor that is gone need nothing. */
  ghost function SyncPlan(c: Setup, lookup: (string, string) -> Lookup, key: string): Result<seq<Call>, string> {
    match SplitMetaNamespaceKey(key)
    case None => Ok([])
    case Some(nsName) =>
      match lookup(nsName.0, nsName.1)
      case NotFound => Ok([])
      case LookupFailed(e) => Err(e)
      case Found(sm) => Ok(Updates(Translate(Live, c.writer.rwc, c.parsers, sm)))
  }

  /** The calls a delete of `key` makes: the tombstone's configs when there
      is one, otherwise those of the monitor the lister still has. */
  ghost function DeletePlan(c: Setup, removed: map<string, ServiceMonitor>, lookup: (string, string) -> Lookup, key: string): Result<seq<Call>, string> {
    if key in removed then Ok(Deletes(Translate(Live, c.writer.rwc, c.parsers, removed[key])))
    else
      match SplitMetaNamespaceKey(key)
      case None => Ok([])
      case Some(nsName) =>
        match lookup(nsName.0, nsName.1)
        case NotFound => Ok([])
        case LookupFailed(e) => Err(e)
        case Found(sm) => Ok(Deletes(Translate(Live, c.writer.rwc, c.parsers, sm)))
  }

  ghost function PlanCalls(m: Manager, net: Request -> Exchange, plan: Result<seq<Call>, string>): seq<Call> {
    if plan.Err? then [] else Attempted(m, net, plan.value)
  }

  ghost function PlanOutcome(m: Manager, net: Request -> Exchange, plan: Result<seq<Call>, string>): Outcome<string> {
    if plan.Err? then Fail(plan.error) else FailFast(m, net, plan.value)
  }

  ghost function TargetPlan(c: Setup, env: Env, s: State, t: Item): Result<seq<Call>, string>
    requires t.Target?
  {
    if t.delete then DeletePlan(c, s.removed, env.lookup, t.key) else SyncPlan(c, env.lookup, t.key)
  }

  /** One `reconcile`: take the oldest item; a foreign item is forgotten; a
      target is synced or deleted, then forgotten on success and put back
      rate-limited on error. With nothing waiting after shut-down it
      reports that the worker should stop. */
  ghost function ReconcileStep(c: Setup, env: Env, s: State): (State, bool)
    requires |s.queue| > 0 || s.shuttingDown
  {
    if |s.queue| == 0 then (s, false)
    else
      var item := s.queue[0];
      var s1 := s.(queue := s.queue[1..]);
      if item.Foreign? then (s1.Forget(item), true)
      else
        var plan := TargetPlan(c, env, s1, item);
        var s2 := s1.(sent := s1.sent + PlanCalls(c.manager, env.net, plan));
        if PlanOutcome(c.manager, env.net, plan).Fail? then (s2.AddRateLimited(item), true)
        else (s2.Forget(item), true)
  }

  /** One reconcile takes the oldest item, tells the worker to go on, and
      only adds to the calls made. */
  lemma ReconcileTakesOldest(c: Setup, env: Env, s: State)
    requires |s.queue| > 0
    ensures var (s1, more) := ReconcileStep(c, env, s);
      && more
      && s1.queue == s.queue[1..]
      && s1.removed == s.removed
      && s1.shuttingDown == s.shuttingDown
      && |s1.sent| >= |s.sent| && s1.sent[..|s.sent|] == s.sent
  {
  }

  /** `runWorker` until the queue is empty: reconcile the oldest item, again
      and again. Each step takes one item off the queue and only adds to the
      calls made. */
  ghost function Drain(c: Setup, env: Env, s: State): (r: State)
    ensures r.queue == []
    ensures r.removed == s.removed && r.shuttingDown == s.shuttingDown
    ensures |r.sent| >= |s.sent| && r.sent[..|s.sent|] == s.sent
    decreases |s.queue|
  {
    if |s.queue| == 0 then s
    else
      var s1 := ReconcileStep(c, env, s).0;
      ReconcileTakesOldest(c, env, s);
      var r := Drain(c, env, s1);
      assert r.sent[..|s.sent|] == r.sent[..|s1.sent|][..|s.sent|];
      r
  }

  /** The names of the configs one monitor produces. */
  function MonitorNames(sm: ServiceMonitor): set<string> {
    set i | 0 <= i < |sm.spec.endpoints| :: JobName(sm, i)
  }

  /** The names of the configs the live monitors produce. */
  function Produced(store: seq<ServiceMonitor>): set<string> {
    if store == [] then {} else Produced(store[..|store| - 1]) + MonitorNames(store[|store| - 1])
  }

  /** Configs the agent holds that no live monitor produces any more. */
  function Stale(existing: seq<string>, store: seq<ServiceMonitor>): set<string> {
    (set n | n in existing) - Produced(store)
  }

  function DeleteCalls(names: set<string>): set<Call> {
    set n | n in names :: DeleteCall(n)
  }

  class Controller {
    const manager: Manager
    const writer: Writer
    const parsers: Parsers

    /** `removedServiceMonitors`: the last state of deleted monitors, by key. */
    var removed: map<string, ServiceMonitor>
    /** The work queue: items waiting, oldest first. */
    var queue: seq<Item>
    /** Items put back after an error, waiting out their backoff. */
    var delayed: seq<Item>
    /** The rate limiter's failure count per item. */
    var failures: map<Item, nat>
    var shuttingDown: bool
    /** Every call made on the config manager, in order. */
    var sent: seq<Call>

    function Parts(): Setup {
      Setup(manager, writer, parsers)
    }

    ghost function Model(): State
      reads this
    {
      State(removed, queue, delayed, failures, shuttingDown, sent)
    }

    ghost predicate Valid()
      reads this
    {
      Model().Valid()
    }

    constructor (manager: Manager, writer: Writer, parsers: Parsers)
      ensures Parts() == Setup(manager, writer, parsers)
      ensures Model() == Initial
      ensures Valid()
    {
      this.manager := manager;
      this.writer := writer;
      this.parsers := parsers;
      removed := map[];
      queue := [];
      delayed := [];
      failures := map[];
      shuttingDown := false;
      sent := [];
    }

    method Add(x: Item)
      modifies this
      ensures Model() == old(Model()).Add(x)
    {
      if !shuttingDown && x !in queue {
        queue := queue + [x];
      }
    }

    method AddRateLimited(x: Item)
      modifies this
      ensures Model() == old(Model()).AddRateLimited(x)
    {
      var n := if x in failures then failures[x] else 0;
      failures := failures[x := n + 1];
      if !shuttingDown {
        delayed := delayed + [x];
      }
    }

    method Forget(x: Item)
      modifies this
      ensures Model() == old(Model()).Forget(x)
    {
      failures := failures - {x};
    }

    /** `enqueue`. */
    method Enqueue(sm: ServiceMonitor)
      modifies this
      ensures Model() == AfterEnqueue(old(Model()), sm)
    {
      var key := KeyOf(sm);
      removed := removed - {key};
      Add(Target(sm.kind, key, false));
    }

    /** `enqueueDelete`. */
    method EnqueueDelete(sm: ServiceMonitor)
      modifies this
      ensures Model() == AfterEnqueueDelete(old(Model()), sm)
    {
      var key := KeyOf(sm);
      removed := removed[key := sm];
      Add(Target(sm.kind, key, true));
    }

    /** The informer's update handler. */
    method OnUpdate(oldSm: ServiceMonitor, newSm: ServiceMonitor)
      modifies this
      ensures Model() == AfterUpdate(old(Model()), oldSm, newSm)
    {
      if oldSm.resourceVersion == newSm.resourceVersion {
        return;
      }
      Enqueue(newSm);
    }

    /** One call on the config manager. */
    method CallManager(net: Request -> Exchange, call: Call) returns (o: Outcome<string>)
      modifies this
      ensures removed == old(removed) && queue == old(queue) && delayed == old(delayed)
      ensures failures == old(failures) && shuttingDown == old(shuttingDown)
      ensures sent == old(sent) + [call]
      ensures o == Perform(manager, net, call)
    {
      sent := sent + [call];
      o := Perform(manager, net, call);
    }

    /** The loop shared by sync and delete: one call per config, returning
        the first error. */
    method PerformEach(net: Request -> Exchange, calls: seq<Call>) returns (err: Outcome<string>)
      modifies this
      ensures removed == old(removed) && queue == old(queue) && delayed == old(delayed)
      ensures failures == old(failures) && shuttingDown == old(shuttingDown)
      ensures sent == old(sent) + Attempted(manager, net, calls)
      ensures err == FailFast(manager, net, calls)
    {
      for i := 0 to |calls|
        invariant i <= FirstFailure(manager, net, calls)
        invariant removed == old(removed) && queue == old(queue) && delayed == old(delayed)
        invariant failures == old(failures) && shuttingDown == old(shuttingDown)
        invariant sent == old(sent) + calls[..i]
      {
        err := CallManager(net, calls[i]);
        FirstFailureStep(manager, net, calls, i);
        assert calls[..i] + [calls[i]] == calls[..i + 1];
        if err.Fail? {
          return;
        }
      }
      assert calls[..|calls|] == calls;
      err := Pass;
    }

    /** `syncCachedKey`: push every config of the monitor to the agent. */
    method SyncCachedKey(env: Env, key: string) returns (err: Outcome<string>)
      modifies this
      ensures var plan := SyncPlan(Parts(), env.lookup, key);
        && Model() == old(Model()).(sent := old(sent) + PlanCalls(manager, env.net, plan))
        && err == PlanOutcome(manager, env.net, plan)
    {
      var split := SplitMetaNamespaceKey(key);
      if split.None? {
        return Pass;
      }
      var found := env.lookup(split.value.0, split.value.1);
      if found.NotFound? {
        return Pass;
      } else if found.LookupFailed? {
        return Fail(found.err);
      }
      var cfgs := ServiceMonitorWriter.ScrapeConfigsForServiceMonitor(writer, parsers, found.sm);
      err := PerformEach(env.net, Updates(cfgs));
    }

    /** `deleteCachedKey`: remove every config of the deleted monitor from
        the agent, preferring its tombstone to the lister. */
    method DeleteCachedKey(env: Env, key: string) returns (err: Outcome<string>)
      modifies this
      ensures var plan := DeletePlan(Parts(), old(removed), env.lookup, key);
        && Model() == old(Model()).(sent := old(sent) + PlanCalls(manager, env.net, plan))
        && err == PlanOutcome(manager, env.net, plan)
    {
      var sm: ServiceMonitor;
      if key in removed {
        sm := removed[key];
      } else {
        var split := SplitMetaNamespaceKey(key);
        if split.None? {
          return Pass;
        }
        var found := env.lookup(split.value.0, split.value.1);
        if found.NotFound? {
          return Pass;
        } else if found.LookupFailed? {
          return Fail(found.err);
        }
        sm := found.sm;
      }
      var cfgs := ServiceMonitorWriter.ScrapeConfigsForServiceMonitor(writer, parsers, sm);
      err := PerformEach(env.net, Deletes(cfgs));
    }

    /** `reconcile`: process one item of the queue. */
    method Reconcile(env: Env) returns (more: bool)
      requires |queue| > 0 || shuttingDown
      modifies this
      ensures (Model(), more) == ReconcileStep(Parts(), env, old(Model()))
    {
      if |queue| == 0 {
        return false;
      }
      var item := queue[0];
      queue := queue[1..];
      more := true;
      if item.Foreign? {
        Forget(item);
        return;
      }
      var err;
      if item.delete {
        err := DeleteCachedKey(env, item.key);
      } else {
        err := SyncCachedKey(env, item.key);
      }
      if err.Fail? {
        AddRateLimited(item);
      } else {
        Forget(item);
      }
    }

    /** `runWorker`: reconcile until the queue has nothing more to give; the
        answer says whether the worker stopped for shut-down. */
    method RunWorker(env: Env) returns (stopped: bool)
      modifies this
      ensures Model() == Drain(Parts(), env, old(Model()))
      ensures stopped == shuttingDown
    {
      while |queue| > 0
        invariant Drain(Parts(), env, Model()) == Drain(Parts(), env, old(Model()))
        decreases |queue|
      {
        var _ := Reconcile(env);
      }
      if shuttingDown {
        var more := Reconcile(env);
        assert !more;
      }
      stopped := shuttingDown;
    }

    /** `Run` up to starting the workers: list the agent's configs, wait for
        the cache, delete every config no live monitor produces (whatever
        each deletion answers), and shut the queue down on the way out. */
    method Run(net: Request -> Exchange, synced: Outcome<string>, store: seq<ServiceMonitor>) returns (err: Outcome<string>)
      modifies this
      ensures shuttingDown
      ensures removed == old(removed) && queue == old(queue) && delayed == old(delayed) && failures == old(failures)
      ensures var listed := ListScrapeConfigs(manager, net);
        && (listed.Err? ==> err == Fail("failed to list existing configs: " + listed.error) && sent == old(sent))
        && (listed.Ok? && synced.Fail? ==>
              err == Fail("one or more caches failed to sync: " + synced.error) && sent == old(sent))
        && (listed.Ok? && synced.Pass? ==>
              && err == Pass
              && |sent| >= |old(sent)|
              && sent[..|old(sent)|] == old(sent)
              && multiset(sent[|old(sent)|..]) == multiset(DeleteCalls(Stale(listed.value, store))))
    {
      var listed := ListScrapeConfigs(manager, net);
      if listed.Err? {
        shuttingDown := true;
        return Fail("failed to list existing configs: " + listed.error);
      }
      var known := NameSet(listed.value);
      if synced.Fail? {
        shuttingDown := true;
        return Fail("one or more caches failed to sync: " + synced.error);
      }
      known := ForgetProduced(store, known);
      DeleteAll(net, known);
      shuttingDown := true;
      err := Pass;
    }

    /** Deletes every name once, in no particular order, carrying on past errors. */
    method DeleteAll(net: Request -> Exchange, names: set<string>)
      modifies this
      ensures removed == old(removed) && queue == old(queue) && delayed == old(delayed)
      ensures failures == old(failures) && shuttingDown == old(shuttingDown)
      ensures |sent| >= |old(sent)| && sent[..|old(sent)|] == old(sent)
      ensures multiset(sent[|old(sent)|..]) == multiset(DeleteCalls(names))
    {
      var pending := names;
      while pending != {}
        invariant pending <= names
        invariant removed == old(removed) && queue == old(queue) && delayed == old(delayed)
        invariant failures == old(failures) && shuttingDown == old(shuttingDown)
        invariant |sent| >= |old(sent)| && sent[..|old(sent)|] == old(sent)
        invariant multiset(sent[|old(sent)|..]) == multiset(DeleteCalls(names - pending))
        decreases |pending|
      {
        var n :| n in pending;
        ghost var done := sent[|old(sent)|..];
        var _ := CallManager(net, DeleteCall(n));
        assert sent[|old(sent)|..] == done + [DeleteCall(n)];
        DeleteCallsGrow(names - pending, n);
        assert names - (pending - {n}) == (names - pending) + {n};
        pending := pending - {n};
      }
      assert names - pending == names;
    }

    /** Drops from `known` the name of every config one monitor produces. */
    method ForgetMonitor(sm: ServiceMonitor, known0: set<string>) returns (known: set<string>)
      ensures known == known0 - MonitorNames(sm)
    {
      var cfgs := ServiceMonitorWriter.ScrapeConfigsForServiceMonitor(writer, parsers, sm);
      TranslationLemmas.TranslateShape(Live, writer.rwc, parsers, sm);
      known := ForgetNames(sm, cfgs, known0);
    }

    /** Drops from `known` the name of every config a live monitor produces. */
    method ForgetProduced(store: seq<ServiceMonitor>, known0: set<string>) returns (known: set<string>)
      ensures known == known0 - Produced(store)
    {
      known := known0;
      for k := 0 to |store|
        invariant known == known0 - Produced(store[..k])
      {
        known := ForgetMonitor(store[k], known);
        assert store[..k + 1][..k] == store[..k];
      }
      assert store[..|store|] == store;
    }
  }

  /** The names of the first `n` endpoints of a monitor. */
  function FirstNames(sm: ServiceMonitor, n: nat): set<string> {
    set i | 0 <= i < n :: JobName(sm, i)
  }

  /** Drops the name of each of a monitor's configs from `known0`, in order. */
  method ForgetNames(sm: ServiceMonitor, cfgs: seq<InstanceConfig>, known0: set<string>) returns (known: set<string>)
    requires |cfgs| == |sm.spec.endpoints|
    requires forall i :: 0 <= i < |cfgs| ==> cfgs[i].name == JobName(sm, i)
    ensures known == known0 - MonitorNames(sm)
  {
    known := known0;
    for j := 0 to |cfgs|
      invariant known == known0 - FirstNames(sm, j)
    {
      known := known - {cfgs[j].name};
      assert FirstNames(sm, j + 1) == FirstNames(sm, j) + {JobName(sm, j)};
    }
    assert FirstNames(sm, |cfgs|) == MonitorNames(sm);
  }

  /** The set of listed names (`knownServiceMonitors`). */
  method NameSet(existing: seq<string>) returns (known: set<string>)
    ensures known == set n | n in existing
  {
    known := {};
    for i := 0 to |existing|
      invariant known == set n | n in existing[..i]
    {
      known := known + {existing[i]};
    }
    assert existing[..|existing|] == existing;
  }

  /** Stepping over one call of a fail-fast run: a failure there ends the
      run, a success moves the bound past it. */
  lemma FirstFailureStep(m: Manager, net: Request -> Exchange, calls: seq<Call>, i: nat)
    requires i < |calls| && i <= FirstFailure(m, net, calls)
    ensures Perform(m, net, calls[i]).Fail? ==>
      FirstFailure(m, net, calls) == i && Attempted(m, net, calls) == calls[..i + 1] &&
      FailFast(m, net, calls) == Perform(m, net, calls[i])
    ensures Perform(m, net, calls[i]).Pass? ==> i + 1 <= FirstFailure(m, net, calls)
  {
  }

  lemma DeleteCallsGrow(names: set<string>, n: string)
    requires n !in names
    ensures multiset(DeleteCalls(names + {n})) == multiset(DeleteCalls(names)) + multiset{DeleteCall(n)}
  {
    assert DeleteCalls(names + {n}) == DeleteCalls(names) + {DeleteCall(n)};
    assert DeleteCall(n) !in DeleteCalls(names);
  }

  /** `NewControllerForConfig`: no controller when the remote-write URL
      does not parse; otherwise one whose writer sends to that URL. */
  method NewControllerForConfig(manager: Manager, parsers: Parsers, remoteWriteUrl: string) returns (r: Option<Controller>)
    ensures r.None? <==> parsers.url(remoteWriteUrl).None?
    ensures r.Some? ==> fresh(r.value) && r.value.Model() == Initial && r.value.Valid()
    ensures r.Some? ==> r.value.Parts() == Setup(manager, NewWriter(RemoteWriteConfig(parsers.url(remoteWriteUrl))), parsers)
  {
    var u := parsers.url(remoteWriteUrl);
    if u.None? {
      return None;
    }
    var c := new Controller(manager, NewWriter(RemoteWriteConfig(u)), parsers);
    r := Some(c);
  }
}
