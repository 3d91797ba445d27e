/** What the controller's steps guarantee: how the event handlers use the
    tombstones, what one reconcile does with its item, that a failing call
    stops a sync or delete, and that start-up cleanup removes exactly the
    configs no live monitor produces. */
module OperatorLemmas {
  import opened Wrappers
  import opened Monitoring
  import opened Translation
  import opened TranslationLemmas
  import opened ConfigManager
  import opened Operator

  // ------------------------------------------------------------------ keys

  /** A monitor's key splits back into its namespace and name (Kubernetes
      names and namespaces hold no slash). */
  lemma SplitKeyOf(sm: ServiceMonitor)
    requires '/' !in sm.namespace && '/' !in sm.name
    ensures SplitMetaNamespaceKey(KeyOf(sm)) == Some((sm.namespace, sm.name))
  {
    var key := KeyOf(sm);
    if sm.namespace == "" {
      assert SlashIndex(key) == |key|;
    } else {
      var k := |sm.namespace|;
      assert key[k] == '/';
      assert SlashIndex(key) == k;
      assert key[..k] == sm.namespace && key[k + 1..] == sm.name;
    }
  }

  // ------------------------------------------------------------- fail fast

  /** A run of calls succeeds exactly when every call does, and then every
      call was made; otherwise the calls made end with the one that failed,
      whose error is returned. */
  lemma FailFastAll(m: Manager, net: Request -> Exchange, calls: seq<Call>)
    ensures FailFast(m, net, calls).Pass? <==> forall j :: 0 <= j < |calls| ==> Perform(m, net, calls[j]).Pass?
    ensures FailFast(m, net, calls).Pass? ==> Attempted(m, net, calls) == calls
    ensures FailFast(m, net, calls).Fail? ==>
      var a := Attempted(m, net, calls);
      && 0 < |a| <= |calls| && a == calls[..|a|]
      && FailFast(m, net, calls) == Perform(m, net, a[|a| - 1])
      && forall j :: 0 <= j < |a| - 1 ==> Perform(m, net, a[j]).Pass?
  {
    var k := FirstFailure(m, net, calls);
    var a := Attempted(m, net, calls);
    if k < |calls| {
      assert a == calls[..k + 1] && |a| == k + 1;
      assert a[k] == calls[k];
      assert forall j :: 0 <= j < k ==> a[j] == calls[j];
      assert FailFast(m, net, calls) == Perform(m, net, calls[k]);
    } else {
      assert a == calls && FailFast(m, net, calls) == Pass;
    }
  }

  /** The calls made are a prefix of those planned. */
  lemma AttemptedPrefix(m: Manager, net: Request -> Exchange, calls: seq<Call>)
    ensures |Attempted(m, net, calls)| <= |calls|
    ensures Attempted(m, net, calls) == calls[..|Attempted(m, net, calls)|]
  {
  }

  // --------------------------------------------------------- sync and delete

  /** A sync of a monitor the lister has updates each of its configs, one
      call per endpoint, in endpoint order, under distinct names. */
  lemma SyncUpdatesEveryConfig(c: Setup, lookup: (string, string) -> Lookup, sm: ServiceMonitor)
    requires '/' !in sm.namespace && '/' !in sm.name
    requires lookup(sm.namespace, sm.name) == Found(sm)
    ensures var plan := SyncPlan(c, lookup, KeyOf(sm));
      && plan.Ok?
      && |plan.value| == |sm.spec.endpoints|
      && (forall i :: 0 <= i < |plan.value| ==>
            plan.value[i].UpdateCall? && plan.value[i].cfg.name == JobName(sm, i))
      && (forall i, j :: 0 <= i < j < |plan.value| ==> plan.value[i] != plan.value[j])
  {
    SplitKeyOf(sm);
    TranslateShape(Live, c.writer.rwc, c.parsers, sm);
  }

  /** A key that does not split, or names a monitor that is gone, needs no
      call and is not an error; any other lister error is returned and no
      call is made. */
  lemma SyncLookupCases(c: Setup, env: Env, key: string)
    ensures SplitMetaNamespaceKey(key).None? ==>
      PlanCalls(c.manager, env.net, SyncPlan(c, env.lookup, key)) == [] &&
      PlanOutcome(c.manager, env.net, SyncPlan(c, env.lookup, key)) == Pass
    ensures var split := SplitMetaNamespaceKey(key);
      split.Some? && env.lookup(split.value.0, split.value.1).NotFound? ==>
      PlanCalls(c.manager, env.net, SyncPlan(c, env.lookup, key)) == [] &&
      PlanOutcome(c.manager, env.net, SyncPlan(c, env.lookup, key)) == Pass
    ensures var split := SplitMetaNamespaceKey(key);
      split.Some? && env.lookup(split.value.0, split.value.1).LookupFailed? ==>
      PlanCalls(c.manager, env.net, SyncPlan(c, env.lookup, key)) == [] &&
      PlanOutcome(c.manager, env.net, SyncPlan(c, env.lookup, key)) == Fail(env.lookup(split.value.0, split.value.1).err)
  {
    assert FirstFailure(c.manager, env.net, []) == 0;
  }

  /** With a tombstone the lister is not consulted. */
  lemma DeletePrefersTombstone(c: Setup, removed: map<string, ServiceMonitor>,
                               lookup1: (string, string) -> Lookup, lookup2: (string, string) -> Lookup, key: string)
    requires key in removed
    ensures DeletePlan(c, removed, lookup1, key) == DeletePlan(c, removed, lookup2, key)
    ensures DeletePlan(c, removed, lookup1, key) == Ok(Deletes(Translate(Live, c.writer.rwc, c.parsers, removed[key])))
  {
  }

  /** A delete of a key with a tombstone deletes exactly the configs the
      deleted monitor translates to, one per endpoint, in endpoint order. */
  lemma DeleteEveryConfig(c: Setup, removed: map<string, ServiceMonitor>,
                          lookup: (string, string) -> Lookup, key: string)
    requires key in removed
    ensures var plan := DeletePlan(c, removed, lookup, key);
      && plan.Ok?
      && |plan.value| == |removed[key].spec.endpoints|
      && (forall i :: 0 <= i < |plan.value| ==> plan.value[i] == DeleteCall(JobName(removed[key], i)))
  {
    TranslateShape(Live, c.writer.rwc, c.parsers, removed[key]);
  }

  /** Without a tombstone, a key that does not split, or names a monitor the
      lister no longer has, needs no call and is not an error; any other
      lister error is returned and no call is made. */
  lemma DeleteLookupCases(c: Setup, removed: map<string, ServiceMonitor>, env: Env, key: string)
    requires key !in removed
    ensures SplitMetaNamespaceKey(key).None? ==>
      PlanCalls(c.manager, env.net, DeletePlan(c, removed, env.lookup, key)) == [] &&
      PlanOutcome(c.manager, env.net, DeletePlan(c, removed, env.lookup, key)) == Pass
    ensures var split := SplitMetaNamespaceKey(key);
      split.Some? && env.lookup(split.value.0, split.value.1).NotFound? ==>
      PlanCalls(c.manager, env.net, DeletePlan(c, removed, env.lookup, key)) == [] &&
      PlanOutcome(c.manager, env.net, DeletePlan(c, removed, env.lookup, key)) == Pass
    ensures var split := SplitMetaNamespaceKey(key);
      split.Some? && env.lookup(split.value.0, split.value.1).LookupFailed? ==>
      PlanCalls(c.manager, env.net, DeletePlan(c, removed, env.lookup, key)) == [] &&
      PlanOutcome(c.manager, env.net, DeletePlan(c, removed, env.lookup, key)) == Fail(env.lookup(split.value.0, split.value.1).err)
  {
    assert FirstFailure(c.manager, env.net, []) == 0;
  }

  // ------------------------------------------------------------ event handlers

  /** After the delete handler, a delete of that key removes exactly the
      configs of the deleted monitor, whatever the lister says by then. */
  lemma DeleteAfterEnqueueDelete(c: Setup, s: State, sm: ServiceMonitor, lookup: (string, string) -> Lookup)
    ensures var s1 := AfterEnqueueDelete(s, sm);
      && s1.removed[KeyOf(sm)] == sm
      && DeletePlan(c, s1.removed, lookup, KeyOf(sm)) == Ok(Deletes(Translate(Live, c.writer.rwc, c.parsers, sm)))
      && (!s.shuttingDown ==> Target(sm.kind, KeyOf(sm), true) in s1.queue)
  {
  }

  /** After the add handler the monitor's tombstone is gone, so a delete
      still queued for that key only acts on what the lister says. */
  lemma EnqueueDropsTombstone(c: Setup, s: State, sm: ServiceMonitor, lookup: (string, string) -> Lookup)
    ensures var s1 := AfterEnqueue(s, sm);
      && KeyOf(sm) !in s1.removed
      && DeletePlan(c, s1.removed, lookup, KeyOf(sm)) == DeletePlan(c, map[], lookup, KeyOf(sm))
      && (!s.shuttingDown ==> Target(sm.kind, KeyOf(sm), false) in s1.queue)
      && (s.shuttingDown ==> s1.queue == s.queue)
  {
  }

  /** A resync with an unchanged resource version leaves the state alone;
      a changed one is handled like an add. */
  lemma UpdateNeedsNewVersion(s: State, oldSm: ServiceMonitor, newSm: ServiceMonitor)
    ensures oldSm.resourceVersion == newSm.resourceVersion ==> AfterUpdate(s, oldSm, newSm) == s
    ensures oldSm.resourceVersion != newSm.resourceVersion ==> AfterUpdate(s, oldSm, newSm) == AfterEnqueue(s, newSm)
  {
  }

  /** The handlers keep the state well formed. */
  lemma HandlersKeepValid(s: State, sm: ServiceMonitor)
    requires s.Valid()
    ensures AfterEnqueue(s, sm).Valid()
    ensures AfterEnqueueDelete(s, sm).Valid()
  {
  }

  // --------------------------------------------------------------- reconcile

  /** With nothing left after shut-down the worker is told to stop and
      nothing changes. */
  lemma ReconcileStops(c: Setup, env: Env, s: State)
    requires |s.queue| == 0 && s.shuttingDown
    ensures ReconcileStep(c, env, s) == (s, false)
  {
  }

  /** An item that is not a target is forgotten without any call. */
  lemma ReconcileForeign(c: Setup, env: Env, s: State)
    requires |s.queue| > 0 && s.queue[0].Foreign?
    ensures ReconcileStep(c, env, s).0 == s.(queue := s.queue[1..], failures := s.failures - {s.queue[0]})
  {
  }

  /** A target is forgotten after success; after an error its failure
      count grows by one and it waits to be retried. */
  lemma ReconcileRateLimits(c: Setup, env: Env, s: State)
    requires |s.queue| > 0 && s.queue[0].Target?
    ensures var s1 := ReconcileStep(c, env, s).0;
      var item := s.queue[0];
      var err := PlanOutcome(c.manager, env.net, TargetPlan(c, env, s.(queue := s.queue[1..]), item));
      && (err.Pass? ==> item !in s1.failures && s1.delayed == s.delayed)
      && (err.Fail? ==>
            && item in s1.failures
            && s1.failures[item] == (if item in s.failures then s.failures[item] else 0) + 1
            && s1.delayed == (if s.shuttingDown then s.delayed else s.delayed + [item]))
  {
  }

  /** The calls a plan makes come from the plan. */
  lemma PlanCallsFromPlan(m: Manager, net: Request -> Exchange, plan: Result<seq<Call>, string>, j: nat)
    requires j < |PlanCalls(m, net, plan)|
    ensures plan.Ok? && j < |plan.value| && PlanCalls(m, net, plan)[j] == plan.value[j]
  {
    AttemptedPrefix(m, net, plan.value);
  }

  /** A delete target only deletes and a sync target only updates. */
  lemma ReconcileCallKinds(c: Setup, env: Env, s: State)
    requires |s.queue| > 0 && s.queue[0].Target?
    ensures var s1 := ReconcileStep(c, env, s).0;
      forall j :: |s.sent| <= j < |s1.sent| ==>
        if s.queue[0].delete then s1.sent[j].DeleteCall? else s1.sent[j].UpdateCall?
  {
    var item := s.queue[0];
    var plan := TargetPlan(c, env, s.(queue := s.queue[1..]), item);
    var made := PlanCalls(c.manager, env.net, plan);
    var s1 := ReconcileStep(c, env, s).0;
    ReconcileTargetSends(c, env, s);
    forall j | |s.sent| <= j < |s1.sent|
      ensures if item.delete then s1.sent[j].DeleteCall? else s1.sent[j].UpdateCall?
    {
      assert s1.sent[j] == made[j - |s.sent|];
      PlanCallsFromPlan(c.manager, env.net, plan, j - |s.sent|);
    }
  }

  /** A reconcile of a target appends the calls its plan makes. */
  lemma ReconcileTargetSends(c: Setup, env: Env, s: State)
    requires |s.queue| > 0 && s.queue[0].Target?
    ensures ReconcileStep(c, env, s).0.sent
      == s.sent + PlanCalls(c.manager, env.net, TargetPlan(c, env, s.(queue := s.queue[1..]), s.queue[0]))
  {
  }

  /** A reconcile keeps the state well formed. */
  lemma ReconcileKeepsValid(c: Setup, env: Env, s: State)
    requires s.Valid()
    requires |s.queue| > 0 || s.shuttingDown
    ensures ReconcileStep(c, env, s).0.Valid()
  {
    if |s.queue| > 0 {
      ReconcileTakesOldest(c, env, s);
      var q := s.queue[1..];
      assert forall i, j :: 0 <= i < j < |q| ==> q[i] == s.queue[i + 1] && q[j] == s.queue[j + 1];
    }
  }

  /** A worker that drains the queue keeps the state well formed. */
  lemma {:induction false} DrainKeepsValid(c: Setup, env: Env, s: State)
    requires s.Valid()
    ensures Drain(c, env, s).Valid()
    decreases |s.queue|
  {
    if |s.queue| > 0 {
      ReconcileKeepsValid(c, env, s);
      ReconcileTakesOldest(c, env, s);
      DrainKeepsValid(c, env, ReconcileStep(c, env, s).0);
    }
  }

  /** Draining a queue of items that are not targets makes no call and
      clears their failure counts. */
  lemma {:induction false} DrainForeign(c: Setup, env: Env, s: State)
    requires forall j :: 0 <= j < |s.queue| ==> s.queue[j].Foreign?
    ensures Drain(c, env, s).sent == s.sent
    ensures forall j :: 0 <= j < |s.queue| ==> s.queue[j] !in Drain(c, env, s).failures
    decreases |s.queue|
  {
    if |s.queue| > 0 {
      ReconcileForeign(c, env, s);
      var s1 := ReconcileStep(c, env, s).0;
      assert forall j :: 0 <= j < |s1.queue| ==> s1.queue[j] == s.queue[j + 1];
      DrainForeign(c, env, s1);
      var r := Drain(c, env, s);
      forall j | 0 <= j < |s.queue|
        ensures s.queue[j] !in r.failures
      {
        if j > 0 {
          assert s.queue[j] == s1.queue[j - 1];
        } else {
          DrainKeepsForgotten(c, env, s1, s.queue[0]);
        }
      }
    }
  }

  /** Draining foreign items never brings back a failure count. */
  lemma {:induction false} DrainKeepsForgotten(c: Setup, env: Env, s: State, x: Item)
    requires forall j :: 0 <= j < |s.queue| ==> s.queue[j].Foreign?
    requires x !in s.failures
    ensures x !in Drain(c, env, s).failures
    decreases |s.queue|
  {
    if |s.queue| > 0 {
      ReconcileForeign(c, env, s);
      var s1 := ReconcileStep(c, env, s).0;
      assert forall j :: 0 <= j < |s1.queue| ==> s1.queue[j] == s.queue[j + 1];
      DrainKeepsForgotten(c, env, s1, x);
    }
  }

  // ------------------------------------------------------------------- drift

  lemma {:induction false} ProducedMembers(store: seq<ServiceMonitor>, n: string)
    ensures n in Produced(store) <==>
      exists k, i :: 0 <= k < |store| && 0 <= i < |store[k].spec.endpoints| && JobName(store[k], i) == n
  {
    if store != [] {
      var init, last := store[..|store| - 1], store[|store| - 1];
      ProducedMembers(init, n);
      if n in Produced(init) {
        var k, i :| 0 <= k < |init| && 0 <= i < |init[k].spec.endpoints| && JobName(init[k], i) == n;
        assert store[k] == init[k];
      } else if n in MonitorNames(last) {
        var i :| 0 <= i < |last.spec.endpoints| && JobName(last, i) == n;
        assert store[|store| - 1] == last;
      }
      forall k, i | 0 <= k < |store| && 0 <= i < |store[k].spec.endpoints| && JobName(store[k], i) == n
        ensures n in Produced(store)
      {
        if k < |init| {
          assert init[k] == store[k];
        } else {
          assert JobName(last, i) in MonitorNames(last);
        }
      }
    }
  }

  /** Start-up cleanup targets exactly the configs the agent lists that no
      live monitor's translation still produces. */
  lemma StaleExactly(c: Setup, existing: seq<string>, store: seq<ServiceMonitor>, n: string)
    ensures n in Stale(existing, store) <==>
      && n in existing
      && forall k, j :: 0 <= k < |store| && 0 <= j < |Translate(Live, c.writer.rwc, c.parsers, store[k])| ==>
           Translate(Live, c.writer.rwc, c.parsers, store[k])[j].name != n
  {
    ProducedMembers(store, n);
    forall k | 0 <= k < |store| {
      TranslateShape(Live, c.writer.rwc, c.parsers, store[k]);
    }
  }
}
