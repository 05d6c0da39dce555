/** What lies in the clusters after an undisturbed Apply without errors, object by object: which
    keys are written and swept, and with which content. */
module InstalledContents {
  import opened Wrappers
  import opened Json
  import opened Cluster
  import opened Managed
  import opened Manager
  import opened ApplyOutcome
  import opened Graph
  import opened HelmValues
  import opened HelmTheorems
  import opened HelmContents
  import opened Controller
  import opened ControllerTheorems
  import opened PlanContents
  import ApplyConvergence
  import GraphTheorems
  import TeardownSafety
  import Instance

  // ----- The places written to -----

  /** Where the managed objects of a configuration are stored. */
  ghost predicate ManagedKey(s: Setup, k: Key) {
    || k == Key(s.cp, Namespace, "", s.otelNamespace)
    || k == Key(s.cp, ServiceAccount, s.otelNamespace, "otel-operator-server")
    || k == Key(s.cp, ClusterRoleBinding, "", "otel-operator-server")
    || k == Key(s.workload, Namespace, "", s.workloadNamespace)
    || k == Key(s.workload, Secret, s.workloadNamespace, "kube-api-access-otel-operator-server")
    || (s.ca.Some? && k == Key(s.workload, ConfigMap, s.workloadNamespace, "custom-ca-bundle"))
    || (k.name in s.pulls && k == Key(s.workload, Secret, s.workloadNamespace, k.name))
    || (s.chart.Some? && k == Key(s.platform, Secret, s.tenantNamespace, s.chart.value.target))
    || k == Key(s.platform, OCIRepository, s.tenantNamespace, s.name)
    || k == Key(s.platform, HelmRelease, s.tenantNamespace, s.name + "-crds")
    || k == Key(s.platform, HelmRelease, s.tenantNamespace, s.name + "-workload")
  }

  /** Where leftovers are swept: other Secrets and ConfigMaps of the instance namespace, and other
      Secrets of the tenant namespace. */
  ghost predicate SweptKey(s: Setup, k: Key) {
    || (k == Key(s.workload, ConfigMap, s.workloadNamespace, k.name) && !(s.ca.Some? && k.name == "custom-ca-bundle"))
    || (k == Key(s.workload, Secret, s.workloadNamespace, k.name)
        && k.name !in s.pulls && k.name != "kube-api-access-otel-operator-server")
    || (k == Key(s.platform, Secret, s.tenantNamespace, k.name) && !(s.chart.Some? && k.name == s.chart.value.target))
  }

  /** The place of the i-th managed object: control plane first, then the workload cluster, then the
      platform cluster. */
  function KeyInOrder(s: Setup, i: nat): Key
    requires i < 8 + Extra(s)
  {
    var copies := i - 5;
    var pulls := if s.ca.Some? then copies - 1 else copies;
    if i == 0 then Key(s.cp, Namespace, "", s.otelNamespace)
    else if i == 1 then Key(s.cp, ServiceAccount, s.otelNamespace, "otel-operator-server")
    else if i == 2 then Key(s.cp, ClusterRoleBinding, "", "otel-operator-server")
    else if i == 3 then Key(s.workload, Namespace, "", s.workloadNamespace)
    else if i == 4 then Key(s.workload, Secret, s.workloadNamespace, "kube-api-access-otel-operator-server")
    else if i == 5 + Extra(s) then Key(s.platform, OCIRepository, s.tenantNamespace, s.name)
    else if i == 6 + Extra(s) then Key(s.platform, HelmRelease, s.tenantNamespace, s.name + "-crds")
    else if i == 7 + Extra(s) then Key(s.platform, HelmRelease, s.tenantNamespace, s.name + "-workload")
    else if pulls < 0 then Key(s.workload, ConfigMap, s.workloadNamespace, "custom-ca-bundle")
    else if pulls < |s.pulls| then Key(s.workload, Secret, s.workloadNamespace, s.pulls[pulls])
    else Key(s.platform, Secret, s.tenantNamespace, s.chart.value.target)
  }

  /** How many objects a configuration adds to the eight fixed ones. */
  function Extra(s: Setup): nat {
    (if s.ca.Some? then 1 else 0) + |s.pulls| + (if s.chart.Some? then 1 else 0)
  }

  lemma {:induction false} PullSecretsInOrder(s: Setup, n: nat)
    requires n <= |s.pulls|
    ensures |PullSecrets(s, s.pulls, n)| == n
    ensures forall j :: 0 <= j < n ==> PullSecrets(s, s.pulls, n)[j].key == Key(s.workload, Secret, s.workloadNamespace, s.pulls[j])
  {
    if n > 0 {
      PullSecretsInOrder(s, n - 1);
    }
  }

  function Copies(s: Setup): seq<ManagedObject> {
    (if s.ca.Some? then [CaConfigMap(s, s.ca.value)] else []) + PullSecrets(s, s.pulls, |s.pulls|)
    + if s.chart.Some? then [ChartPullSecret(s, s.chart.value)] else []
  }

  lemma CopiesInOrder(s: Setup)
    ensures |Copies(s)| == Extra(s)
    ensures forall j :: 0 <= j < Extra(s) ==> Copies(s)[j].key == KeyInOrder(s, 5 + j)
  {
    PullSecretsInOrder(s, |s.pulls|);
    hide PullSecrets;
  }

  lemma CopiesComeBetween(s: Setup)
    ensures Objects(s) == CpObjects(s) + [WorkloadNamespace(s), TokenSecret(s)] + Copies(s) + FluxObjects(s)
  {
    hide CpObjects, WorkloadNamespace, TokenSecret, FluxObjects, PullSecrets, CaConfigMap, ChartPullSecret;
  }

  /** The managed objects in the order in which every pass visits them. */
  lemma ObjectsAreInOrder(s: Setup)
    ensures |Objects(s)| == 8 + Extra(s)
    ensures forall i :: 0 <= i < |Objects(s)| ==> Objects(s)[i].key == KeyInOrder(s, i)
  {
    hide Objects, Copies, GraphTheorems.IsCopy;
    CopiesInOrder(s);
    CopiesComeBetween(s);
    forall i | 0 <= i < |Objects(s)| ensures Objects(s)[i].key == KeyInOrder(s, i) {
      GraphTheorems.Placed(s, i);
      if 5 <= i < 5 + Extra(s) {
        assert Objects(s)[i] == Copies(s)[i - 5];
      }
    }
  }

  lemma ManagedKeysAre(s: Setup, k: Key)
    ensures Manages(Objects(s), k) <==> ManagedKey(s, k)
  {
    hide Objects;
    if Manages(Objects(s), k) {
      var o :| o in Objects(s) && o.key == k;
      GraphTheorems.Members(s, o);
    }
    if ManagedKey(s, k) {
      var o := ManagedAt(s, k);
      GraphTheorems.Members(s, o);
    }
  }

  /** The object stored under a managed key. */
  lemma ManagedAt(s: Setup, k: Key) returns (o: ManagedObject)
    requires ManagedKey(s, k)
    ensures o.key == k && GraphTheorems.IsObject(s, o)
  {
    if k.kind == Namespace {
      o := if k == CpNamespace(s).key then CpNamespace(s) else WorkloadNamespace(s);
    } else if k.kind == ServiceAccount {
      o := CpServiceAccount(s);
    } else if k.kind == ClusterRoleBinding {
      o := CpBinding(s);
    } else if k.kind == OCIRepository {
      o := ChartRepository(s);
    } else if k.kind == HelmRelease {
      o := if k == CrdRelease(s).key then CrdRelease(s) else WorkloadRelease(s);
    } else {
      o := CopyAt(s, k);
    }
  }

  lemma CopyAt(s: Setup, k: Key) returns (o: ManagedObject)
    requires ManagedKey(s, k) && k.kind in {Secret, ConfigMap}
    ensures o.key == k && GraphTheorems.IsObject(s, o)
  {
    if k.kind == ConfigMap {
      o := CaConfigMap(s, s.ca.value);
    } else if k == TokenSecret(s).key {
      o := TokenSecret(s);
    } else if k.name in s.pulls && k == Key(s.workload, Secret, s.workloadNamespace, k.name) {
      o := PullSecret(s, k.name);
    } else {
      o := ChartPullSecret(s, s.chart.value);
    }
  }

  /** The namespaces swept, whatever is kept in them. */
  ghost predicate SweptPlace(s: Setup, k: Key) {
    || k == Key(s.workload, ConfigMap, s.workloadNamespace, k.name)
    || k == Key(s.workload, Secret, s.workloadNamespace, k.name)
    || k == Key(s.platform, Secret, s.tenantNamespace, k.name)
  }

  lemma SweptKeysAre(s: Setup, k: Key)
    requires s.workload != s.platform
    ensures (exists c :: c in Cleaners(s) && c.Covers(k)) <==> SweptPlace(s, k)
    ensures (exists c :: c in Cleaners(s) && c.Removes(k)) <==> SweptKey(s, k)
  {
    var cleaners := Cleaners(s);
    var a, b, c := cleaners[0], cleaners[1], cleaners[2];
    assert cleaners == [a, b, c];
    assert forall x :: x in cleaners <==> x == a || x == b || x == c;
    if SweptPlace(s, k) {
      assert a.Covers(k) || b.Covers(k) || c.Covers(k);
    }
    if SweptKey(s, k) {
      assert a.Removes(k) || b.Removes(k) || c.Removes(k);
    }
  }

  /** The label the provider puts on what it manages. */
  predicate HasLabel(x: Stored) {
    "app.kubernetes.io/managed-by" in x.labels && x.labels["app.kubernetes.io/managed-by"] == "service-provider-otel-operator"
  }

  /** Exactly the managed objects are stored and labelled; other labelled ones in the swept places
      are gone, or held and terminating; everything else is as it was. */
  lemma ApplyWritesItsKeysOnly(s: Setup, w: World, script: Script, k: Key)
    requires Sane(s) && Silent(script) && ListsFaithfully(script)
    requires Pass(w, script, Objects(s), Cleaners(s), false).Clean()
    ensures var after := Pass(w, script, Objects(s), Cleaners(s), false).world.store;
            if ManagedKey(s, k) then k in after && HasLabel(after[k])
            else if k in w.store && HasLabel(w.store[k]) && SweptKey(s, k) then
              k in after ==> w.store[k].held && after[k] == w.store[k].(terminating := true)
            else ApplyConvergence.SameAt(w.store, after, k)
  {
    hide Pass, Objects, Cleaners, Silent, ListsFaithfully, KeyedApart, ApplyConvergence.SourcesApart, ManagedKey, SweptKey,
         ApplyConvergence.Converged;
    GraphTheorems.GraphIsWellPosed(s);
    GraphTheorems.GraphSourcesApart(s);
    ManagedKeysAre(s, k);
    SweptKeysAre(s, k);
    var objs := Objects(s);
    assert objs[..|objs|] == objs;
    ApplyConvergence.ApplyConverges(objs, Cleaners(s), w, script);
    if ManagedKey(s, k) {
      var o :| o in objs && o.key == k;
      ApplyConvergence.ConvergedIsStored(o, script, w.store, Pass(w, script, objs, Cleaners(s), false).world.store);
    } else {
      assert k !in ApplyConvergence.Keys(objs, |objs|);
    }
  }

  // ----- The contents -----

  /** The copy under `target` holds the data of `source`, as content of the given type. */
  ghost predicate CopyOfData(source: Key, before: Store, target: Key, after: Store, contentType: string) {
    && source in before && target in after
    && (before[source].payload.Content? ==> after[target].payload == Content(before[source].payload.data, contentType))
  }

  /** For every configuration of objects: each copy holds what its source held before the pass. */
  lemma CopiesHoldTheirSources(objs: seq<ManagedObject>, cleaners: seq<Cleaner>, w: World, script: Script, o: ManagedObject)
    requires Silent(script) && ListsFaithfully(script)
    requires KeyedApart(objs) && TeardownSafety.Spares(cleaners, objs) && ApplyConvergence.SourcesApart(objs, cleaners)
    requires Pass(w, script, objs, cleaners, false).Clean()
    requires o in objs && o.recipe.CopyOf?
    ensures CopyOfData(o.recipe.source, w.store, o.key, Pass(w, script, objs, cleaners, false).world.store, o.recipe.contentType)
  {
    hide Pass, Silent, ListsFaithfully, KeyedApart, TeardownSafety.Spares, ApplyConvergence.SourcesApart;
    ApplyConvergence.ApplyConverges(objs, cleaners, w, script);
    assert ApplyConvergence.Converged(o, script, w.store, Pass(w, script, objs, cleaners, false).world.store);
  }

  /** The pull secrets, the chart's pull secret and the CA bundle hold the data of their sources in
      the provider's namespace. */
  lemma CopiesAreInstalled(s: Setup, w: World, script: Script)
    requires Sane(s) && Silent(script) && ListsFaithfully(script)
    requires Pass(w, script, Objects(s), Cleaners(s), false).Clean()
    ensures var after := Pass(w, script, Objects(s), Cleaners(s), false).world.store;
            && (forall n :: n in s.pulls ==>
                  CopyOfData(Key(s.platform, Secret, s.podNamespace, n), w.store,
                             Key(s.workload, Secret, s.workloadNamespace, n), after, "kubernetes.io/dockerconfigjson"))
            && (s.chart.Some? ==>
                  CopyOfData(Key(s.platform, Secret, s.podNamespace, s.chart.value.source), w.store,
                             Key(s.platform, Secret, s.tenantNamespace, s.chart.value.target), after,
                             "kubernetes.io/dockerconfigjson"))
            && (s.ca.Some? ==>
                  CopyOfData(Key(s.platform, ConfigMap, s.podNamespace, s.ca.value.name), w.store,
                             Key(s.workload, ConfigMap, s.workloadNamespace, "custom-ca-bundle"), after, ""))
  {
    hide Pass, Objects, Cleaners, Silent, ListsFaithfully, Sane;
    forall n | n in s.pulls
      ensures CopyOfData(Key(s.platform, Secret, s.podNamespace, n), w.store,
                         Key(s.workload, Secret, s.workloadNamespace, n),
                         Pass(w, script, Objects(s), Cleaners(s), false).world.store, "kubernetes.io/dockerconfigjson")
    {
      assert GraphTheorems.IsCopy(s, PullSecret(s, n));
      StoredAsWanted(s, w, script, PullSecret(s, n));
    }
    if s.chart.Some? {
      StoredAsWanted(s, w, script, ChartPullSecret(s, s.chart.value));
    }
    if s.ca.Some? {
      StoredAsWanted(s, w, script, CaConfigMap(s, s.ca.value));
    }
  }

  /** The operator's account rules the control plane. */
  lemma AccountIsBound(s: Setup, w: World, script: Script)
    requires Sane(s) && Silent(script) && ListsFaithfully(script)
    requires Pass(w, script, Objects(s), Cleaners(s), false).Clean()
    ensures var after := Pass(w, script, Objects(s), Cleaners(s), false).world.store;
            ContentAt(after, Key(s.cp, ClusterRoleBinding, "", "otel-operator-server"))
              == Binding("otel-operator-server", s.otelNamespace, "cluster-admin")
  {
    hide Pass, Objects, Cleaners, Silent, ListsFaithfully, Sane;
    StoredAsWanted(s, w, script, CpBinding(s));
  }

  /** The chart source and the two releases are stored with everything the configuration asks for. */
  lemma FluxIsInstalled(s: Setup, w: World, script: Script)
    requires Sane(s) && Silent(script) && ListsFaithfully(script)
    requires Pass(w, script, Objects(s), Cleaners(s), false).Clean()
    ensures var after := Pass(w, script, Objects(s), Cleaners(s), false).world.store;
            && s.chartUrl.Some?
            && (var chart := ContentAt(after, Key(s.platform, OCIRepository, s.tenantNamespace, s.name));
                && chart.Repository?
                && chart == Repository(s.chartUrl.value, chart.tag, s.poll,
                                       if s.chart.Some? then Some(s.chart.value.target) else None)
                && (if "v" <= s.version then s.version == "v" + chart.tag else chart.tag == s.version))
            && ContentAt(after, Key(s.platform, HelmRelease, s.tenantNamespace, s.name + "-crds"))
               == Release(s.crdValues, s.otelNamespace, s.name, s.name + "-crds", s.cpAccessSecret, s.poll, [],
                          true, true, [])
            && ContentAt(after, Key(s.platform, HelmRelease, s.tenantNamespace, s.name + "-workload"))
               == Release(s.values, s.workloadNamespace, s.name, s.name + "-workload", s.workloadAccessSecret, s.poll,
                          [s.name + "-crds"], false, false,
                          if s.ca.Some? then [CpAccess("kube-api-access-otel-operator-server"), CaVolume(s.ca.value.key)]
                          else [CpAccess("kube-api-access-otel-operator-server")])
  {
    hide Pass, Objects, Cleaners, Silent, ListsFaithfully, Sane;
    ChartSourceFacts(s, w, script);
    StoredAsWanted(s, w, script, ChartRepository(s));
    StoredAsWanted(s, w, script, CrdRelease(s));
    StoredAsWanted(s, w, script, WorkloadRelease(s));
  }

  // ----- An instance -----

  /** What an undisturbed CreateOrUpdate without errors has stored for an instance, in terms of the
      instance, the configuration and the version it works with: every pull secret named in the
      chart values, the CA bundle, and the releases with their chart. */
  lemma InstanceIsInstalled(ctx: Context, w: World, script: Script, o: Operator, pc: ProviderConfig)
    requires Instance.TwentyBytes(ctx.digest) && Silent(script) && ListsFaithfully(script)
    requires Planned(ctx, Prepared(ctx, o), pc, false).Ok?
    requires Sane(Planned(ctx, Prepared(ctx, o), pc, false).value.setup)
    requires Applied(ctx, w, script, o, pc).Clean()
    ensures var v := Planned(ctx, Prepared(ctx, o), pc, false).value.version;
            var after := Applied(ctx, w, script, o, pc).world.store;
            var namespace := "otel-operator-" + Instance.GenerateId(ctx.digest, o.namespace, o.name);
            var tenant := ctx.tenantNamespaceOf(o.name, o.namespace);
            var pulls := At(UserTree(v.helmValues), ["imagePullSecrets"]);
            && WorksWith(o, pc, false, v) && tenant.Some? && v.chartUrl.Some?
            && Key(ctx.workload, Namespace, "", namespace) in after
            && (pulls.Some? && pulls.value.Arr? ==>
                  forall j, n :: j in pulls.value.items && NamedBy(j, n) ==>
                    CopyOfData(Key(ctx.platform, Secret, ctx.podNamespace, n), w.store,
                               Key(ctx.workload, Secret, namespace, n), after, "kubernetes.io/dockerconfigjson"))
            && (pc.caBundleRef.Some? ==>
                  CopyOfData(Key(ctx.platform, ConfigMap, ctx.podNamespace, pc.caBundleRef.value.name), w.store,
                             Key(ctx.workload, ConfigMap, namespace, "custom-ca-bundle"), after, ""))
            && (!NamesNoChartSecret(v) ==>
                  && ctx.prefixedName(v.chartPullSecret.value).Some?
                  && CopyOfData(Key(ctx.platform, Secret, ctx.podNamespace, v.chartPullSecret.value), w.store,
                                Key(ctx.platform, Secret, tenant.value, ctx.prefixedName(v.chartPullSecret.value).value), after,
                                "kubernetes.io/dockerconfigjson"))
            && var chart := ContentAt(after, Key(ctx.platform, OCIRepository, tenant.value, o.name));
               && chart.Repository? && chart.url == v.chartUrl.value
               && chart.interval == (if pc.pollInterval.Some? then pc.pollInterval.value else 60_000_000_000)
               && (if "v" <= v.version then v.version == "v" + chart.tag else chart.tag == v.version)
               && chart.pullSecret == (if NamesNoChartSecret(v) then None else ctx.prefixedName(v.chartPullSecret.value))
  {
    hide Pass, Objects, Cleaners, Silent, ListsFaithfully, Planned, At, Sane, CopyOfData, NamedBy, WorksWith, Instance.GenerateId;
    var o' := Prepared(ctx, o);
    var s := Planned(ctx, o', pc, false).value.setup;
    var v := Planned(ctx, o', pc, false).value.version;
    PlanHolds(ctx, o', pc, false);
    PlanReadsValues(ctx, o', pc, false);
    PlannedIff(ctx, o', pc, false);
    WorksWithSame(o, o', pc, v);
    PreparedLabel(ctx, o);
    CopiesAreInstalled(s, w, script);
    FluxIsInstalled(s, w, script);
    ApplyWritesItsKeysOnly(s, w, script, Key(s.workload, Namespace, "", s.workloadNamespace));
    var pulls := At(UserTree(v.helmValues), ["imagePullSecrets"]);
    if pulls.Some? && pulls.value.Arr? {
      forall j, n | j in pulls.value.items && NamedBy(j, n) ensures n in s.pulls {
        var i :| 0 <= i < |pulls.value.items| && pulls.value.items[i] == j;
        OneNameOnly(j, n, s.pulls[i]);
      }
    }
  }

  lemma WorksWithSame(o: Operator, o': Operator, pc: ProviderConfig, v: KubeStackVersion)
    requires o'.version == o.version && WorksWith(o', pc, false, v)
    ensures WorksWith(o, pc, false, v)
  {
  }

  lemma PreparedLabel(ctx: Context, o: Operator)
    requires Instance.TwentyBytes(ctx.digest)
    ensures var o', key := Prepared(ctx, o), "oteloperator.services.open-control-plane.io/instance-id";
            && key in o'.labels && o'.labels[key] == Instance.GenerateId(ctx.digest, o.namespace, o.name)
            && o'.labels - {key} == o.labels - {key}
            && o'.name == o.name && o'.namespace == o.namespace && o'.version == o.version
  {
    hide Instance.EncodeDigits;
  }
}
