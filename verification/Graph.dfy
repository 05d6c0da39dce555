/** The object graph the controller builds for one instance, on the control plane, the workload
    cluster and the platform cluster, with the cleaners that go with it. */
module Graph {
  import opened Wrappers
  import opened Json
  import opened Cluster
  import opened Managed
  import opened Manager
  import opened HelmValues

  const SERVICE_ACCOUNT := "otel-operator-server"
  const TOKEN_SECRET := "kube-api-access-otel-operator-server"
  const CA_CONFIG_MAP := "custom-ca-bundle"
  const DOCKER_CONFIG := "kubernetes.io/dockerconfigjson"

  /** A secret copied under another name. */
  datatype ChartSecret = ChartSecret(source: string, target: string)

  /** Everything the graph depends on, once versions are selected and values prepared. */
  datatype Setup = Setup(
    cp: string,
    workload: string,
    platform: string,
    otelNamespace: string,
    workloadNamespace: string,
    tenantNamespace: string,
    podNamespace: string,
    name: string,
    poll: int,
    server: Option<Server>,
    pulls: seq<string>,
    ca: Option<CaRef>,
    chart: Option<ChartSecret>,
    chartUrl: Option<string>,
    version: string,
    values: Json,
    crdValues: Json,
    cpAccessSecret: string,
    workloadAccessSecret: string)

  // ----- The objects -----

  function CpNamespace(s: Setup): ManagedObject {
    NewManagedObject(Key(s.cp, Namespace, "", s.otelNamespace), Leave, [], None, Simple)
  }

  function CpServiceAccount(s: Setup): ManagedObject {
    NewManagedObject(Key(s.cp, ServiceAccount, s.otelNamespace, SERVICE_ACCOUNT), Leave, [CpNamespace(s)], None, Simple)
  }

  function CpBinding(s: Setup): ManagedObject {
    NewManagedObject(Key(s.cp, ClusterRoleBinding, "", SERVICE_ACCOUNT),
                     Overwrite(Binding(SERVICE_ACCOUNT, s.otelNamespace, "cluster-admin")), [], None, Simple)
  }

  function WorkloadNamespace(s: Setup): ManagedObject {
    NewManagedObject(Key(s.workload, Namespace, "", s.workloadNamespace), Leave, [], None, Simple)
  }

  function TokenSecret(s: Setup): ManagedObject {
    NewManagedObject(Key(s.workload, Secret, s.workloadNamespace, TOKEN_SECRET),
                     RefreshToken(CpServiceAccount(s).key, s.otelNamespace, s.poll, s.server),
                     [CpServiceAccount(s)], None, Simple)
  }

  /** A copy of an object of the provider's own namespace. */
  function Copy(s: Setup, cluster: string, kind: Kind, namespace: string, source: string, target: string): ManagedObject {
    NewManagedObject(Key(cluster, kind, namespace, target),
                     CopyOf(Key(s.platform, kind, s.podNamespace, source), if kind == Secret then DOCKER_CONFIG else ""),
                     [], None, Simple)
  }

  function CaConfigMap(s: Setup, ca: CaRef): ManagedObject {
    Copy(s, s.workload, ConfigMap, s.workloadNamespace, ca.name, CA_CONFIG_MAP)
  }

  function PullSecret(s: Setup, name: string): ManagedObject {
    Copy(s, s.workload, Secret, s.workloadNamespace, name, name)
  }

  function PullSecrets(s: Setup, names: seq<string>, n: nat): seq<ManagedObject>
    requires n <= |names|
  {
    if n == 0 then [] else PullSecrets(s, names, n - 1) + [PullSecret(s, names[n - 1])]
  }

  function ChartPullSecret(s: Setup, chart: ChartSecret): ManagedObject {
    Copy(s, s.platform, Secret, s.tenantNamespace, chart.source, chart.target)
  }

  function TrimPrefix(s: string, prefix: string): string {
    if prefix <= s then s[|prefix|..] else s
  }

  function ChartRepository(s: Setup): ManagedObject {
    NewManagedObject(Key(s.platform, OCIRepository, s.tenantNamespace, s.name),
                     if s.chartUrl.None? then Reject("missing ChartURL")
                     else Overwrite(Repository(s.chartUrl.value, TrimPrefix(s.version, "v"), s.poll,
                                               if s.chart.Some? then Some(s.chart.value.target) else None)),
                     [], Some(DeleteIt), Flux)
  }

  function CrdRelease(s: Setup): ManagedObject {
    NewManagedObject(Key(s.platform, HelmRelease, s.tenantNamespace, s.name + "-crds"),
                     Overwrite(Release(s.crdValues, s.otelNamespace, s.name, s.name + "-crds", s.cpAccessSecret, s.poll,
                                       [], true, true, [])),
                     [ChartRepository(s)], Some(DeleteIt), Flux)
  }

  function WorkloadRelease(s: Setup): ManagedObject {
    NewManagedObject(Key(s.platform, HelmRelease, s.tenantNamespace, s.name + "-workload"),
                     Overwrite(Release(s.values, s.workloadNamespace, s.name, s.name + "-workload", s.workloadAccessSecret,
                                       s.poll, [s.name + "-crds"], false, false,
                                       [CpAccess(TOKEN_SECRET)] + if s.ca.Some? then [CaVolume(s.ca.value.key)] else [])),
                     [ChartRepository(s), CrdRelease(s)], Some(DeleteIt), Flux)
  }

  function CpObjects(s: Setup): seq<ManagedObject> {
    [CpNamespace(s), CpServiceAccount(s), CpBinding(s)]
  }

  function WorkloadObjects(s: Setup): seq<ManagedObject> {
    [WorkloadNamespace(s), TokenSecret(s)]
    + (if s.ca.Some? then [CaConfigMap(s, s.ca.value)] else [])
    + PullSecrets(s, s.pulls, |s.pulls|)
  }

  function FluxObjects(s: Setup): seq<ManagedObject> {
    [ChartRepository(s), CrdRelease(s), WorkloadRelease(s)]
  }

  function PlatformObjects(s: Setup): seq<ManagedObject> {
    (if s.chart.Some? then [ChartPullSecret(s, s.chart.value)] else []) + FluxObjects(s)
  }

  function Objects(s: Setup): seq<ManagedObject> {
    CpObjects(s) + WorkloadObjects(s) + PlatformObjects(s)
  }

  function Cleaners(s: Setup): seq<Cleaner> {
    [Cleaner(s.workload, ConfigMap, s.workloadNamespace, if s.ca.Some? then [CA_CONFIG_MAP] else []),
     Cleaner(s.workload, Secret, s.workloadNamespace, s.pulls + [TOKEN_SECRET]),
     Cleaner(s.platform, Secret, s.tenantNamespace, if s.chart.Some? then [s.chart.value.target] else [])]
  }

  // ----- Building it -----

  method ConfigureServiceAccount(s: Setup, workloadCluster: ManagedCluster, cpCluster: ManagedCluster)
    requires workloadCluster != cpCluster
    modifies workloadCluster, cpCluster
    ensures cpCluster.objects == old(cpCluster.objects) + [CpNamespace(s), CpServiceAccount(s)]
    ensures workloadCluster.objects == old(workloadCluster.objects) + [WorkloadNamespace(s), TokenSecret(s)]
  {
    cpCluster.AddObject(CpNamespace(s));
    cpCluster.AddObject(CpServiceAccount(s));
    workloadCluster.AddObject(WorkloadNamespace(s));
    workloadCluster.AddObject(TokenSecret(s));
  }

  method ManagePullSecrets(s: Setup, workloadCluster: ManagedCluster)
    modifies workloadCluster
    ensures workloadCluster.objects == old(workloadCluster.objects) + PullSecrets(s, s.pulls, |s.pulls|)
  {
    var i := 0;
    while i < |s.pulls|
      invariant 0 <= i <= |s.pulls|
      invariant workloadCluster.objects == old(workloadCluster.objects) + PullSecrets(s, s.pulls, i)
    {
      workloadCluster.AddObject(PullSecret(s, s.pulls[i]));
      i := i + 1;
    }
  }

  method ManageFluxResources(s: Setup, platformCluster: ManagedCluster)
    modifies platformCluster
    ensures platformCluster.objects == old(platformCluster.objects) + FluxObjects(s)
  {
    platformCluster.AddObject(ChartRepository(s));
    platformCluster.AddObject(CrdRelease(s));
    platformCluster.AddObject(WorkloadRelease(s));
  }

  /** Adds the objects to the three clusters, in the controller's order. */
  method FillClusters(s: Setup, cpCluster: ManagedCluster, workloadCluster: ManagedCluster, platformCluster: ManagedCluster)
    requires cpCluster != workloadCluster && cpCluster != platformCluster && workloadCluster != platformCluster
    requires cpCluster.objects == workloadCluster.objects == platformCluster.objects == []
    modifies cpCluster, workloadCluster, platformCluster
    ensures cpCluster.objects == CpObjects(s)
    ensures workloadCluster.objects == WorkloadObjects(s)
    ensures platformCluster.objects == PlatformObjects(s)
  {
    hide CpNamespace, WorkloadNamespace, TokenSecret, CpServiceAccount, CpBinding, FluxObjects, PullSecrets;
    hide CaConfigMap, ChartPullSecret;
    ConfigureServiceAccount(s, workloadCluster, cpCluster);
    cpCluster.AddObject(CpBinding(s));
    if s.ca.Some? {
      workloadCluster.AddObject(CaConfigMap(s, s.ca.value));
    }
    if s.chart.Some? {
      platformCluster.AddObject(ChartPullSecret(s, s.chart.value));
    }
    ManagePullSecrets(s, workloadCluster);
    ManageFluxResources(s, platformCluster);
  }

  lemma FlattenThree(clusters: seq<ManagedCluster>)
    requires |clusters| == 3
    ensures Flattened(clusters, 3) == clusters[0].objects + clusters[1].objects + clusters[2].objects
  {
    assert Flattened(clusters, 1) == clusters[0].objects;
    assert Flattened(clusters, 2) == clusters[0].objects + clusters[1].objects;
  }

  method BuildClusters(s: Setup) returns (clusters: seq<ManagedCluster>)
    ensures |clusters| == 3 && Flattened(clusters, 3) == Objects(s)
    ensures forall c :: c in clusters ==> fresh(c)
  {
    hide CpObjects, WorkloadObjects, PlatformObjects;
    var platformCluster := new ManagedCluster(s.platform, s.tenantNamespace);
    var cpCluster := new ManagedCluster(s.cp, s.otelNamespace);
    var workloadCluster := new ManagedCluster(s.workload, s.workloadNamespace);
    FillClusters(s, cpCluster, workloadCluster, platformCluster);
    clusters := [cpCluster, workloadCluster, platformCluster];
    FlattenThree(clusters);
  }

  lemma ThreeCleaners(s: Setup)
    ensures |Cleaners(s)| == 3
    ensures Cleaners(s) == [Cleaners(s)[0], Cleaners(s)[1], Cleaners(s)[2]]
  {
  }

  /** The manager for one instance. */
  method Assemble(s: Setup, api: ApiServer) returns (mgr: Manager)
    ensures fresh(mgr) && mgr.api == api && mgr.sighted == map[]
    ensures mgr.Objects() == Objects(s) && mgr.cleaners == Cleaners(s)
  {
    hide Objects, Cleaners;
    ThreeCleaners(s);
    var clusters := BuildClusters(s);
    mgr := new Manager(api);
    mgr.AddCluster(clusters[0]);
    mgr.AddCluster(clusters[1]);
    mgr.AddCluster(clusters[2]);
    assert mgr.clusters == clusters;
    mgr.AddCleaner(Cleaners(s)[0]);
    mgr.AddCleaner(Cleaners(s)[1]);
    mgr.AddCleaner(Cleaners(s)[2]);
  }
}
