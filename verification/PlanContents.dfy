/** When a manager can be built for an instance, and what it is then built from, in terms of the
    instance, the provider configuration and the chart values. */
module PlanContents {
  import opened Wrappers
  import opened Json
  import opened Cluster
  import opened Managed
  import opened HelmEntries
  import opened HelmValues
  import opened HelmContents
  import opened HelmTheorems
  import opened Graph
  import opened Controller
  import opened ControllerTheorems
  import Instance

  // ----- The address of the control plane -----

  lemma {:induction false} CutAfter(before: string, after: string)
    requires ':' !in before
    ensures CutColon(before + ":" + after) == (before, Some(after))
    ensures CutColon(before) == (before, None)
  {
    if before == "" {
      assert (":" + after)[1..] == after;
      assert "" + ":" + after == ":" + after;
    } else {
      CutAfter(before[1..], after);
      assert (before + ":" + after)[1..] == before[1..] + ":" + after;
      assert [before[0]] + before[1..] == before;
    }
  }

  /** The scheme is dropped, what follows the first colon is the port, and without a port it is 443. */
  lemma AddressIsSplit(host: string, port: string)
    requires ':' !in host
    ensures HostAndPort(None) == ("", "443")
    ensures HostAndPort(Some(host)) == (host, "443")
    ensures HostAndPort(Some("https://" + host)) == (host, "443")
    ensures HostAndPort(Some("https://" + host + ":" + port)) == (host, port)
    ensures !("https://" <= host + ":" + port) ==> HostAndPort(Some(host + ":" + port)) == (host, port)
  {
    CutAfter(host, port);
    var scheme := "https://";
    assert scheme[5] == ':' && !(scheme <= host);
    assert (scheme + host)[|scheme|..] == host;
    assert scheme + host + ":" + port == scheme + (host + ":" + port);
    assert (scheme + (host + ":" + port))[|scheme|..] == host + ":" + port;
  }

  // ----- When there is a plan -----

  /** The first offered version with the requested name. */
  ghost predicate OffersAt(pc: ProviderConfig, requested: string, i: int) {
    && 0 <= i < |pc.versions| && pc.versions[i].version == requested
    && forall j :: 0 <= j < i ==> pc.versions[j].version != requested
  }

  ghost predicate Offers(pc: ProviderConfig, requested: string) {
    exists i :: 0 <= i < |pc.versions| && pc.versions[i].version == requested
  }

  /** `v` is the version to work with: the first one offered under the requested name or, for a
      deletion only, the one recorded as installed. */
  ghost predicate WorksWith(o: Operator, pc: ProviderConfig, forDelete: bool, v: KubeStackVersion) {
    || (exists i :: OffersAt(pc, o.version, i) && pc.versions[i] == v)
    || (!Offers(pc, o.version) && forDelete && o.status.installed == Some(v))
  }

  lemma SelectedWorks(o: Operator, pc: ProviderConfig)
    ensures match Select(pc.versions, o.version, |pc.versions|)
            case None => !Offers(pc, o.version)
            case Some(v) => exists i :: OffersAt(pc, o.version, i) && pc.versions[i] == v
  {
    hide Select;
    SelectFindsTheFirst(pc.versions, o.version, |pc.versions|);
    match Select(pc.versions, o.version, |pc.versions|) {
      case None =>
      case Some(v) =>
        var i :| 0 <= i < |pc.versions| && pc.versions[i] == v && v.version == o.version
                 && forall j :: 0 <= j < i ==> pc.versions[j].version != o.version;
        assert OffersAt(pc, o.version, i);
    }
  }

  lemma OneFirst(pc: ProviderConfig, requested: string, i: int, j: int)
    requires OffersAt(pc, requested, i) && OffersAt(pc, requested, j)
    ensures i == j
  {
  }

  lemma InputsAre(ctx: Context, o: Operator, pc: ProviderConfig, forDelete: bool)
    ensures match PrepareInputs(ctx, o, pc, forDelete)
            case Err(NoTenantNamespace) => ctx.tenantNamespaceOf(o.name, o.namespace).None?
            case Err(VersionNotAvailable) =>
              && ctx.tenantNamespaceOf(o.name, o.namespace).Some?
              && !Offers(pc, o.version) && (forDelete ==> o.status.installed.None?)
            case Err(_) => false
            case Ok(inputs) =>
              && ctx.tenantNamespaceOf(o.name, o.namespace) == Some(inputs.tenantNamespace)
              && WorksWith(o, pc, forDelete, inputs.version)
  {
    hide Select, OffersAt, Offers;
    SelectedWorks(o, pc);
  }

  /** The chart values of a version can be read and edited, and a CA bundle is fully named. */
  predicate Acceptable(values: Values, pc: ProviderConfig) {
    && ReadableValues(values) && EditableValues(values)
    && (pc.caBundleRef.Some? ==> pc.caBundleRef.value.name != "" && pc.caBundleRef.value.key != "")
  }

  predicate NamesNoChartSecret(v: KubeStackVersion) {
    v.chartPullSecret.None? || v.chartPullSecret.value == ""
  }

  predicate ChartSecretHasName(ctx: Context, v: KubeStackVersion) {
    NamesNoChartSecret(v) || ctx.prefixedName(v.chartPullSecret.value).Some?
  }

  /** What is wrong with them: reading comes before editing. */
  function FirstFailure(ctx: Context, values: Values, pc: ProviderConfig): HelmFailure
    requires !Acceptable(values, pc)
  {
    ExtractionIsExact(values);
    PipelineAcceptsIff(values, AccessFor(ctx), pc.caBundleRef);
    if Extract(values).Err? then Extract(values).error else Pipeline(values, AccessFor(ctx), pc.caBundleRef).error
  }

  /** Planning fails with the first of these that applies, and succeeds if none does: the tenant
      namespace cannot be determined, no version is known, the chart values or the CA reference are
      unacceptable, the chart secret's name cannot be prefixed. */
  lemma PlannedIff(ctx: Context, o: Operator, pc: ProviderConfig, forDelete: bool)
    ensures match Planned(ctx, o, pc, forDelete)
            case Err(NoTenantNamespace) => ctx.tenantNamespaceOf(o.name, o.namespace).None?
            case Err(VersionNotAvailable) =>
              && ctx.tenantNamespaceOf(o.name, o.namespace).Some?
              && !Offers(pc, o.version) && (forDelete ==> o.status.installed.None?)
            case Err(BadValues(failure)) =>
              && ctx.tenantNamespaceOf(o.name, o.namespace).Some?
              && exists v :: WorksWith(o, pc, forDelete, v) && !Acceptable(v.helmValues, pc)
                            && failure == FirstFailure(ctx, v.helmValues, pc)
            case Err(BadSecretName) =>
              && ctx.tenantNamespaceOf(o.name, o.namespace).Some?
              && exists v :: WorksWith(o, pc, forDelete, v) && Acceptable(v.helmValues, pc) && !ChartSecretHasName(ctx, v)
            case Err(_) => false
            case Ok(plan) =>
              && ctx.tenantNamespaceOf(o.name, o.namespace) == Some(plan.setup.tenantNamespace)
              && WorksWith(o, pc, forDelete, plan.version)
              && Acceptable(plan.version.helmValues, pc) && ChartSecretHasName(ctx, plan.version)
  {
    hide PrepareInputs, WorksWith, Pipeline, Extract, ReadableValues, EditableValues, AccessFor, Offers, CrdValues;
    InputsAre(ctx, o, pc, forDelete);
    if PrepareInputs(ctx, o, pc, forDelete).Ok? {
      var v := PrepareInputs(ctx, o, pc, forDelete).value.version;
      ExtractionIsExact(v.helmValues);
      PipelineAcceptsIff(v.helmValues, AccessFor(ctx), pc.caBundleRef);
    }
  }

  /** There is only one version to work with. */
  lemma WorksWithOne(o: Operator, pc: ProviderConfig, forDelete: bool, v: KubeStackVersion, v': KubeStackVersion)
    requires WorksWith(o, pc, forDelete, v) && WorksWith(o, pc, forDelete, v')
    ensures v == v'
  {
    if Offers(pc, o.version) {
      var i :| OffersAt(pc, o.version, i) && pc.versions[i] == v;
      var j :| OffersAt(pc, o.version, j) && pc.versions[j] == v';
      OneFirst(pc, o.version, i, j);
    } else {
      forall i ensures !OffersAt(pc, o.version, i) {
      }
    }
  }

  // ----- What the plan holds -----

  /** The plan takes its places and names from the context, the instance and the configuration. */
  lemma PlanHolds(ctx: Context, o: Operator, pc: ProviderConfig, forDelete: bool)
    requires Planned(ctx, o, pc, forDelete).Ok?
    ensures var plan := Planned(ctx, o, pc, forDelete).value;
            var s, v := plan.setup, plan.version;
            && s.cp == ctx.cp && s.workload == ctx.workload && s.platform == ctx.platform
            && s.podNamespace == ctx.podNamespace && s.server == ctx.cpServer && s.name == o.name
            && s.cpAccessSecret == ctx.cpAccessSecret && s.workloadAccessSecret == ctx.workloadAccessSecret
            && s.poll == (if pc.pollInterval.Some? then pc.pollInterval.value else 60_000_000_000)
            && s.ca == pc.caBundleRef && s.chartUrl == v.chartUrl && s.version == v.version
            && s.workloadNamespace == "otel-operator-" +
                 (var key := "oteloperator.services.open-control-plane.io/instance-id";
                  if key in o.labels then o.labels[key] else "")
            && (if NamesNoChartSecret(v) then s.chart == None
                else s.chart.Some? && s.chart.value.source == v.chartPullSecret.value
                     && ctx.prefixedName(v.chartPullSecret.value) == Some(s.chart.value.target))
  {
    hide PrepareInputs, Pipeline, Extract, AccessFor, CrdValues;
  }

  /** The pull secrets are the names in the chart values, all of them and in order, and the
      control-plane namespace is the one named there, or the default one. */
  lemma PlanReadsValues(ctx: Context, o: Operator, pc: ProviderConfig, forDelete: bool)
    requires Planned(ctx, o, pc, forDelete).Ok?
    ensures var plan := Planned(ctx, o, pc, forDelete).value;
            var s, v := plan.setup, plan.version;
            var tree := UserTree(v.helmValues);
            && (match At(tree, ["imagePullSecrets"])
                case Some(Arr(items)) =>
                  |s.pulls| == |items| && forall i :: 0 <= i < |items| ==> NamedBy(items[i], s.pulls[i])
                case _ => s.pulls == [])
            && s.otelNamespace == (match At(tree, ["namespaceOverride"])
                                   case Some(Str(namespace)) =>
                                     if namespace == "" then "opentelemetry-operator-system" else namespace
                                   case _ => "opentelemetry-operator-system")
  {
    hide PrepareInputs, Pipeline, Extract, AccessFor, CrdValues, At, NamedBy;
    ExtractionIsExact(PrepareInputs(ctx, o, pc, forDelete).value.version.helmValues);
  }

  /** In particular, a list of plain references is copied name by name. */
  lemma PlanCopiesEveryName(ctx: Context, o: Operator, pc: ProviderConfig, forDelete: bool, items: seq<Json>, names: seq<string>)
    requires Planned(ctx, o, pc, forDelete).Ok?
    requires At(UserTree(Planned(ctx, o, pc, forDelete).value.version.helmValues), ["imagePullSecrets"]) == Some(Arr(items))
    requires |names| == |items|
    requires forall i :: 0 <= i < |items| ==>
               items[i].Obj? && "name" in items[i].fields && items[i].fields["name"] == Str(names[i])
    ensures Planned(ctx, o, pc, forDelete).value.setup.pulls == names
  {
    hide Planned, At;
    PlanReadsValues(ctx, o, pc, forDelete);
    var pulls := Planned(ctx, o, pc, forDelete).value.setup.pulls;
    assert forall i :: 0 <= i < |items| ==> NamedBy(items[i], pulls[i]);
  }

  lemma PlanValues(ctx: Context, o: Operator, pc: ProviderConfig, forDelete: bool)
    requires Planned(ctx, o, pc, forDelete).Ok?
    ensures var plan := Planned(ctx, o, pc, forDelete).value;
            var s, v := plan.setup, plan.version;
            Pipeline(v.helmValues, AccessFor(ctx), pc.caBundleRef) == Ok(s.values) && s.crdValues == CrdValues(v.helmValues)
  {
    hide PrepareInputs, Pipeline, Extract, AccessFor, CrdValues;
  }

  /** The workload values of a plan point the operator to the control plane: to its host and port,
      if its address has this form, and to the kubeconfig beside the token. */
  lemma PlanReachesControlPlane(ctx: Context, o: Operator, pc: ProviderConfig, forDelete: bool, host: string, port: string)
    requires Planned(ctx, o, pc, forDelete).Ok?
    requires host != "" && port != "" && ':' !in host
    requires ctx.cpServer.Some? && ctx.cpServer.value.host == "https://" + host + ":" + port
    ensures var values := Planned(ctx, o, pc, forDelete).value.setup.values;
            var envs := At(values, ["opentelemetry-operator", "manager", "extraEnvs"]);
            && envs.Some? && envs.value.Arr?
            && Obj(map["name" := Str("KUBERNETES_SERVICE_HOST"), "value" := Str(host)]) in envs.value.items
            && Obj(map["name" := Str("KUBERNETES_SERVICE_PORT"), "value" := Str(port)]) in envs.value.items
            && Obj(map["name" := Str("KUBECONFIG"),
                       "value" := Str("/var/run/secrets/kubernetes.io/serviceaccount/kubeconfig")]) in envs.value.items
  {
    hide Planned, Pipeline, At, HostAndPort, CrdValues;
    PlanValues(ctx, o, pc, forDelete);
    AddressIsSplit(host, port);
    OperatorReachesControlPlane(Planned(ctx, o, pc, forDelete).value.version.helmValues, AccessFor(ctx), pc.caBundleRef);
  }

  /** The collectors mount the secret the token is kept in; and the CRD values do not depend on
      anything. */
  lemma PlanMountsToken(ctx: Context, o: Operator, pc: ProviderConfig, forDelete: bool)
    requires Planned(ctx, o, pc, forDelete).Ok?
    ensures var s := Planned(ctx, o, pc, forDelete).value.setup;
            var config := At(s.values, ["defaultCRConfig"]);
            && config.Some? && config.value.Obj? && "volumes" in config.value.fields
            && config.value.fields["volumes"]
               == Arr([Obj(map["name" := Str("cp-kubeconfig"),
                               "secret" := Obj(map["secretName" := Str("kube-api-access-otel-operator-server")])])])
            && s.crdValues == CrdValues(None)
  {
    hide Planned, Pipeline, At, HostAndPort;
    PlanValues(ctx, o, pc, forDelete);
    CollectorConfiguration(Planned(ctx, o, pc, forDelete).value.version.helmValues, AccessFor(ctx), pc.caBundleRef);
  }
}
