/** The instance controller: what one CreateOrUpdate or Delete does to the instance's status
    and to the clusters. The functions describe it on values, class Reconciler does it. */
module Controller {
  import opened Wrappers
  import opened Cluster
  import opened Managed
  import opened Manager
  import opened HelmEntries
  import opened HelmValues
  import opened Graph
  import Json
  import Instance
  import Guard
  import Token

  const DEFAULT_NAMESPACE := "opentelemetry-operator-system"

  datatype KubeStackVersion = KubeStackVersion(
    version: string,
    chartUrl: Option<string>,
    chartPullSecret: Option<string>,
    helmValues: Values)

  datatype ProviderConfig = ProviderConfig(
    versions: seq<KubeStackVersion>,
    pollInterval: Option<int>,
    caBundleRef: Option<CaRef>)

  /** The clusters an instance is spread over, and what the libraries compute for it. */
  datatype Context = Context(
    cp: string,
    workload: string,
    platform: string,
    cpServer: Option<Server>,
    podNamespace: string,
    cpAccessSecret: string,
    workloadAccessSecret: string,
    tenantNamespaceOf: (string, string) -> Option<string>,
    prefixedName: string -> Option<string>,
    digest: Instance.DigestFunction)

  datatype ControllerError =
    | InstanceIdNotSaved
    | NoTenantNamespace
    | VersionNotAvailable
    | BadValues(failure: HelmFailure)
    | BadSecretName
    | GuardFailed(kind: string)
    | ReconcileErrors

  datatype OperatorPhase = NoPhase | ProgressingPhase | ReadyPhase | TerminatingPhase

  datatype ManagedResource = ManagedResource(kind: Kind, name: string, namespace: Option<string>, phase: Phase, cluster: string)

  datatype StatusMessage =
    | NoMessage
    | InProgress
    | FailedWith(error: ControllerError)
    | WaitingFor(resource: ManagedResource)
    | UserResourcesExist(kinds: seq<string>)

  datatype Status = Status(
    phase: OperatorPhase,
    message: StatusMessage,
    resources: seq<ManagedResource>,
    installed: Option<KubeStackVersion>)

  /** An OtelOperator object at one moment. */
  datatype Operator = Operator(namespace: string, name: string, labels: map<string, string>, version: string, status: Status)

  datatype Returned = Finished | Requeue | Returned(error: ControllerError)

  // ----- Inputs -----

  function PollInterval(pc: ProviderConfig): int {
    if pc.pollInterval.None? then Token.MINUTE else pc.pollInterval.value
  }

  /** The first of the first `n` versions with the requested name. */
  function Select(versions: seq<KubeStackVersion>, requested: string, n: nat): Option<KubeStackVersion>
    requires n <= |versions|
  {
    if n == 0 then None
    else
      var earlier := Select(versions, requested, n - 1);
      if earlier.Some? then earlier
      else if versions[n - 1].version == requested then Some(versions[n - 1]) else None
  }

  datatype Inputs = Inputs(tenantNamespace: string, version: KubeStackVersion)

  /** The version to work with; only a deletion falls back on the recorded one. */
  function PrepareInputs(ctx: Context, o: Operator, pc: ProviderConfig, forDelete: bool): Result<Inputs, ControllerError> {
    match ctx.tenantNamespaceOf(o.name, o.namespace)
    case None => Err(NoTenantNamespace)
    case Some(tenant) =>
      match Select(pc.versions, o.version, |pc.versions|)
      case Some(version) => Ok(Inputs(tenant, version))
      case None =>
        if forDelete && o.status.installed.Some? then Ok(Inputs(tenant, o.status.installed.value))
        else Err(VersionNotAvailable)
  }

  /** The part before the first colon, and the part after it, if there is one. */
  function CutColon(s: string): (string, Option<string>) {
    if s == "" then ("", None)
    else if s[0] == ':' then ("", Some(s[1..]))
    else
      var (before, after) := CutColon(s[1..]);
      ([s[0]] + before, after)
  }

  function HostAndPort(host: Option<string>): (string, string) {
    if host.None? then ("", "443")
    else
      var (name, port) := CutColon(TrimPrefix(host.value, "https://"));
      (name, if port.Some? then port.value else "443")
  }

  lemma {:induction false} CutAtFirstColon(s: string)
    ensures var (before, after) := CutColon(s);
            && ':' !in before
            && s == if after.Some? then before + ":" + after.value else before
  {
    if s != "" && s[0] != ':' {
      CutAtFirstColon(s[1..]);
      assert s == [s[0]] + s[1..];
    }
  }

  /** The host holds no colon, and host and port together are the address: without a port it is
      443, and without an address the host is empty. */
  lemma HostAndPortIsExact(host: Option<string>)
    ensures var (name, port) := HostAndPort(host);
            && ':' !in name
            && (host.None? ==> name == "" && port == "443")
            && (host.Some? ==>
                  var address := TrimPrefix(host.value, "https://");
                  address == name + ":" + port || (address == name && port == "443"))
  {
    if host.Some? {
      CutAtFirstColon(TrimPrefix(host.value, "https://"));
    }
  }

  function AccessFor(ctx: Context): Access {
    var (host, port) := HostAndPort(if ctx.cpServer.Some? then Some(ctx.cpServer.value.host) else None);
    HelmValues.Access.Access(host, port, TOKEN_SECRET)
  }

  function ChartSecretFor(ctx: Context, version: KubeStackVersion): Result<Option<ChartSecret>, ControllerError> {
    if version.chartPullSecret.None? || version.chartPullSecret.value == "" then Ok(None)
    else
      match ctx.prefixedName(version.chartPullSecret.value)
      case None => Err(BadSecretName)
      case Some(target) => Ok(Some(ChartSecret(version.chartPullSecret.value, target)))
  }

  function SetupFrom(ctx: Context, o: Operator, pc: ProviderConfig, inputs: Inputs, extracted: Extracted,
                     values: Json.Json, crdValues: Json.Json, chart: Option<ChartSecret>): Setup {
    Setup(ctx.cp, ctx.workload, ctx.platform,
          if extracted.namespaceOverride == "" then DEFAULT_NAMESPACE else extracted.namespaceOverride,
          Instance.NamespaceOf(Instance.GetId(o.labels)), inputs.tenantNamespace, ctx.podNamespace, o.name,
          PollInterval(pc), ctx.cpServer, extracted.imagePullSecrets, pc.caBundleRef, chart,
          inputs.version.chartUrl, inputs.version.version, values, crdValues,
          ctx.cpAccessSecret, ctx.workloadAccessSecret)
  }

  datatype Plan = Plan(setup: Setup, version: KubeStackVersion)

  /** What the object manager is built from, or why it cannot be built. */
  function Planned(ctx: Context, o: Operator, pc: ProviderConfig, forDelete: bool): Result<Plan, ControllerError> {
    match PrepareInputs(ctx, o, pc, forDelete)
    case Err(e) => Err(e)
    case Ok(inputs) =>
      match Extract(inputs.version.helmValues)
      case Err(e) => Err(BadValues(e))
      case Ok(extracted) =>
        match Pipeline(inputs.version.helmValues, AccessFor(ctx), pc.caBundleRef)
        case Err(e) => Err(BadValues(e))
        case Ok(values) =>
          match ChartSecretFor(ctx, inputs.version)
          case Err(e) => Err(e)
          case Ok(chart) =>
            Ok(Plan(SetupFrom(ctx, o, pc, inputs, extracted, values, CrdValues(inputs.version.helmValues), chart), inputs.version))
  }

  // ----- Results -----

  /** The state an object was last seen in, by its own visit or by a check of dependents. */
  function LastSeen(r: Report, sighted: Sightings): Option<Stored> {
    if r.seen.None? && r.managed in sighted then Some(sighted[r.managed]) else r.seen
  }

  function ResourceOf(r: Report, sighted: Sightings): ManagedResource {
    var key := r.managed.key;
    ManagedResource(key.kind, key.name, if key.namespace == "" then None else Some(key.namespace),
                    PhaseOf(r.managed.status, LastSeen(r, sighted)), key.cluster)
  }

  function ResourcesOf(reports: seq<Report>, sighted: Sightings, n: nat): (resources: seq<ManagedResource>)
    requires n <= |reports|
    ensures |resources| == n
    ensures forall i :: 0 <= i < n ==> resources[i] == ResourceOf(reports[i], sighted)
  {
    if n == 0 then [] else ResourcesOf(reports, sighted, n - 1) + [ResourceOf(reports[n - 1], sighted)]
  }

  predicate AllReady(resources: seq<ManagedResource>) {
    forall r | r in resources :: r.phase == Ready
  }

  /** The first resource that is not ready. */
  function FirstPending(resources: seq<ManagedResource>): Option<ManagedResource> {
    if resources == [] then None
    else if resources[0].phase != Ready then Some(resources[0])
    else FirstPending(resources[1..])
  }

  function PendingMessage(resources: seq<ManagedResource>): StatusMessage {
    match FirstPending(resources)
    case None => InProgress
    case Some(r) => WaitingFor(r)
  }

  // ----- The two operations -----

  function WithError(o: Operator, e: ControllerError): Operator {
    o.(status := o.status.(phase := ProgressingPhase, message := FailedWith(e)))
  }

  /** Invalid user input is reported in the status, but not retried. */
  function Ignoring(e: ControllerError): Returned {
    if e == VersionNotAvailable then Finished else Returned(e)
  }

  function WithInstanceId(ctx: Context, o: Operator): Operator
    requires Instance.TwentyBytes(ctx.digest)
  {
    var id := Instance.GenerateId(ctx.digest, o.namespace, o.name);
    if Instance.GetId(o.labels) == id then o else o.(labels := o.labels[Instance.LABEL_INSTANCE_ID := id])
  }

  /** Whether the instance identifier is in place, given whether an update would succeed. */
  function IdInPlace(ctx: Context, o: Operator, onboardingOk: bool): bool
    requires Instance.TwentyBytes(ctx.digest)
  {
    onboardingOk || Instance.GetId(o.labels) == Instance.GenerateId(ctx.digest, o.namespace, o.name)
  }

  /** The status after an Apply of a plan. */
  function AfterApply(o: Operator, version: KubeStackVersion, outcome: Outcome): Operator {
    var resources := ResourcesOf(outcome.reports, map[], |outcome.reports|);
    var listed := o.(status := o.status.(resources := resources));
    if !outcome.Clean() then WithError(listed, ReconcileErrors)
    else
      var ready := AllReady(resources);
      listed.(status := listed.status.(
        installed := Some(version),
        phase := if ready then ReadyPhase else ProgressingPhase,
        message := if ready then NoMessage else PendingMessage(resources)))
  }

  function AfterCreateOrUpdate(ctx: Context, w: World, script: Script, o: Operator, pc: ProviderConfig, onboardingOk: bool)
    : (World, Operator, Returned)
    requires Instance.TwentyBytes(ctx.digest)
  {
    var o1 := WithInstanceId(ctx, o).(status := o.status.(phase := ProgressingPhase, message := InProgress));
    if !IdInPlace(ctx, o, onboardingOk) then (w, WithError(o1, InstanceIdNotSaved), Returned(InstanceIdNotSaved))
    else
      match Planned(ctx, o1, pc, false)
      case Err(e) => (w, WithError(o1, e), Ignoring(e))
      case Ok(plan) =>
        var outcome := Pass(w, script, Objects(plan.setup), Cleaners(plan.setup), false);
        (outcome.world, AfterApply(o1, plan.version, outcome),
         if outcome.Clean() then Finished else Returned(ReconcileErrors))
  }

  /** A deletion that the guard let through. */
  function AfterRemoval(ctx: Context, w: World, script: Script, o: Operator, pc: ProviderConfig): (World, Operator, Returned) {
    match Planned(ctx, o, pc, true)
    case Err(e) => (w, WithError(o, e), Ignoring(e))
    case Ok(plan) =>
      var objs := Objects(plan.setup);
      var outcome := Pass(w, script, objs, Cleaners(plan.setup), true);
      var sighted := SightedBy(w, script, objs, true, |objs|, map[]);
      var listed := o.(status := o.status.(resources := ResourcesOf(outcome.reports, sighted, |outcome.reports|)));
      (outcome.world,
       if outcome.Clean() then listed else WithError(listed, ReconcileErrors),
       if !outcome.Clean() then Returned(ReconcileErrors)
       else if AllDeleted(outcome.reports) then Finished else Requeue)
  }

  function AfterDelete(ctx: Context, w: World, script: Script, o: Operator, pc: ProviderConfig, answers: seq<Guard.Listing>)
    : (World, Operator, Returned)
    requires |answers| == |Guard.OTEL_LIST_KINDS|
  {
    match Guard.Blocking(Guard.OTEL_LIST_KINDS, answers, |answers|)
    case Err(kind) => (w, WithError(o, GuardFailed(kind)), Returned(GuardFailed(kind)))
    case Ok(kinds) =>
      if kinds != [] then
        (w, o.(status := o.status.(phase := TerminatingPhase, message := UserResourcesExist(kinds))), Requeue)
      else AfterRemoval(ctx, w, script, o.(status := o.status.(phase := TerminatingPhase, message := NoMessage)), pc)
  }

  // ----- The controller itself -----

  /** The OtelOperator object whose labels and status the controller writes. */
  class OtelOperator {
    const namespace: string
    const name: string
    var labels: map<string, string>
    var version: string
    var status: Status

    constructor (o: Operator)
      ensures State() == o
    {
      namespace, name, labels, version, status := o.namespace, o.name, o.labels, o.version, o.status;
    }

    function State(): Operator
      reads this
    {
      Operator(namespace, name, labels, version, status)
    }

    method SetId(id: string)
      modifies this
      ensures State() == old(State()).(labels := old(labels)[Instance.LABEL_INSTANCE_ID := id])
    {
      labels := labels[Instance.LABEL_INSTANCE_ID := id];
    }

    method SetStatus(phase: OperatorPhase, message: StatusMessage)
      modifies this
      ensures State() == old(State()).(status := old(status).(phase := phase, message := message))
    {
      status := status.(phase := phase, message := message);
    }
  }

  class Reconciler {
    const api: ApiServer
    const ctx: Context

    constructor (api: ApiServer, ctx: Context)
      ensures this.api == api && this.ctx == ctx
    {
      this.api, this.ctx := api, ctx;
    }

    method SelectKubeStackVersion(requested: string, pc: ProviderConfig) returns (r: Option<KubeStackVersion>)
      ensures r == Select(pc.versions, requested, |pc.versions|)
    {
      var i := 0;
      while i < |pc.versions|
        invariant 0 <= i <= |pc.versions|
        invariant Select(pc.versions, requested, i) == None
      {
        if pc.versions[i].version == requested {
          SelectedStays(pc.versions, requested, i + 1, |pc.versions|);
          return Some(pc.versions[i]);
        }
        i := i + 1;
      }
      r := None;
    }

    /** The values of the workload release with the control plane access, and those of the CRD
        release. */
    method PrepareHelmValues(values: Values) returns (r: Result<(Json.Json, Json.Json), HelmFailure>)
      ensures match WorkloadValues(values)
              case Err(e) => r == Err(e)
              case Ok(workload) =>
                match AuthValues(Some(workload), AccessFor(ctx))
                case Err(e) => r == Err(e)
                case Ok(authed) => r == Ok((authed, CrdValues(values)))
    {
      var workload := WorkloadHelmValues(values);
      if workload.Err? {
        return Err(workload.error);
      }
      var authed := AddAuthToHelmValues(Some(workload.value), AccessFor(ctx));
      if authed.Err? {
        return Err(authed.error);
      }
      var crds := CRDHelmValues(values);
      r := Ok((authed.value, crds));
    }

    /** Both, with the CA bundle added to the workload values if there is one. */
    method PrepareValues(values: Values, ca: Option<CaRef>) returns (r: Result<(Json.Json, Json.Json), HelmFailure>)
      ensures match Pipeline(values, AccessFor(ctx), ca)
              case Err(e) => r == Err(e)
              case Ok(workload) => r == Ok((workload, CrdValues(values)))
    {
      hide WorkloadValues, AuthValues, CaValues, CrdValues;
      r := PrepareHelmValues(values);
      if r.Err? || ca.None? {
        return;
      }
      var withCa := AddCAHelmValues(Some(r.value.0), ca);
      r := if withCa.Err? then Err(withCa.error) else Ok((withCa.value, r.value.1));
    }

    method Prepare(o: OtelOperator, pc: ProviderConfig, forDelete: bool) returns (r: Result<Plan, ControllerError>)
      ensures r == Planned(ctx, o.State(), pc, forDelete)
    {
      hide Pipeline, Extract;
      var tenant := ctx.tenantNamespaceOf(o.name, o.namespace);
      if tenant.None? {
        return Err(NoTenantNamespace);
      }
      var selected := SelectKubeStackVersion(o.version, pc);
      if selected.None? {
        if !(forDelete && o.status.installed.Some?) {
          return Err(VersionNotAvailable);
        }
        selected := o.status.installed;
      }
      var inputs := Inputs(tenant.value, selected.value);
      var extracted := Extract(inputs.version.helmValues);
      if extracted.Err? {
        return Err(BadValues(extracted.error));
      }
      var values := PrepareValues(inputs.version.helmValues, pc.caBundleRef);
      if values.Err? {
        return Err(BadValues(values.error));
      }
      var chart := ChartSecretFor(ctx, inputs.version);
      if chart.Err? {
        return Err(chart.error);
      }
      r := Ok(Plan(SetupFrom(ctx, o.State(), pc, inputs, extracted.value, values.value.0, values.value.1, chart.value),
                   inputs.version));
    }

    method EnsureInstanceId(o: OtelOperator, onboardingOk: bool) returns (ok: bool)
      requires Instance.TwentyBytes(ctx.digest)
      modifies o
      ensures o.State() == WithInstanceId(ctx, old(o.State()))
      ensures ok == IdInPlace(ctx, old(o.State()), onboardingOk)
    {
      var generated := Instance.GenerateId(ctx.digest, o.namespace, o.name);
      if Instance.GetId(o.labels) != generated {
        o.SetId(generated);
        return onboardingOk;
      }
      ok := true;
    }

    method ResultsToResources(reports: seq<Report>, sighted: Sightings) returns (resources: seq<ManagedResource>, containsError: bool)
      ensures (resources, containsError) == (ResourcesOf(reports, sighted, |reports|), !ErrorFree(reports))
    {
      resources, containsError := [], false;
      var i := 0;
      while i < |reports|
        invariant 0 <= i <= |reports|
        invariant resources == ResourcesOf(reports, sighted, i)
        invariant containsError <==> exists j :: 0 <= j < i && reports[j].error != None
      {
        resources := resources + [ResourceOf(reports[i], sighted)];
        if reports[i].error != None {
          containsError := true;
        }
        i := i + 1;
      }
      assert !ErrorFree(reports) <==> exists j :: 0 <= j < |reports| && reports[j].error != None;
    }

    method PendingResourcesMessage(resources: seq<ManagedResource>) returns (message: StatusMessage)
      ensures message == PendingMessage(resources)
    {
      var i := 0;
      while i < |resources|
        invariant 0 <= i <= |resources|
        invariant FirstPending(resources) == FirstPending(resources[i..])
      {
        if resources[i].phase != Ready {
          return WaitingFor(resources[i]);
        }
        i := i + 1;
      }
      message := InProgress;
    }

    method CreateOrUpdate(o: OtelOperator, pc: ProviderConfig, onboardingOk: bool) returns (r: Returned)
      requires Instance.TwentyBytes(ctx.digest)
      modifies o, api
      ensures (api.world, o.State(), r)
           == AfterCreateOrUpdate(ctx, old(api.world), api.script, old(o.State()), pc, onboardingOk)
    {
      hide Pass, Planned, Objects, Cleaners, SightedBy;
      o.SetStatus(ProgressingPhase, InProgress);
      var ok := EnsureInstanceId(o, onboardingOk);
      if !ok {
        o.SetStatus(ProgressingPhase, FailedWith(InstanceIdNotSaved));
        return Returned(InstanceIdNotSaved);
      }
      var prepared := Prepare(o, pc, false);
      if prepared.Err? {
        o.SetStatus(ProgressingPhase, FailedWith(prepared.error));
        return Ignoring(prepared.error);
      }
      var mgr := Assemble(prepared.value.setup, api);
      var reports, cleanerFailed := mgr.Apply();
      r := RecordApply(o, prepared.value.version, Outcome(api.world, reports, cleanerFailed));
    }

    /** Writes the outcome of an Apply to the status. */
    method RecordApply(o: OtelOperator, version: KubeStackVersion, outcome: Outcome) returns (r: Returned)
      modifies o
      ensures o.State() == AfterApply(old(o.State()), version, outcome)
      ensures r == if outcome.Clean() then Finished else Returned(ReconcileErrors)
    {
      var resources, containsError := ResultsToResources(outcome.reports, map[]);
      o.status := o.status.(resources := resources);
      if containsError || outcome.cleanerFailed {
        o.SetStatus(ProgressingPhase, FailedWith(ReconcileErrors));
        return Returned(ReconcileErrors);
      }
      o.status := o.status.(installed := Some(version));
      if AllReady(resources) {
        o.SetStatus(ReadyPhase, NoMessage);
      } else {
        var message := PendingResourcesMessage(resources);
        o.SetStatus(ProgressingPhase, message);
      }
      r := Finished;
    }

    method Delete(o: OtelOperator, pc: ProviderConfig, answers: seq<Guard.Listing>) returns (r: Returned)
      requires |answers| == |Guard.OTEL_LIST_KINDS|
      modifies o, api
      ensures (api.world, o.State(), r)
           == AfterDelete(ctx, old(api.world), api.script, old(o.State()), pc, answers)
    {
      hide AfterRemoval;
      var blocking := Guard.BlockingKinds(Guard.OTEL_LIST_KINDS, answers);
      if blocking.Err? {
        o.SetStatus(ProgressingPhase, FailedWith(GuardFailed(blocking.error)));
        return Returned(GuardFailed(blocking.error));
      }
      if |blocking.value| > 0 {
        o.SetStatus(TerminatingPhase, UserResourcesExist(blocking.value));
        return Requeue;
      }
      o.SetStatus(TerminatingPhase, NoMessage);
      r := RemoveResources(o, pc);
    }

    method RemoveResources(o: OtelOperator, pc: ProviderConfig) returns (r: Returned)
      modifies o, api
      ensures (api.world, o.State(), r) == AfterRemoval(ctx, old(api.world), api.script, old(o.State()), pc)
    {
      hide Pass, Planned, Objects, Cleaners, SightedBy;
      var prepared := Prepare(o, pc, true);
      if prepared.Err? {
        o.SetStatus(ProgressingPhase, FailedWith(prepared.error));
        return Ignoring(prepared.error);
      }
      var mgr := Assemble(prepared.value.setup, api);
      var reports, cleanerFailed := mgr.Delete();
      var resources, containsError := ResultsToResources(reports, mgr.sighted);
      o.status := o.status.(resources := resources);
      if containsError || cleanerFailed {
        o.SetStatus(ProgressingPhase, FailedWith(ReconcileErrors));
        return Returned(ReconcileErrors);
      }
      r := if AllDeleted(reports) then Finished else Requeue;
    }
  }

  lemma {:induction false} SelectedStays(versions: seq<KubeStackVersion>, requested: string, m: nat, n: nat)
    requires m <= n <= |versions| && Select(versions, requested, m).Some?
    ensures Select(versions, requested, n) == Select(versions, requested, m)
  {
    if m < n {
      SelectedStays(versions, requested, m, n - 1);
    }
  }
}
