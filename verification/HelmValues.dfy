/** The Helm values of the two releases, as edits of a JSON object: the workload values get the
    operator settings, the control plane access and, if configured, the CA bundle; the CRD
    values are built from nothing.

    The functions describe each edit on values; the methods perform it on objects that are
    written in place, as the provider does. */
module HelmValues {
  import opened Wrappers
  import opened Json
  import opened HelmEntries

  const OPERATOR := "opentelemetry-operator"
  const MANAGER := "manager"
  const CR_CONFIG := "defaultCRConfig"
  const ENVS := "extraEnvs"

  const KUBECONFIG_ENV := "KUBECONFIG"
  const KUBECONFIG_VOLUME := "cp-kubeconfig"
  const KUBECONFIG_PATH := "/var/run/secrets/open-control-plane.io/cp-kubeconfig/kubeconfig"
  const KUBECONFIG_MOUNT := "/var/run/secrets/open-control-plane.io/cp-kubeconfig"
  const OPERATOR_TOKEN_PATH := "/var/run/secrets/kubernetes.io/serviceaccount/kubeconfig"
  const CERT_DIRS := "/etc/ssl/certs:/etc/pki/tls/certs:/etc/open-control-plane/custom-ca"

  type Values = Option<Json>
  type HelmResult = Result<Json, HelmFailure>

  datatype Access = Access(host: string, port: string, secretName: string)
  datatype CaRef = CaRef(name: string, key: string)

  const OFF := Obj(map["enabled" := Bool(false)])

  /** The parts of the chart that are switched off. */
  function Disabled(): Fields {
    map["cleanupJob" := OFF, "clusterRole" := OFF, CR_CONFIG := OFF, "instrumentation" := OFF,
        "kubeStateMetrics" := OFF, "nodeExporter" := OFF, "collectors" := Obj(map["daemon" := OFF])]
  }

  function Crds(installOtel: bool): Json {
    Obj(map["installOtel" := Bool(installOtel), "installPrometheus" := Bool(false)])
  }

  const NO_NETWORK_POLICY := Obj(map["operator.networkpolicy" := Bool(false)])

  // ----- Reading -----

  /** Absent and empty values are an empty object, and so is null. */
  function Root(values: Values): Result<Fields, HelmFailure> {
    match values
    case None => Ok(map[])
    case Some(Null) => Ok(map[])
    case Some(Obj(fields)) => Ok(fields)
    case Some(_) => Err(Invalid("helm values"))
  }

  /** A member read as an object: null gives no object, a missing member leaves what was there. */
  function Member(fields: Fields, key: string, otherwise: Option<Fields>): Result<Option<Fields>, HelmFailure> {
    if key !in fields then Ok(otherwise)
    else match fields[key]
      case Null => Ok(None)
      case Obj(inner) => Ok(Some(inner))
      case _ => Err(Invalid(key))
  }

  /** A member read as an object, where null and missing both give an empty one. */
  function MemberOrEmpty(fields: Fields, key: string): Result<Fields, HelmFailure> {
    match Member(fields, key, None)
    case Ok(None) => Ok(map[])
    case Ok(Some(inner)) => Ok(inner)
    case Err(e) => Err(e)
  }

  // ----- The edits -----

  function WithOperatorSettings(op: Fields): Result<Fields, HelmFailure> {
    var op1 := op["enabled" := Bool(true)]["crds" := Obj(map["create" := Bool(false)])]
                 ["automountServiceAccountToken" := Bool(false)];
    match MemberOrEmpty(op1, MANAGER)
    case Err(e) => Err(e)
    case Ok(manager) => Ok(op1[MANAGER := Obj(manager["featureGatesMap" := NO_NETWORK_POLICY])])
  }

  /** The workload values. An operator member that is null leaves a map that cannot be written. */
  function WorkloadValues(values: Values): HelmResult {
    match Root(values)
    case Err(e) => Err(e)
    case Ok(user) =>
      var root := (user + Disabled())["crds" := Crds(false)];
      match Member(root, OPERATOR, Some(map[]))
      case Err(e) => Err(e)
      case Ok(None) => Err(NilMapWrite)
      case Ok(Some(op)) =>
        match WithOperatorSettings(op)
        case Err(e) => Err(e)
        case Ok(op') => Ok(Obj(root[OPERATOR := Obj(op')]))
  }

  function CrdValues(values: Values): Json {
    Obj(Disabled()["crds" := Crds(true)][OPERATOR := OFF])
  }

  /** Replaces entries in a list member by `news`, one after the other. */
  function WithEntries(fields: Fields, key: string, kind: EntryKind, news: seq<Entry>): Result<Fields, HelmFailure> {
    match ReadList(kind, fields, key)
    case Err(e) => Err(e)
    case Ok(entries) => Ok(fields[key := Arr(EncodeAll(Inject(entries, news)))])
  }

  /** Adds environment variables to the operator's manager. */
  function WithManagerEnvs(root: Fields, news: seq<Entry>): Result<Fields, HelmFailure> {
    match MemberOrEmpty(root, OPERATOR)
    case Err(e) => Err(e)
    case Ok(op) =>
      match MemberOrEmpty(op, MANAGER)
      case Err(e) => Err(e)
      case Ok(manager) =>
        match WithEntries(manager, ENVS, EnvKind, news)
        case Err(e) => Err(e)
        case Ok(manager') => Ok(root[OPERATOR := Obj(op[MANAGER := Obj(manager')])])
  }

  function AuthEnvs(access: Access): seq<Entry> {
    [EnvVar("KUBERNETES_SERVICE_HOST", access.host, None),
     EnvVar("KUBERNETES_SERVICE_PORT", access.port, None),
     EnvVar(KUBECONFIG_ENV, OPERATOR_TOKEN_PATH, None)]
  }

  const CR_ENV := EnvVar(KUBECONFIG_ENV, KUBECONFIG_PATH, None)
  const CR_MOUNT := VolumeMount(KUBECONFIG_VOLUME, KUBECONFIG_MOUNT, map["readOnly" := Bool(true)])

  function CrVolume(secretName: string): Entry {
    Volume(KUBECONFIG_VOLUME, map["secret" := Obj(map["secretName" := Str(secretName)])])
  }

  /** Mounts the control plane kubeconfig into every collector. */
  function WithCollectorAccess(root: Fields, secretName: string): Result<Fields, HelmFailure> {
    match MemberOrEmpty(root, CR_CONFIG)
    case Err(e) => Err(e)
    case Ok(config) =>
      match WithEntries(config, "env", EnvKind, [CR_ENV])
      case Err(e) => Err(e)
      case Ok(config1) =>
        match WithEntries(config1, "volumeMounts", MountKind, [CR_MOUNT])
        case Err(e) => Err(e)
        case Ok(config2) =>
          match WithEntries(config2, "volumes", VolumeKind, [CrVolume(secretName)])
          case Err(e) => Err(e)
          case Ok(config3) => Ok(root[CR_CONFIG := Obj(config3)])
  }

  function AuthValues(values: Values, access: Access): HelmResult {
    match Root(values)
    case Err(e) => Err(e)
    case Ok(root) =>
      match WithManagerEnvs(root, AuthEnvs(access))
      case Err(e) => Err(e)
      case Ok(root1) =>
        if access.secretName == "" then Ok(Obj(root1))
        else
          match WithCollectorAccess(root1, access.secretName)
          case Err(e) => Err(e)
          case Ok(root2) => Ok(Obj(root2))
  }

  const CA_ENV := EnvVar("SSL_CERT_DIR", CERT_DIRS, None)

  function CaValues(values: Values, ca: Option<CaRef>): HelmResult {
    if ca.None? then Err(MissingReference("caBundleRef"))
    else if ca.value.name == "" then Err(MissingReference("name"))
    else if ca.value.key == "" then Err(MissingReference("key"))
    else
      match Root(values)
      case Err(e) => Err(e)
      case Ok(root) =>
        match WithManagerEnvs(root, [CA_ENV])
        case Err(e) => Err(e)
        case Ok(root1) => Ok(Obj(root1))
  }

  /** All edits of the workload values, in the controller's order. */
  function Pipeline(values: Values, access: Access, ca: Option<CaRef>): HelmResult {
    match WorkloadValues(values)
    case Err(e) => Err(e)
    case Ok(workload) =>
      match AuthValues(Some(workload), access)
      case Err(e) => Err(e)
      case Ok(authed) => if ca.None? then Ok(authed) else CaValues(Some(authed), ca)
  }

  // ----- The values the controller itself reads -----

  datatype Extracted = Extracted(namespaceOverride: string, imagePullSecrets: seq<string>)

  function SecretNames(items: seq<Json>): Result<seq<string>, HelmFailure> {
    if items == [] then Ok([])
    else
      var name := match items[0]
        case Null => Ok("")
        case Obj(fields) => StringField(fields, "name")
        case _ => Err(Invalid("imagePullSecrets"));
      match name
      case Err(e) => Err(e)
      case Ok(first) =>
        match SecretNames(items[1..])
        case Err(e) => Err(e)
        case Ok(others) => Ok([first] + others)
  }

  function Extract(values: Values): Result<Extracted, HelmFailure> {
    match Root(values)
    case Err(e) => Err(e)
    case Ok(root) =>
      match StringField(root, "namespaceOverride")
      case Err(e) => Err(e)
      case Ok(namespace) =>
        if "imagePullSecrets" !in root || root["imagePullSecrets"].Null? then Ok(Extracted(namespace, []))
        else if !root["imagePullSecrets"].Arr? then Err(Invalid("imagePullSecrets"))
        else
          match SecretNames(root["imagePullSecrets"].items)
          case Err(e) => Err(e)
          case Ok(names) => Ok(Extracted(namespace, names))
  }

  // ----- The edits, performed in place -----

  /** A JSON object under construction. */
  class RawObject {
    var fields: Fields

    constructor (fields: Fields)
      ensures this.fields == fields
    {
      this.fields := fields;
    }

    method SetRawValue(key: string, value: Json)
      modifies this
      ensures fields == old(fields)[key := value]
    {
      fields := fields[key := value];
    }
  }

  /** Unmarshals a member into an object, if it is present. */
  method UnmarshalIfPresent(obj: RawObject, key: string, into: RawObject?) returns (r: Result<RawObject?, HelmFailure>)
    ensures match Member(obj.fields, key, if into == null then None else Some(into.fields))
            case Err(e) => r == Err(e)
            case Ok(None) => r == Ok(null)
            case Ok(Some(inner)) => r.Ok? && r.value != null && r.value.fields == inner && (r.value == into || fresh(r.value))
  {
    if key !in obj.fields {
      return Ok(into);
    }
    match obj.fields[key] {
      case Null =>
        r := Ok(null);
      case Obj(inner) =>
        var o := new RawObject(inner);
        r := Ok(o);
      case _ =>
        r := Err(Invalid(key));
    }
  }

  /** Unmarshals a member, or makes an empty object when there is none. */
  method UnmarshalOrMake(obj: RawObject, key: string) returns (r: Result<RawObject, HelmFailure>)
    ensures match MemberOrEmpty(obj.fields, key)
            case Err(e) => r == Err(e)
            case Ok(inner) => r.Ok? && fresh(r.value) && r.value.fields == inner
  {
    var member := UnmarshalIfPresent(obj, key, null);
    if member.Err? {
      return Err(member.error);
    }
    if member.value == null {
      var o := new RawObject(map[]);
      return Ok(o);
    }
    r := Ok(member.value);
  }

  method UnmarshalRoot(values: Values) returns (r: Result<RawObject, HelmFailure>)
    ensures match Root(values)
            case Err(e) => r == Err(e)
            case Ok(fields) => r.Ok? && fresh(r.value) && r.value.fields == fields
  {
    if values.Some? && !values.value.Null? && !values.value.Obj? {
      return Err(Invalid("helm values"));
    }
    var o := new RawObject(if values.Some? && values.value.Obj? then values.value.fields else map[]);
    r := Ok(o);
  }

  lemma OneDefaultMore(root: Fields, defaults: Fields, todo: set<string>, key: string)
    requires key in todo && todo <= defaults.Keys
    ensures (root + (defaults - todo))[key := defaults[key]] == root + (defaults - (todo - {key}))
  {
  }

  lemma AllDefaults(root: Fields, defaults: Fields)
    ensures root + (defaults - {}) == root + defaults && root + (defaults - defaults.Keys) == root
  {
  }

  /** Writes the disabled defaults one by one, in whatever order they come. */
  method SetKubeStackDisabledDefaults(root: RawObject)
    modifies root
    ensures root.fields == old(root.fields) + Disabled()
  {
    hide Disabled;
    var defaults := Disabled();
    AllDefaults(root.fields, defaults);
    var todo := defaults.Keys;
    while todo != {}
      invariant todo <= defaults.Keys
      invariant root.fields == old(root.fields) + (defaults - todo)
    {
      var key :| key in todo;
      OneDefaultMore(old(root.fields), defaults, todo, key);
      root.SetRawValue(key, defaults[key]);
      todo := todo - {key};
    }
  }

  method WorkloadHelmValues(values: Values) returns (r: HelmResult)
    ensures r == WorkloadValues(values)
  {
    var unmarshalled := UnmarshalRoot(values);
    if unmarshalled.Err? {
      return Err(unmarshalled.error);
    }
    var root := unmarshalled.value;
    SetKubeStackDisabledDefaults(root);
    root.SetRawValue("crds", Crds(false));
    var empty := new RawObject(map[]);
    var present := UnmarshalIfPresent(root, OPERATOR, empty);
    if present.Err? {
      return Err(present.error);
    }
    if present.value == null {
      return Err(NilMapWrite);
    }
    var opValues := present.value;
    opValues.SetRawValue("enabled", Bool(true));
    opValues.SetRawValue("crds", Obj(map["create" := Bool(false)]));
    opValues.SetRawValue("automountServiceAccountToken", Bool(false));
    var made := UnmarshalOrMake(opValues, MANAGER);
    if made.Err? {
      return Err(made.error);
    }
    var managerValues := made.value;
    managerValues.SetRawValue("featureGatesMap", NO_NETWORK_POLICY);
    opValues.SetRawValue(MANAGER, Obj(managerValues.fields));
    root.SetRawValue(OPERATOR, Obj(opValues.fields));
    r := Ok(Obj(root.fields));
  }

  method CRDHelmValues(values: Values) returns (r: Json)
    ensures r == CrdValues(values)
  {
    var root := new RawObject(map[]);
    SetKubeStackDisabledDefaults(root);
    root.SetRawValue("crds", Crds(true));
    root.SetRawValue(OPERATOR, OFF);
    r := Obj(root.fields);
    assert map[] + Disabled() == Disabled();
  }

  /** Replaces entries of a list member in place. */
  method InjectEntries(obj: RawObject, key: string, kind: EntryKind, news: seq<Entry>) returns (failure: Option<HelmFailure>)
    modifies obj
    ensures match WithEntries(old(obj.fields), key, kind, news)
            case Err(e) => failure == Some(e)
            case Ok(fields) => failure == None && obj.fields == fields
  {
    var list := ReadList(kind, obj.fields, key);
    if list.Err? {
      return Some(list.error);
    }
    var entries := list.value;
    var i := 0;
    while i < |news|
      invariant 0 <= i <= |news|
      invariant entries == Inject(list.value, news[..i])
      invariant obj.fields == old(obj.fields)
    {
      entries := RemoveConflictingAndAppend(entries, news[i]);
      assert news[..i + 1][..i] == news[..i];
      i := i + 1;
    }
    assert news[..i] == news;
    obj.SetRawValue(key, Arr(EncodeAll(entries)));
    failure := None;
  }

  /** Adds environment variables to the manager of the operator values, in place. */
  method InjectIntoManager(opValues: RawObject, news: seq<Entry>) returns (failure: Option<HelmFailure>)
    modifies opValues
    ensures match MemberOrEmpty(old(opValues.fields), MANAGER)
            case Err(e) => failure == Some(e)
            case Ok(manager) =>
              match WithEntries(manager, ENVS, EnvKind, news)
              case Err(e) => failure == Some(e)
              case Ok(manager') => failure == None && opValues.fields == old(opValues.fields)[MANAGER := Obj(manager')]
  {
    var made := UnmarshalOrMake(opValues, MANAGER);
    if made.Err? {
      return Some(made.error);
    }
    failure := InjectEntries(made.value, ENVS, EnvKind, news);
    if failure.None? {
      opValues.SetRawValue(MANAGER, Obj(made.value.fields));
    }
  }

  method InjectKubeconfigIntoDefaultCRConfig(root: RawObject, secretName: string) returns (failure: Option<HelmFailure>)
    modifies root
    ensures match WithCollectorAccess(old(root.fields), secretName)
            case Err(e) => failure == Some(e)
            case Ok(fields) => failure == None && root.fields == fields
  {
    hide WithEntries;
    var made := UnmarshalOrMake(root, CR_CONFIG);
    if made.Err? {
      return Some(made.error);
    }
    var config := made.value;
    failure := InjectEntries(config, "env", EnvKind, [CR_ENV]);
    if failure.Some? {
      return;
    }
    failure := InjectEntries(config, "volumeMounts", MountKind, [CR_MOUNT]);
    if failure.Some? {
      return;
    }
    failure := InjectEntries(config, "volumes", VolumeKind, [CrVolume(secretName)]);
    if failure.Some? {
      return;
    }
    root.SetRawValue(CR_CONFIG, Obj(config.fields));
  }

  method AddAuthToHelmValues(values: Values, access: Access) returns (r: HelmResult)
    ensures r == AuthValues(values, access)
  {
    hide WithEntries, WithCollectorAccess;
    var unmarshalled := UnmarshalRoot(values);
    if unmarshalled.Err? {
      return Err(unmarshalled.error);
    }
    var root := unmarshalled.value;
    var made := UnmarshalOrMake(root, OPERATOR);
    if made.Err? {
      return Err(made.error);
    }
    var failure := InjectIntoManager(made.value, AuthEnvs(access));
    if failure.Some? {
      return Err(failure.value);
    }
    root.SetRawValue(OPERATOR, Obj(made.value.fields));
    if access.secretName != "" {
      failure := InjectKubeconfigIntoDefaultCRConfig(root, access.secretName);
      if failure.Some? {
        return Err(failure.value);
      }
    }
    r := Ok(Obj(root.fields));
  }

  method AddCAHelmValues(values: Values, ca: Option<CaRef>) returns (r: HelmResult)
    ensures r == CaValues(values, ca)
  {
    hide WithEntries;
    if ca.None? {
      return Err(MissingReference("caBundleRef"));
    }
    if ca.value.name == "" {
      return Err(MissingReference("name"));
    }
    if ca.value.key == "" {
      return Err(MissingReference("key"));
    }
    var unmarshalled := UnmarshalRoot(values);
    if unmarshalled.Err? {
      return Err(unmarshalled.error);
    }
    var root := unmarshalled.value;
    var made := UnmarshalOrMake(root, OPERATOR);
    if made.Err? {
      return Err(made.error);
    }
    var failure := InjectIntoManager(made.value, [CA_ENV]);
    if failure.Some? {
      return Err(failure.value);
    }
    root.SetRawValue(OPERATOR, Obj(made.value.fields));
    r := Ok(Obj(root.fields));
  }
}
