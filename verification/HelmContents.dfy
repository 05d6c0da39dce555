/** The Helm values spelled out as JSON: which inputs are accepted, what the controller reads
    from them, and which members and list entries the final values hold. */
module HelmContents {
  import opened Wrappers
  import opened Json
  import opened HelmEntries
  import opened HelmValues
  import opened HelmTheorems

  // ----- Shapes of the input -----

  predicate TextOrNothing(fields: Fields, key: string) {
    key in fields ==> fields[key].Null? || fields[key].Str?
  }

  /** The text of a member; a missing or null one is empty. */
  function TextOf(fields: Fields, key: string): string {
    if key in fields && fields[key].Str? then fields[key].s else ""
  }

  /** An environment variable as the user may write it. */
  predicate VariableShape(j: Json) {
    || j.Null?
    || (j.Obj? && TextOrNothing(j.fields, "name") && TextOrNothing(j.fields, "value")
        && ("valueFrom" in j.fields ==> j.fields["valueFrom"].Null? || j.fields["valueFrom"].Obj?))
  }

  /** A reference to a secret as the user may write it. */
  predicate ReferenceShape(j: Json) {
    j.Null? || (j.Obj? && TextOrNothing(j.fields, "name"))
  }

  predicate Absent(found: Option<Json>) {
    found.None? || found.value.Null?
  }

  /** The inputs the edits accept: an object or nothing at each place that is entered, except that
      the operator itself may not be null, and variables in the manager's list. */
  predicate EditableValues(values: Values) {
    var tree := UserTree(values);
    var op := At(tree, ["opentelemetry-operator"]);
    var manager := At(tree, ["opentelemetry-operator", "manager"]);
    var envs := At(tree, ["opentelemetry-operator", "manager", "extraEnvs"]);
    && (tree.Null? || tree.Obj?)
    && (op.Some? ==> op.value.Obj?)
    && (Absent(manager) || manager.value.Obj?)
    && (Absent(envs) || (envs.value.Arr? && forall j :: j in envs.value.items ==> VariableShape(j)))
  }

  /** The inputs the controller can read its own settings from. */
  predicate ReadableValues(values: Values) {
    var tree := UserTree(values);
    var override := At(tree, ["namespaceOverride"]);
    var pulls := At(tree, ["imagePullSecrets"]);
    && (tree.Null? || tree.Obj?)
    && (Absent(override) || override.value.Str?)
    && (Absent(pulls) || (pulls.value.Arr? && forall j :: j in pulls.value.items ==> ReferenceShape(j)))
  }

  lemma AtOne(j: Json, key: string)
    ensures At(j, [key]) == if j.Obj? && key in j.fields then Some(j.fields[key]) else None
  {
    assert [key][1..] == [];
  }

  lemma AtManager(j: Json)
    ensures var op := At(j, ["opentelemetry-operator"]);
            At(j, ["opentelemetry-operator", "manager"]) == if op.Some? then At(op.value, ["manager"]) else None
    ensures var manager := At(j, ["opentelemetry-operator", "manager"]);
            At(j, ["opentelemetry-operator", "manager", "extraEnvs"])
              == if manager.Some? then At(manager.value, ["extraEnvs"]) else None
  {
    hide At;
    var path := ["opentelemetry-operator", "manager", "extraEnvs"];
    assert path[1..] == ["manager", "extraEnvs"] && path[1..][1..] == ["extraEnvs"];
    assert ["opentelemetry-operator", "manager"][1..] == ["manager"] && ["opentelemetry-operator"][1..] == [];
    AtStep(j, path);
    AtStep(j, ["opentelemetry-operator", "manager"]);
    AtOne(j, "opentelemetry-operator");
    if j.Obj? && "opentelemetry-operator" in j.fields {
      var op := j.fields["opentelemetry-operator"];
      AtStep(op, ["manager", "extraEnvs"]);
      AtOne(op, "manager");
      assert ["manager", "extraEnvs"][1..] == ["extraEnvs"];
    }
  }

  lemma {:induction false} DecodedOneByOne(kind: EntryKind, items: seq<Json>)
    ensures DecodeAll(kind, items).Ok? <==> forall i :: 0 <= i < |items| ==> Decode(kind, items[i]).Ok?
    ensures DecodeAll(kind, items).Ok? ==>
              var entries := DecodeAll(kind, items).value;
              |entries| == |items| && forall i :: 0 <= i < |items| ==> Decode(kind, items[i]) == Ok(entries[i])
  {
    hide Decode;
    if items != [] {
      DecodedOneByOne(kind, items[1..]);
      assert forall i :: 0 < i < |items| ==> items[i] == items[1..][i - 1];
    }
  }

  lemma VariableIsRead(j: Json)
    ensures Decode(EnvKind, j).Ok? <==> VariableShape(j)
  {
  }

  lemma ListIsRead(items: seq<Json>)
    ensures DecodeAll(EnvKind, items).Ok? <==> forall j :: j in items ==> VariableShape(j)
  {
    hide Decode, DecodeAll, VariableShape;
    DecodedOneByOne(EnvKind, items);
    forall i | 0 <= i < |items| ensures Decode(EnvKind, items[i]).Ok? <==> VariableShape(items[i]) {
      VariableIsRead(items[i]);
    }
  }

  lemma MembersOf(values: Values)
    requires values.Some? ==> values.value.Null? || values.value.Obj?
    ensures var root := UserRoot(values);
            var op, tree := Inner(root, OPERATOR), UserTree(values);
            && At(tree, ["opentelemetry-operator"]) == (if OPERATOR in root then Some(root[OPERATOR]) else None)
            && At(tree, ["opentelemetry-operator", "manager"]) == (if MANAGER in op then Some(op[MANAGER]) else None)
            && At(tree, ["opentelemetry-operator", "manager", "extraEnvs"])
               == (if ENVS in Inner(op, MANAGER) then Some(Inner(op, MANAGER)[ENVS]) else None)
  {
    hide At;
    var tree := UserTree(values);
    AtManager(tree);
    AtOne(tree, "opentelemetry-operator");
    var op := At(tree, ["opentelemetry-operator"]);
    if op.Some? {
      AtOne(op.value, "manager");
    }
    var manager := At(tree, ["opentelemetry-operator", "manager"]);
    if manager.Some? {
      AtOne(manager.value, "extraEnvs");
    }
  }

  /** The edits succeed exactly on these inputs; a CA bundle needs both its name and its key. */
  lemma PipelineAcceptsIff(values: Values, access: Access, ca: Option<CaRef>)
    ensures Pipeline(values, access, ca).Ok? <==>
              EditableValues(values) && (ca.Some? ==> ca.value.name != "" && ca.value.key != "")
  {
    hide Pipeline, At, VariableShape, DecodeAll;
    PipelineForm(values, access, ca);
    if values.Some? ==> values.value.Null? || values.value.Obj? {
      MembersOf(values);
      var manager := Inner(Inner(UserRoot(values), OPERATOR), MANAGER);
      if ENVS in manager && manager[ENVS].Arr? {
        ListIsRead(manager[ENVS].items);
      }
    }
  }

  /** What a list of variables is refused for. */
  predicate VariableFailure(e: HelmFailure) {
    e in {Invalid("entry"), Invalid("name"), Invalid("value"), Invalid("valueFrom")}
  }

  lemma {:induction false} ListFailure(items: seq<Json>)
    ensures DecodeAll(EnvKind, items).Err? ==> VariableFailure(DecodeAll(EnvKind, items).error)
  {
    if items != [] {
      ListFailure(items[1..]);
    }
  }

  lemma WorkloadFailure(values: Values)
    ensures var tree := UserTree(values);
            var op := At(tree, ["opentelemetry-operator"]);
            var manager := At(tree, ["opentelemetry-operator", "manager"]);
            var r := WorkloadValues(values);
            if !tree.Null? && !tree.Obj? then r == Err(Invalid("helm values"))
            else if op == Some(Null) then r == Err(NilMapWrite)
            else if op.Some? && !op.value.Obj? then r == Err(Invalid("opentelemetry-operator"))
            else if !Absent(manager) && !manager.value.Obj? then r == Err(Invalid("manager"))
            else r.Ok? && WorkloadShaped(values)
  {
    hide At;
    if values.Some? ==> values.value.Null? || values.value.Obj? {
      MembersOf(values);
      var root := (UserRoot(values) + Disabled())["crds" := Crds(false)];
      assert OPERATOR in root <==> OPERATOR in UserRoot(values);
      assert OPERATOR in root ==> root[OPERATOR] == UserRoot(values)[OPERATOR];
      WorkloadForm(values);
    }
  }

  lemma AuthFailure(values: Values, access: Access)
    requires WorkloadShaped(values)
    ensures var envs := ReadList(EnvKind, Inner(Inner(UserRoot(values), OPERATOR), MANAGER), ENVS);
            var authed := AuthValues(Some(WorkloadValues(values).value), access);
            if envs.Err? then authed == Err(envs.error) else authed.Ok?
  {
    hide ReadList, Inject, EncodeAll, WithCollectorAccess, CollectorConfig, AuthEnvs, WorkloadValues, Final;
    WorkloadForm(values);
    AfterWorkload(values);
    AuthForm(values, access);
  }

  lemma CaFailure(values: Values, access: Access, ca: Option<CaRef>)
    requires WellShaped(values, None)
    ensures var r := Pipeline(values, access, ca);
            if ca.Some? && ca.value.name == "" then r == Err(MissingReference("name"))
            else if ca.Some? && ca.value.key == "" then r == Err(MissingReference("key"))
            else r.Ok?
  {
    hide WorkloadValues, AuthValues, Final, ReadList, WithManagerEnvs;
    PipelineForm(values, access, None);
    PipelineForm(values, access, ca);
  }

  /** The edits report the first thing that is wrong. */
  lemma PipelineFailure(values: Values, access: Access, ca: Option<CaRef>)
    ensures var tree := UserTree(values);
            var op := At(tree, ["opentelemetry-operator"]);
            var manager := At(tree, ["opentelemetry-operator", "manager"]);
            var envs := At(tree, ["opentelemetry-operator", "manager", "extraEnvs"]);
            var r := Pipeline(values, access, ca);
            if !tree.Null? && !tree.Obj? then r == Err(Invalid("helm values"))
            else if op == Some(Null) then r == Err(NilMapWrite)
            else if op.Some? && !op.value.Obj? then r == Err(Invalid("opentelemetry-operator"))
            else if !Absent(manager) && !manager.value.Obj? then r == Err(Invalid("manager"))
            else if !Absent(envs) && !envs.value.Arr? then r == Err(Invalid("extraEnvs"))
            else if !Absent(envs) && exists j :: j in envs.value.items && !VariableShape(j) then
              r.Err? && VariableFailure(r.error)
            else if ca.Some? && ca.value.name == "" then r == Err(MissingReference("name"))
            else if ca.Some? && ca.value.key == "" then r == Err(MissingReference("key"))
            else r.Ok?
  {
    hide WorkloadValues, AuthValues, CaValues, At, VariableShape, DecodeAll, VariableFailure;
    WorkloadFailure(values);
    if WorkloadShaped(values) {
      MembersOf(values);
      AuthFailure(values, access);
      var manager := Inner(Inner(UserRoot(values), OPERATOR), MANAGER);
      if ENVS in manager && manager[ENVS].Arr? {
        ListIsRead(manager[ENVS].items);
        ListFailure(manager[ENVS].items);
      }
      if WellShaped(values, None) {
        CaFailure(values, access, ca);
      }
    }
  }

  // ----- What the controller reads -----

  /** `name` is what a reference names: its name, or nothing if that is missing or null. */
  predicate NamedBy(j: Json, name: string) {
    if j.Obj? && "name" in j.fields && j.fields["name"].Str? then j.fields["name"] == Str(name) else name == ""
  }

  lemma {:induction false} NamesOneByOne(items: seq<Json>)
    ensures SecretNames(items).Ok? <==> forall i :: 0 <= i < |items| ==> ReferenceShape(items[i])
    ensures SecretNames(items).Ok? ==>
              var names := SecretNames(items).value;
              |names| == |items| && forall i :: 0 <= i < |items| ==> NamedBy(items[i], names[i])
  {
    if items != [] {
      var rest := items[1..];
      NamesOneByOne(rest);
      assert forall i :: 0 < i < |items| ==> items[i] == rest[i - 1];
      assert forall i :: 0 <= i < |rest| ==> rest[i] == items[i + 1];
    }
  }

  /** Reading succeeds exactly on these inputs, and then gives the names of the pull secrets, all of
      them and in order, and the namespace. */
  lemma ExtractionIsExact(values: Values)
    ensures Extract(values).Ok? <==> ReadableValues(values)
    ensures Extract(values).Ok? ==>
              var read, tree := Extract(values).value, UserTree(values);
              && (match At(tree, ["imagePullSecrets"])
                  case Some(Arr(items)) =>
                    |read.imagePullSecrets| == |items|
                    && forall i :: 0 <= i < |items| ==> NamedBy(items[i], read.imagePullSecrets[i])
                  case _ => read.imagePullSecrets == [])
              && (match At(tree, ["namespaceOverride"])
                  case Some(Str(namespace)) => read.namespaceOverride == namespace
                  case _ => read.namespaceOverride == "")
  {
    hide At, NamedBy, ReferenceShape, SecretNames;
    var tree := UserTree(values);
    AtOne(tree, "namespaceOverride");
    AtOne(tree, "imagePullSecrets");
    if tree.Obj? && "imagePullSecrets" in tree.fields && tree.fields["imagePullSecrets"].Arr? {
      NamesOneByOne(tree.fields["imagePullSecrets"].items);
    }
  }

  lemma {:induction false} ReferenceFailure(items: seq<Json>)
    ensures SecretNames(items).Err? ==> SecretNames(items).error in {Invalid("imagePullSecrets"), Invalid("name")}
  {
    if items != [] {
      ReferenceFailure(items[1..]);
    }
  }

  /** Reading reports the first thing that is wrong. */
  lemma ExtractionFailure(values: Values)
    ensures var tree := UserTree(values);
            var override, pulls := At(tree, ["namespaceOverride"]), At(tree, ["imagePullSecrets"]);
            var r := Extract(values);
            if !tree.Null? && !tree.Obj? then r == Err(Invalid("helm values"))
            else if !Absent(override) && !override.value.Str? then r == Err(Invalid("namespaceOverride"))
            else if !Absent(pulls) && !pulls.value.Arr? then r == Err(Invalid("imagePullSecrets"))
            else r.Err? ==> r.error in {Invalid("imagePullSecrets"), Invalid("name")}
  {
    hide At, SecretNames;
    var tree := UserTree(values);
    AtOne(tree, "namespaceOverride");
    AtOne(tree, "imagePullSecrets");
    if tree.Obj? && "imagePullSecrets" in tree.fields && tree.fields["imagePullSecrets"].Arr? {
      ReferenceFailure(tree.fields["imagePullSecrets"].items);
    }
  }

  // ----- The manager's environment -----

  lemma {:induction false} EncodedOneByOne(entries: seq<Entry>)
    ensures |EncodeAll(entries)| == |entries|
    ensures forall i :: 0 <= i < |entries| ==> EncodeAll(entries)[i] == Encode(entries[i])
  {
    hide Encode;
    if entries != [] {
      EncodedOneByOne(entries[1..]);
      assert forall i :: 0 < i < |entries| ==> entries[i] == entries[1..][i - 1];
    }
  }

  lemma EncodeConcat(a: seq<Entry>, b: seq<Entry>)
    ensures EncodeAll(a + b) == EncodeAll(a) + EncodeAll(b)
  {
    hide Encode, EncodeAll;
    EncodedOneByOne(a);
    EncodedOneByOne(b);
    EncodedOneByOne(a + b);
  }

  function HostVariable(host: string): Json {
    Obj(if host == "" then map["name" := Str("KUBERNETES_SERVICE_HOST")]
        else map["name" := Str("KUBERNETES_SERVICE_HOST"), "value" := Str(host)])
  }

  function PortVariable(port: string): Json {
    Obj(if port == "" then map["name" := Str("KUBERNETES_SERVICE_PORT")]
        else map["name" := Str("KUBERNETES_SERVICE_PORT"), "value" := Str(port)])
  }

  const KUBECONFIG_VARIABLE := Obj(map["name" := Str("KUBECONFIG"),
                                       "value" := Str("/var/run/secrets/kubernetes.io/serviceaccount/kubeconfig")])

  const CERT_VARIABLE := Obj(map["name" := Str("SSL_CERT_DIR"),
                                 "value" := Str("/etc/ssl/certs:/etc/pki/tls/certs:/etc/open-control-plane/custom-ca")])

  /** What is written after the user's variables. */
  function WrittenVariables(access: Access, ca: Option<CaRef>): seq<Json> {
    [HostVariable(access.host), PortVariable(access.port), KUBECONFIG_VARIABLE] + if ca.Some? then [CERT_VARIABLE] else []
  }

  function WrittenNames(ca: Option<CaRef>): set<string> {
    {"KUBERNETES_SERVICE_HOST", "KUBERNETES_SERVICE_PORT", "KUBECONFIG"} + if ca.Some? then {"SSL_CERT_DIR"} else {}
  }

  lemma NewsAreWritten(access: Access, ca: Option<CaRef>)
    ensures EncodeAll(News(access, ca)) == WrittenVariables(access, ca)
  {
    hide Encode, EncodeAll;
    var news := News(access, ca);
    EncodedOneByOne(news);
    VariableWritten("KUBERNETES_SERVICE_HOST", access.host);
    VariableWritten("KUBERNETES_SERVICE_PORT", access.port);
    VariableWritten("KUBECONFIG", "/var/run/secrets/kubernetes.io/serviceaccount/kubeconfig");
    VariableWritten("SSL_CERT_DIR", "/etc/ssl/certs:/etc/pki/tls/certs:/etc/open-control-plane/custom-ca");
  }

  lemma VariableWritten(name: string, value: string)
    ensures Encode(EnvVar(name, value, None))
         == Obj(if value == "" then map["name" := Str(name)] else map["name" := Str(name), "value" := Str(value)])
  {
  }

  lemma NewsNames(access: Access, ca: Option<CaRef>, e: Entry)
    requires e.EnvVar?
    ensures Clashes(e, News(access, ca)) <==> e.name in WrittenNames(ca)
  {
    var news := News(access, ca);
    assert news[0] in news && news[1] in news && news[2] in news;
    assert ca.Some? ==> news[3] in news;
  }

  lemma FinalEnvs(values: Values, access: Access, ca: Option<CaRef>)
    requires Pipeline(values, access, ca).Ok?
    ensures At(Pipeline(values, access, ca).value, ["opentelemetry-operator", "manager", "extraEnvs"])
         == Some(Arr(EncodeAll(Keep(UserEnvs(values), News(access, ca))) + WrittenVariables(access, ca)))
  {
    hide Pipeline, UserEnvs, Inject, Keep, EncodeAll, WrittenVariables, News, CollectorConfig, Disabled, At, WellShaped;
    PipelineForm(values, access, ca);
    AtThree(Final(values, access, ca), "opentelemetry-operator", "manager", "extraEnvs");
    NewsAreVariables(access, ca);
    InjectForm(UserEnvs(values), News(access, ca));
    EncodeConcat(Keep(UserEnvs(values), News(access, ca)), News(access, ca));
    NewsAreWritten(access, ca);
  }

  /** A variable in the form it is written back in: a name, a value unless empty, and where the
      value comes from, if anywhere. */
  predicate PlainVariable(j: Json) {
    && j.Obj? && j.fields.Keys <= {"name", "value", "valueFrom"}
    && "name" in j.fields && j.fields["name"].Str?
    && ("value" in j.fields ==> j.fields["value"].Str? && j.fields["value"].s != "")
    && ("valueFrom" in j.fields ==> j.fields["valueFrom"].Obj?)
  }

  lemma PlainIsWrittenBack(j: Json)
    requires Decode(EnvKind, j).Ok?
    ensures var e := Decode(EnvKind, j).value; e.EnvVar? && NamedBy(j, e.name) && NamedBy(Encode(e), e.name)
    ensures PlainVariable(j) ==> Encode(Decode(EnvKind, j).value) == j
  {
    if PlainVariable(j) {
      var e := Decode(EnvKind, j).value;
      assert Encode(e).fields.Keys == j.fields.Keys;
    }
  }

  /** The user's list of manager variables. */
  function UserItems(values: Values): seq<Json> {
    match At(UserTree(values), ["opentelemetry-operator", "manager", "extraEnvs"])
    case Some(Arr(items)) => items
    case _ => []
  }

  lemma UserEnvsAreRead(values: Values)
    requires WellShaped(values, None)
    ensures var items, envs := UserItems(values), UserEnvs(values);
            |envs| == |items| && forall i :: 0 <= i < |items| ==> Decode(EnvKind, items[i]) == Ok(envs[i])
  {
    hide At, DecodeAll, Decode;
    MembersOf(values);
    DecodedOneByOne(EnvKind, UserItems(values));
  }

  /** The j-th surviving variable is the user's `at[j]`-th, unchanged if it was plain. */
  ghost predicate Survivors(kept: seq<Json>, items: seq<Json>, at: seq<nat>, names: set<string>) {
    && |at| == |kept|
    && (forall i, j :: 0 <= i < j < |at| ==> at[i] < at[j])
    && (forall j :: 0 <= j < |at| ==> at[j] < |items|)
    && (forall j :: 0 <= j < |at| ==> SurvivesAs(items[at[j]], kept[j], names))
    && (forall p :: 0 <= p < |items| && !NamedByOneOf(items[p], names) ==> p in at)
  }

  ghost predicate SurvivesAs(j: Json, k: Json, names: set<string>) {
    !NamedByOneOf(k, names) && (PlainVariable(j) ==> k == j)
  }

  ghost predicate NamedByOneOf(j: Json, names: set<string>) {
    exists n :: n in names && NamedBy(j, n)
  }

  lemma OneName(j: Json, name: string, names: set<string>)
    requires NamedBy(j, name)
    ensures NamedByOneOf(j, names) <==> name in names
  {
  }

  lemma KeptAreSurvivors(items: seq<Json>, envs: seq<Entry>, access: Access, ca: Option<CaRef>) returns (at: seq<nat>)
    requires |envs| == |items| && forall i :: 0 <= i < |items| ==> Decode(EnvKind, items[i]) == Ok(envs[i])
    ensures Survivors(EncodeAll(Keep(envs, News(access, ca))), items, at, WrittenNames(ca))
  {
    hide Keep, Decode, Encode, EncodeAll, Clashes, News, WrittenNames, NamedByOneOf, PlainVariable, NamedBy;
    var news, names := News(access, ca), WrittenNames(ca);
    at := KeptInOrder(envs, news);
    var kept := Keep(envs, news);
    KeptDoNotClash(envs, news);
    EncodedOneByOne(kept);
    forall p | 0 <= p < |items|
      ensures Clashes(envs[p], news) <==> NamedByOneOf(items[p], names)
      ensures envs[p].EnvVar? && NamedBy(Encode(envs[p]), envs[p].name) && (PlainVariable(items[p]) ==> Encode(envs[p]) == items[p])
    {
      PlainIsWrittenBack(items[p]);
      NewsNames(access, ca, envs[p]);
      OneName(items[p], envs[p].name, names);
    }
    forall j | 0 <= j < |at| ensures SurvivesAs(items[at[j]], EncodeAll(kept)[j], names) {
      assert kept[j] in kept && kept[j] == envs[at[j]];
      NewsNames(access, ca, kept[j]);
      OneName(Encode(kept[j]), kept[j].name, names);
    }
  }

  /** The manager's environment in the final values, as JSON: the user's variables of other names,
      in order and the plain ones unchanged, then the address and port of the control plane, the
      kubeconfig's path and, with a CA bundle, the certificate directories. */
  lemma ManagerEnvironment(values: Values, access: Access, ca: Option<CaRef>) returns (kept: seq<Json>, at: seq<nat>)
    requires Pipeline(values, access, ca).Ok?
    ensures At(Pipeline(values, access, ca).value, ["opentelemetry-operator", "manager", "extraEnvs"])
         == Some(Arr(kept + WrittenVariables(access, ca)))
    ensures Survivors(kept, UserItems(values), at, WrittenNames(ca))
  {
    hide Pipeline, UserEnvs, UserItems, Keep, EncodeAll, WrittenVariables, News, At, Survivors, Decode, WrittenNames;
    FinalEnvs(values, access, ca);
    PipelineForm(values, access, ca);
    UserEnvsAreRead(values);
    kept := EncodeAll(Keep(UserEnvs(values), News(access, ca)));
    at := KeptAreSurvivors(UserItems(values), UserEnvs(values), access, ca);
  }

  /** The operator reaches the control plane: with a known address, these very variables are set. */
  lemma OperatorReachesControlPlane(values: Values, access: Access, ca: Option<CaRef>)
    requires Pipeline(values, access, ca).Ok?
    ensures var envs := At(Pipeline(values, access, ca).value, ["opentelemetry-operator", "manager", "extraEnvs"]);
            && envs.Some? && envs.value.Arr?
            && var items := envs.value.items;
               && (access.host != "" ==>
                     Obj(map["name" := Str("KUBERNETES_SERVICE_HOST"), "value" := Str(access.host)]) in items)
               && (access.port != "" ==>
                     Obj(map["name" := Str("KUBERNETES_SERVICE_PORT"), "value" := Str(access.port)]) in items)
               && Obj(map["name" := Str("KUBECONFIG"),
                          "value" := Str("/var/run/secrets/kubernetes.io/serviceaccount/kubeconfig")]) in items
               && (ca.Some? ==>
                     Obj(map["name" := Str("SSL_CERT_DIR"),
                             "value" := Str("/etc/ssl/certs:/etc/pki/tls/certs:/etc/open-control-plane/custom-ca")]) in items)
  {
    hide Pipeline, At, Survivors, WrittenNames;
    var kept, at := ManagerEnvironment(values, access, ca);
    var written := WrittenVariables(access, ca);
    assert written[0] in kept + written && written[1] in kept + written && written[2] in kept + written;
    assert ca.Some? ==> written[3] in kept + written;
  }

  // ----- The collectors' configuration -----

  lemma MountWritten(rest: Fields, name: string, mountPath: string)
    ensures Encode(VolumeMount(name, mountPath, rest)) == Obj(map["name" := Str(name), "mountPath" := Str(mountPath)] + rest)
    ensures Encode(Volume(name, rest)) == Obj(map["name" := Str(name)] + rest)
  {
  }

  lemma EncodeOne(e: Entry)
    ensures EncodeAll([e]) == [Encode(e)]
  {
    hide Encode, EncodeAll;
    EncodedOneByOne([e]);
  }

  /** Collectors are off by default; if there is an access secret, they get its kubeconfig, and
      nothing of what the user wrote in this place remains. */
  lemma CollectorConfiguration(values: Values, access: Access, ca: Option<CaRef>)
    requires Pipeline(values, access, ca).Ok?
    ensures At(Pipeline(values, access, ca).value, ["defaultCRConfig"])
         == Some(Obj(
              if access.secretName == "" then map["enabled" := Bool(false)]
              else map[
                "enabled" := Bool(false),
                "env" := Arr([Obj(map[
                  "name" := Str("KUBECONFIG"),
                  "value" := Str("/var/run/secrets/open-control-plane.io/cp-kubeconfig/kubeconfig")])]),
                "volumeMounts" := Arr([Obj(map[
                  "name" := Str("cp-kubeconfig"),
                  "mountPath" := Str("/var/run/secrets/open-control-plane.io/cp-kubeconfig"),
                  "readOnly" := Bool(true)])]),
                "volumes" := Arr([Obj(map[
                  "name" := Str("cp-kubeconfig"),
                  "secret" := Obj(map["secretName" := Str(access.secretName)])])])]))
  {
    hide Pipeline, UserEnvs, Inject, EncodeAll, Encode, FinalOperator, FinalManager, WellShaped, At, UserRoot, Disabled;
    PipelineForm(values, access, ca);
    AtOne(Final(values, access, ca), "defaultCRConfig");
    if access.secretName != "" {
      CollectorObjects(access.secretName);
    }
  }

  lemma CollectorObjects(secretName: string)
    ensures CollectorConfig(secretName) == map[
              "enabled" := Bool(false),
              "env" := Arr([Obj(map[
                "name" := Str("KUBECONFIG"),
                "value" := Str("/var/run/secrets/open-control-plane.io/cp-kubeconfig/kubeconfig")])]),
              "volumeMounts" := Arr([Obj(map[
                "name" := Str("cp-kubeconfig"),
                "mountPath" := Str("/var/run/secrets/open-control-plane.io/cp-kubeconfig"),
                "readOnly" := Bool(true)])]),
              "volumes" := Arr([Obj(map[
                "name" := Str("cp-kubeconfig"),
                "secret" := Obj(map["secretName" := Str(secretName)])])])]
  {
    hide EncodeAll, Encode;
    EncodeOne(CR_ENV);
    EncodeOne(CR_MOUNT);
    EncodeOne(CrVolume(secretName));
    VariableWritten("KUBECONFIG", "/var/run/secrets/open-control-plane.io/cp-kubeconfig/kubeconfig");
    MountWritten(map["readOnly" := Bool(true)], "cp-kubeconfig", "/var/run/secrets/open-control-plane.io/cp-kubeconfig");
    MountWritten(map["secret" := Obj(map["secretName" := Str(secretName)])], "cp-kubeconfig", "");
    assert map["name" := Str("cp-kubeconfig"), "mountPath" := Str("/var/run/secrets/open-control-plane.io/cp-kubeconfig")]
           + map["readOnly" := Bool(true)]
        == map["name" := Str("cp-kubeconfig"),
               "mountPath" := Str("/var/run/secrets/open-control-plane.io/cp-kubeconfig"),
               "readOnly" := Bool(true)];
    assert map["name" := Str("cp-kubeconfig")] + map["secret" := Obj(map["secretName" := Str(secretName)])]
        == map["name" := Str("cp-kubeconfig"), "secret" := Obj(map["secretName" := Str(secretName)])];
  }

  /** The CRD release's values, whatever the user wrote. */
  lemma CrdValuesAre(values: Values)
    ensures var off := Obj(map["enabled" := Bool(false)]);
            CrdValues(values) == Obj(map[
              "cleanupJob" := off, "clusterRole" := off, "defaultCRConfig" := off, "instrumentation" := off,
              "kubeStateMetrics" := off, "nodeExporter" := off, "collectors" := Obj(map["daemon" := off]),
              "crds" := Obj(map["installOtel" := Bool(true), "installPrometheus" := Bool(false)]),
              "opentelemetry-operator" := off])
  {
  }

  // ----- What is displaced -----

  /** Adding an entry removes the entries of its name and, among mounts, those at its path; all
      others stay, and the new entry comes last. */
  lemma DisplacedIff(entries: seq<Entry>, x: Entry, e: Entry)
    requires forall y :: y in entries ==> y.Kind() == x.Kind()
    ensures var r := Replace(entries, x);
            && r != [] && r[|r| - 1] == x
            && (e in r[..|r| - 1] <==>
                  e in entries && e.name != x.name && (x.VolumeMount? && e.VolumeMount? ==> e.mountPath != x.mountPath))
  {
    KeptDoNotClash(entries, [x]);
    var at := KeptInOrder(entries, [x]);
    var kept := Keep(entries, [x]);
    assert Replace(entries, x)[..|kept|] == kept;
    assert x in [x];
    if e in entries && !Clashes(e, [x]) {
      var p :| 0 <= p < |entries| && entries[p] == e;
      assert p in at;
      var i :| 0 <= i < |at| && at[i] == p;
      assert kept[i] == e;
    }
  }
}
