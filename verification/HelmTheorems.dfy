/** What the Helm edits amount to: when they succeed, what they enforce, what they leave alone,
    and that repeating them changes nothing. */
module HelmTheorems {
  import opened Wrappers
  import opened Json
  import opened HelmEntries
  import opened HelmValues

  // ----- The outcome, described directly -----

  function UserRoot(values: Values): Fields {
    if values.Some? && values.value.Obj? then values.value.fields else map[]
  }

  function Inner(fields: Fields, key: string): Fields {
    if key in fields && fields[key].Obj? then fields[key].fields else map[]
  }

  predicate ObjectOrAbsent(fields: Fields, key: string) {
    key in fields ==> fields[key].Obj?
  }

  /** The inputs the edits accept. */
  predicate WellShaped(values: Values, ca: Option<CaRef>) {
    var root := UserRoot(values);
    var op := Inner(root, OPERATOR);
    && (values.Some? ==> values.value.Null? || values.value.Obj?)
    && ObjectOrAbsent(root, OPERATOR)
    && (MANAGER in op ==> op[MANAGER].Null? || op[MANAGER].Obj?)
    && ReadList(EnvKind, Inner(op, MANAGER), ENVS).Ok?
    && (ca.Some? ==> ca.value.name != "" && ca.value.key != "")
  }

  function News(access: Access, ca: Option<CaRef>): seq<Entry> {
    AuthEnvs(access) + if ca.Some? then [CA_ENV] else []
  }

  function FinalManager(manager: Fields, envs: seq<Entry>): Fields {
    manager["featureGatesMap" := NO_NETWORK_POLICY][ENVS := Arr(EncodeAll(envs))]
  }

  function FinalOperator(op: Fields, manager: Fields): Fields {
    op["enabled" := Bool(true)]["crds" := Obj(map["create" := Bool(false)])]["automountServiceAccountToken" := Bool(false)]
      [MANAGER := Obj(manager)]
  }

  function CollectorConfig(secretName: string): Fields {
    map["enabled" := Bool(false)]["env" := Arr(EncodeAll([CR_ENV]))]["volumeMounts" := Arr(EncodeAll([CR_MOUNT]))]
       ["volumes" := Arr(EncodeAll([CrVolume(secretName)]))]
  }

  function FinalRoot(root: Fields, op: Fields, access: Access): Fields {
    (root + Disabled())["crds" := Crds(false)][OPERATOR := Obj(op)]
      [CR_CONFIG := if access.secretName == "" then OFF else Obj(CollectorConfig(access.secretName))]
  }

  function UserEnvs(values: Values): seq<Entry> {
    var envs := ReadList(EnvKind, Inner(Inner(UserRoot(values), OPERATOR), MANAGER), ENVS);
    if envs.Ok? then envs.value else []
  }

  /** The final values: the user's, overridden at the named places, with the environment
      variables injected. */
  function Final(values: Values, access: Access, ca: Option<CaRef>): Json {
    var root := UserRoot(values);
    var op := Inner(root, OPERATOR);
    var manager := FinalManager(Inner(op, MANAGER), Inject(UserEnvs(values), News(access, ca)));
    Obj(FinalRoot(root, FinalOperator(op, manager), access))
  }

  // ----- Step by step -----

  /** The edits fail on a null operator by writing to a map that does not exist, and exactly then. */
  lemma WorkloadPanicsIff(values: Values)
    ensures WorkloadValues(values) == Err(NilMapWrite) <==>
              values.Some? && values.value.Obj? && OPERATOR in values.value.fields && values.value.fields[OPERATOR].Null?
  {
    var root := (UserRoot(values) + Disabled())["crds" := Crds(false)];
    assert OPERATOR in root <==> OPERATOR in UserRoot(values);
  }

  function WorkloadOperator(op: Fields): Fields {
    op["enabled" := Bool(true)]["crds" := Obj(map["create" := Bool(false)])]["automountServiceAccountToken" := Bool(false)]
      [MANAGER := Obj(Inner(op, MANAGER)["featureGatesMap" := NO_NETWORK_POLICY])]
  }

  predicate WorkloadShaped(values: Values) {
    var root := UserRoot(values);
    var op := Inner(root, OPERATOR);
    && (values.Some? ==> values.value.Null? || values.value.Obj?)
    && ObjectOrAbsent(root, OPERATOR)
    && (MANAGER in op ==> op[MANAGER].Null? || op[MANAGER].Obj?)
  }

  lemma WorkloadForm(values: Values)
    ensures WorkloadValues(values).Ok? <==> WorkloadShaped(values)
    ensures WorkloadShaped(values) ==>
              var root := UserRoot(values);
              WorkloadValues(values) ==
                Ok(Obj((root + Disabled())["crds" := Crds(false)][OPERATOR := Obj(WorkloadOperator(Inner(root, OPERATOR)))]))
  {
    var user := UserRoot(values);
    var root := (user + Disabled())["crds" := Crds(false)];
    assert OPERATOR in root <==> OPERATOR in user;
    assert OPERATOR in user ==> root[OPERATOR] == user[OPERATOR];
  }

  lemma {:induction false} InjectInTurn(entries: seq<Entry>, a: seq<Entry>, b: seq<Entry>)
    ensures Inject(Inject(entries, a), b) == Inject(entries, a + b)
  {
    if b == [] {
      assert a + b == a;
    } else {
      InjectInTurn(entries, a, b[..|b| - 1]);
      assert (a + b)[..|a + b| - 1] == a + b[..|b| - 1];
    }
  }

  lemma {:induction false} InjectKeepsKind(entries: seq<Entry>, news: seq<Entry>, kind: EntryKind)
    requires forall e :: e in entries ==> e.Valid() && e.Kind() == kind
    requires forall e :: e in news ==> e.Valid() && e.Kind() == kind
    ensures forall e :: e in Inject(entries, news) ==> e.Valid() && e.Kind() == kind
  {
    if news != [] {
      var front, x := news[..|news| - 1], news[|news| - 1];
      InjectKeepsKind(entries, front, kind);
      KeptDoNotClash(Inject(entries, front), [x]);
    }
  }

  /** Entries written into a list member are read back. */
  lemma ReadBack(fields: Fields, key: string, kind: EntryKind, entries: seq<Entry>)
    requires key in fields && fields[key] == Arr(EncodeAll(entries))
    requires forall e :: e in entries ==> e.Valid() && e.Kind() == kind
    ensures ReadList(kind, fields, key) == Ok(entries)
  {
    ListRoundTrip(kind, entries);
  }

  /** Adding manager variables to an object whose operator and manager are objects. */
  lemma ManagerEnvsForm(root: Fields, op: Fields, manager: Fields, news: seq<Entry>)
    requires OPERATOR in root && root[OPERATOR] == Obj(op)
    requires MANAGER in op && op[MANAGER] == Obj(manager)
    ensures WithManagerEnvs(root, news).Ok? <==> ReadList(EnvKind, manager, ENVS).Ok?
    ensures ReadList(EnvKind, manager, ENVS).Ok? ==>
              var envs := ReadList(EnvKind, manager, ENVS).value;
              WithManagerEnvs(root, news) ==
                Ok(root[OPERATOR := Obj(op[MANAGER := Obj(manager[ENVS := Arr(EncodeAll(Inject(envs, news)))])])])
  {
    hide ReadList, Inject, EncodeAll;
  }

  lemma InjectIntoNothing(x: Entry)
    ensures Inject([], [x]) == [x]
  {
    assert [x][..0] == [];
    assert Inject([], []) == [];
    assert Keep([], [x]) == [];
  }

  lemma AddToEmpty(fields: Fields, key: string, kind: EntryKind, x: Entry)
    requires key !in fields
    ensures WithEntries(fields, key, kind, [x]) == Ok(fields[key := Arr(EncodeAll([x]))])
  {
    InjectIntoNothing(x);
  }

  lemma CollectorForm(root: Fields, secretName: string)
    requires CR_CONFIG in root && root[CR_CONFIG] == OFF
    ensures WithCollectorAccess(root, secretName) == Ok(root[CR_CONFIG := Obj(CollectorConfig(secretName))])
  {
    hide WithEntries, EncodeAll;
    var off: Fields := map["enabled" := Bool(false)];
    var one := off["env" := Arr(EncodeAll([CR_ENV]))];
    var two := one["volumeMounts" := Arr(EncodeAll([CR_MOUNT]))];
    AddToEmpty(off, "env", EnvKind, CR_ENV);
    AddToEmpty(one, "volumeMounts", MountKind, CR_MOUNT);
    AddToEmpty(two, "volumes", VolumeKind, CrVolume(secretName));
  }

  lemma NewsAreVariables(access: Access, ca: Option<CaRef>)
    ensures forall e :: e in News(access, ca) ==> e.EnvVar? && e.Valid()
    ensures Apart(News(access, ca))
  {
  }

  lemma Overwrite(m: Fields, key: string, first: Json, second: Json)
    ensures m[key := first][key := second] == m[key := second]
  {
  }

  /** The values after the workload edits, whose environment list is still the user's. */
  lemma AfterWorkload(values: Values)
    requires WorkloadShaped(values)
    ensures var root := UserRoot(values);
            var op := Inner(root, OPERATOR);
            var manager := Inner(op, MANAGER);
            && WorkloadOperator(op) == FinalOperator(op, manager["featureGatesMap" := NO_NETWORK_POLICY])
            && ReadList(EnvKind, manager["featureGatesMap" := NO_NETWORK_POLICY], ENVS) == ReadList(EnvKind, manager, ENVS)
  {
    var manager := Inner(Inner(UserRoot(values), OPERATOR), MANAGER);
    var edited := manager["featureGatesMap" := NO_NETWORK_POLICY];
    assert ENVS in edited <==> ENVS in manager;
  }

  lemma AuthForm(values: Values, access: Access)
    requires WorkloadShaped(values)
    ensures var authed := AuthValues(Some(WorkloadValues(values).value), access);
            && (authed.Ok? <==> WellShaped(values, None))
            && (authed.Ok? ==> authed.value == Final(values, access, None))
  {
    hide ReadList, Inject, EncodeAll, WithManagerEnvs, WithCollectorAccess, CollectorConfig, AuthEnvs, WorkloadValues;
    WorkloadForm(values);
    AfterWorkload(values);
    var user := UserRoot(values);
    var op := Inner(user, OPERATOR);
    var manager := Inner(op, MANAGER)["featureGatesMap" := NO_NETWORK_POLICY];
    var root := (user + Disabled())["crds" := Crds(false)][OPERATOR := Obj(WorkloadOperator(op))];
    var news := AuthEnvs(access);
    assert news + [] == news;
    ManagerEnvsForm(root, WorkloadOperator(op), manager, news);
    if ReadList(EnvKind, manager, ENVS).Ok? {
      AuthRootForm(values, access);
    }
  }

  /** The maps written by the authentication edits are the final ones. */
  lemma AuthRootForm(values: Values, access: Access)
    requires WellShaped(values, None)
    ensures var user := UserRoot(values);
            var op := Inner(user, OPERATOR);
            var manager := Inner(op, MANAGER)["featureGatesMap" := NO_NETWORK_POLICY];
            var envs := Arr(EncodeAll(Inject(UserEnvs(values), AuthEnvs(access))));
            var root := (user + Disabled())["crds" := Crds(false)]
              [OPERATOR := Obj(WorkloadOperator(op))]
              [OPERATOR := Obj(WorkloadOperator(op)[MANAGER := Obj(manager[ENVS := envs])])];
            && CR_CONFIG in root && root[CR_CONFIG] == OFF
            && (access.secretName == "" ==> Final(values, access, None) == Obj(root))
            && (access.secretName != "" ==>
                  WithCollectorAccess(root, access.secretName) == Ok(root[CR_CONFIG := Obj(CollectorConfig(access.secretName))])
                  && Final(values, access, None) == Obj(root[CR_CONFIG := Obj(CollectorConfig(access.secretName))]))
  {
    hide ReadList, Inject, EncodeAll, WithManagerEnvs, WithCollectorAccess, CollectorConfig, AuthEnvs;
    var user := UserRoot(values);
    var op := Inner(user, OPERATOR);
    var manager := Inner(op, MANAGER)["featureGatesMap" := NO_NETWORK_POLICY];
    var news := AuthEnvs(access);
    assert news + [] == news;
    var final := FinalManager(Inner(op, MANAGER), Inject(UserEnvs(values), news));
    var base := (user + Disabled())["crds" := Crds(false)];
    assert WorkloadOperator(op)[MANAGER := Obj(final)] == FinalOperator(op, final);
    Overwrite(base, OPERATOR, Obj(WorkloadOperator(op)), Obj(FinalOperator(op, final)));
    var root := base[OPERATOR := Obj(FinalOperator(op, final))];
    assert root[CR_CONFIG] == OFF;
    assert root[CR_CONFIG := OFF] == root;
    CollectorForm(root, access.secretName);
  }

  lemma CaForm(values: Values, access: Access, ca: Option<CaRef>)
    requires WellShaped(values, None) && ca.Some?
    ensures var edited := CaValues(Some(Final(values, access, None)), ca);
            && (edited.Ok? <==> WellShaped(values, ca))
            && (edited.Ok? ==> edited.value == Final(values, access, ca))
  {
    hide ReadList, Inject, EncodeAll, WithManagerEnvs, CollectorConfig, AuthEnvs, Disabled;
    var user := UserRoot(values);
    var op := Inner(user, OPERATOR);
    var auth := AuthEnvs(access);
    assert auth + [] == auth;
    var envs := Inject(UserEnvs(values), auth);
    var manager := FinalManager(Inner(op, MANAGER), envs);
    var root := FinalRoot(user, FinalOperator(op, manager), access);
    NewsAreVariables(access, None);
    InjectKeepsKind(UserEnvs(values), auth, EnvKind);
    ReadBack(manager, ENVS, EnvKind, envs);
    ManagerEnvsForm(root, FinalOperator(op, manager), manager, [CA_ENV]);
    InjectInTurn(UserEnvs(values), auth, [CA_ENV]);
    CaRootForm(user, op, Inner(op, MANAGER), envs, Inject(envs, [CA_ENV]), access);
  }

  lemma CaRootForm(user: Fields, op: Fields, inner: Fields, before: seq<Entry>, after: seq<Entry>, access: Access)
    ensures var manager := FinalManager(inner, before);
            var root := FinalRoot(user, FinalOperator(op, manager), access);
            root[OPERATOR := Obj(FinalOperator(op, manager)[MANAGER := Obj(manager[ENVS := Arr(EncodeAll(after))])])]
              == FinalRoot(user, FinalOperator(op, FinalManager(inner, after)), access)
  {
    hide EncodeAll, CollectorConfig, Disabled;
    var manager, final := FinalManager(inner, before), FinalManager(inner, after);
    assert manager[ENVS := Arr(EncodeAll(after))] == final;
    assert FinalOperator(op, manager)[MANAGER := Obj(final)] == FinalOperator(op, final);
    assert FinalRoot(user, FinalOperator(op, manager), access)[OPERATOR := Obj(FinalOperator(op, final))]
        == FinalRoot(user, FinalOperator(op, final), access);
  }

  /** The edits succeed exactly on well-shaped inputs, and then give the final values. */
  lemma PipelineForm(values: Values, access: Access, ca: Option<CaRef>)
    ensures Pipeline(values, access, ca).Ok? <==> WellShaped(values, ca)
    ensures WellShaped(values, ca) ==> Pipeline(values, access, ca) == Ok(Final(values, access, ca))
  {
    hide WorkloadValues, AuthValues, CaValues, Final, ReadList;
    WorkloadForm(values);
    if WorkloadShaped(values) {
      AuthForm(values, access);
      if WellShaped(values, None) && ca.Some? {
        CaForm(values, access, ca);
      }
    }
  }

  // ----- Repetition -----

  /** The final values are themselves well shaped, and their variables are the injected list. */
  lemma FinalIsWellShaped(values: Values, access: Access, ca: Option<CaRef>)
    requires WellShaped(values, ca)
    ensures var again := Some(Final(values, access, ca));
            WellShaped(again, ca) && UserEnvs(again) == Inject(UserEnvs(values), News(access, ca))
  {
    hide ReadList, Inject, EncodeAll, CollectorConfig, News, Disabled;
    var op := Inner(UserRoot(values), OPERATOR);
    var envs := Inject(UserEnvs(values), News(access, ca));
    var manager := FinalManager(Inner(op, MANAGER), envs);
    NewsAreVariables(access, ca);
    InjectKeepsKind(UserEnvs(values), News(access, ca), EnvKind);
    ReadBack(manager, ENVS, EnvKind, envs);
  }

  /** Overriding a second time changes nothing. */
  lemma FinalMapsTwice(root: Fields, op: Fields, manager: Fields, envs: seq<Entry>, access: Access)
    ensures FinalManager(FinalManager(manager, envs), envs) == FinalManager(manager, envs)
    ensures FinalOperator(FinalOperator(op, manager), manager) == FinalOperator(op, manager)
    ensures FinalRoot(FinalRoot(root, op, access), op, access) == FinalRoot(root, op, access)
  {
    hide EncodeAll, CollectorConfig;
  }

  /** The whole sequence of edits is idempotent, on every input it accepts: lists keep their
      order, and the collector configuration is reset and refilled to the same value. */
  lemma PipelineIsIdempotent(values: Values, access: Access, ca: Option<CaRef>)
    requires Pipeline(values, access, ca).Ok?
    ensures Pipeline(Some(Pipeline(values, access, ca).value), access, ca) == Pipeline(values, access, ca)
  {
    hide Pipeline, ReadList, Inject, EncodeAll, CollectorConfig, News, Disabled, FinalManager, FinalOperator, FinalRoot, WellShaped;
    PipelineForm(values, access, ca);
    var again := Some(Final(values, access, ca));
    FinalIsWellShaped(values, access, ca);
    PipelineForm(again, access, ca);
    NewsAreVariables(access, ca);
    InjectTwice(UserEnvs(values), News(access, ca));
    FinalTwice(values, access, ca);
  }

  lemma FinalTwice(values: Values, access: Access, ca: Option<CaRef>)
    requires UserEnvs(Some(Final(values, access, ca))) == Inject(UserEnvs(values), News(access, ca))
    requires Inject(Inject(UserEnvs(values), News(access, ca)), News(access, ca)) == Inject(UserEnvs(values), News(access, ca))
    ensures Final(Some(Final(values, access, ca)), access, ca) == Final(values, access, ca)
  {
    hide ReadList, Inject, EncodeAll, CollectorConfig, News, UserEnvs, Disabled;
    var root := UserRoot(values);
    var op := Inner(root, OPERATOR);
    var envs := Inject(UserEnvs(values), News(access, ca));
    var manager := FinalManager(Inner(op, MANAGER), envs);
    FinalMapsTwice(root, FinalOperator(op, manager), Inner(op, MANAGER), envs, access);
    FinalMapsTwice(root, op, manager, envs, access);
  }

  // ----- What is enforced -----

  /** Whatever the user wrote, the workload release runs the operator without installing CRDs
      or mounting a token, and leaves every listed component off, also after the access to the
      control plane is injected. */
  lemma PipelineEnforces(values: Values, access: Access, ca: Option<CaRef>)
    requires Pipeline(values, access, ca).Ok?
    ensures var out := Pipeline(values, access, ca).value;
            && At(out, ["opentelemetry-operator", "enabled"]) == Some(Bool(true))
            && At(out, ["opentelemetry-operator", "crds", "create"]) == Some(Bool(false))
            && At(out, ["opentelemetry-operator", "automountServiceAccountToken"]) == Some(Bool(false))
            && At(out, ["opentelemetry-operator", "manager", "featureGatesMap", "operator.networkpolicy"]) == Some(Bool(false))
            && At(out, ["crds", "installOtel"]) == Some(Bool(false))
            && At(out, ["crds", "installPrometheus"]) == Some(Bool(false))
            && (forall c :: c in COMPONENTS ==> At(out, [c, "enabled"]) == Some(Bool(false)))
            && At(out, ["collectors", "daemon", "enabled"]) == Some(Bool(false))
  {
    hide Pipeline, WellShaped, Final, At;
    PipelineForm(values, access, ca);
    OperatorEnforced(values, access, ca);
    ComponentsEnforced(values, access, ca);
  }

  lemma OperatorEnforced(values: Values, access: Access, ca: Option<CaRef>)
    ensures var out := Final(values, access, ca);
            && At(out, [OPERATOR, "enabled"]) == Some(Bool(true))
            && At(out, [OPERATOR, "crds", "create"]) == Some(Bool(false))
            && At(out, [OPERATOR, "automountServiceAccountToken"]) == Some(Bool(false))
            && At(out, [OPERATOR, MANAGER, "featureGatesMap", "operator.networkpolicy"]) == Some(Bool(false))
  {
    hide UserEnvs, Inject, EncodeAll, CollectorConfig, Disabled, At, UserRoot;
    var out := Final(values, access, ca);
    AtTwo(out, OPERATOR, "enabled");
    AtTwo(out, OPERATOR, "automountServiceAccountToken");
    AtThree(out, OPERATOR, "crds", "create");
    var path := [OPERATOR, MANAGER, "featureGatesMap", "operator.networkpolicy"];
    AtStep(out, path);
    assert path[1..] == [MANAGER, "featureGatesMap", "operator.networkpolicy"];
    AtThree(out.fields[OPERATOR], MANAGER, "featureGatesMap", "operator.networkpolicy");
  }

  lemma ComponentsEnforced(values: Values, access: Access, ca: Option<CaRef>)
    ensures var out := Final(values, access, ca);
            && At(out, ["crds", "installOtel"]) == Some(Bool(false))
            && At(out, ["crds", "installPrometheus"]) == Some(Bool(false))
            && (forall c :: c in COMPONENTS ==> At(out, [c, "enabled"]) == Some(Bool(false)))
            && At(out, ["collectors", "daemon", "enabled"]) == Some(Bool(false))
  {
    hide UserEnvs, Inject, EncodeAll, FinalOperator, FinalManager, At, UserRoot;
    var out := Final(values, access, ca);
    AtTwo(out, "crds", "installOtel");
    AtTwo(out, "crds", "installPrometheus");
    AtThree(out, "collectors", "daemon", "enabled");
    forall c | c in COMPONENTS ensures At(out, [c, "enabled"]) == Some(Bool(false)) {
      AtTwo(out, c, "enabled");
    }
  }

  const COMPONENTS := {"cleanupJob", "clusterRole", "defaultCRConfig", "instrumentation", "kubeStateMetrics", "nodeExporter"}

  lemma AtTwo(j: Json, first: string, second: string)
    requires j.Obj? && first in j.fields
    requires j.fields[first].Obj? && second in j.fields[first].fields
    ensures At(j, [first, second]) == Some(j.fields[first].fields[second])
  {
    AtEnd(j.fields[first].fields[second]);
    hide At;
    AtStep(j, [first, second]);
    AtStep(j.fields[first], [second]);
    assert [first, second][1..] == [second] && [second][1..] == [];
  }

  lemma AtEnd(j: Json)
    ensures At(j, []) == Some(j)
  {
  }

  lemma AtThree(j: Json, first: string, second: string, third: string)
    requires j.Obj? && first in j.fields
    requires j.fields[first].Obj? && second in j.fields[first].fields
    requires var inner := j.fields[first].fields[second]; inner.Obj? && third in inner.fields
    ensures At(j, [first, second, third]) == Some(j.fields[first].fields[second].fields[third])
  {
    hide At;
    AtStep(j, [first, second, third]);
    assert [first, second, third][1..] == [second, third];
    AtTwo(j.fields[first], second, third);
  }

  /** The CRD release installs the OpenTelemetry CRDs and nothing else, for all user values. */
  lemma CrdValuesEnforce(values: Values)
    ensures var out := CrdValues(values);
            && At(out, ["crds", "installOtel"]) == Some(Bool(true))
            && At(out, ["crds", "installPrometheus"]) == Some(Bool(false))
            && At(out, ["opentelemetry-operator", "enabled"]) == Some(Bool(false))
            && (forall c :: c in COMPONENTS ==> At(out, [c, "enabled"]) == Some(Bool(false)))
            && At(out, ["collectors", "daemon", "enabled"]) == Some(Bool(false))
  {
    hide At;
    var out := CrdValues(values);
    AtTwo(out, "crds", "installOtel");
    AtTwo(out, "crds", "installPrometheus");
    AtTwo(out, OPERATOR, "enabled");
    AtThree(out, "collectors", "daemon", "enabled");
    forall c | c in COMPONENTS ensures At(out, [c, "enabled"]) == Some(Bool(false)) {
      AtTwo(out, c, "enabled");
    }
  }

  // ----- What is left alone -----

  /** The places the edits write to. */
  function Touched(): set<Path> {
    {["cleanupJob"], ["clusterRole"], [CR_CONFIG], ["instrumentation"], ["kubeStateMetrics"], ["nodeExporter"],
     ["collectors"], ["crds"],
     [OPERATOR, "enabled"], [OPERATOR, "crds"], [OPERATOR, "automountServiceAccountToken"],
     [OPERATOR, MANAGER, "featureGatesMap"], [OPERATOR, MANAGER, ENVS]}
  }

  /** Neither path lies on the other. */
  predicate Aside(p: Path, q: Path) {
    !(p <= q) && !(q <= p)
  }

  function UserTree(values: Values): Json {
    if values.Some? then values.value else Null
  }

  /** Every path that does not touch an edited place keeps the user's value, or stays absent. */
  lemma PipelineKeepsTheRest(values: Values, access: Access, ca: Option<CaRef>, path: Path)
    requires Pipeline(values, access, ca).Ok?
    requires forall q :: q in Touched() ==> Aside(path, q)
    ensures At(Pipeline(values, access, ca).value, path) == At(UserTree(values), path)
  {
    hide Pipeline, UserEnvs, Inject, EncodeAll, Aside, CollectorConfig;
    PipelineForm(values, access, ca);
    var out, user := Final(values, access, ca), UserRoot(values);
    NotAPrefix(path);
    if path[0] != OPERATOR {
      assert [path[0]] + path[1..] == path;
      OnlyTouchedRoots(path);
    } else {
      KeepsOperatorRest(values, access, ca, path);
    }
  }

  /** A path aside from all edited places leads past them. */
  lemma NotAPrefix(path: Path)
    requires forall q :: q in Touched() ==> Aside(path, q)
    ensures path != [] && path != [OPERATOR] && path != [OPERATOR, MANAGER]
  {
    assert ["crds"] in Touched();
    assert [OPERATOR, "enabled"] in Touched();
    assert [OPERATOR, MANAGER, ENVS] in Touched();
    assert [OPERATOR] <= [OPERATOR, "enabled"] && [OPERATOR, MANAGER] <= [OPERATOR, MANAGER, ENVS];
  }

  lemma OnlyTouchedRoots(path: Path)
    requires path != [] && forall q :: q in Touched() ==> Aside(path, q)
    ensures path[0] !in Disabled() && path[0] != "crds"
  {
    forall k | k in Disabled() || k == "crds" ensures k != path[0] {
      assert [k] in Touched() && Aside(path, [k]);
      assert k == path[0] ==> [k] <= path;
    }
  }

  lemma OnlyTouchedMembers(path: Path)
    requires |path| >= 2 && path[0] == OPERATOR && forall q :: q in Touched() ==> Aside(path, q)
    ensures path[1] !in {"enabled", "crds", "automountServiceAccountToken"}
    ensures path[1] == MANAGER && |path| >= 3 ==> path[2] !in {"featureGatesMap", ENVS}
  {
    PrefixOfMembers(path, "enabled");
    PrefixOfMembers(path, "crds");
    PrefixOfMembers(path, "automountServiceAccountToken");
    if path[1] == MANAGER && |path| >= 3 {
      assert [OPERATOR, MANAGER, "featureGatesMap"] in Touched() && [OPERATOR, MANAGER, ENVS] in Touched();
      assert [OPERATOR, MANAGER, path[2]] <= path;
    }
  }

  lemma PrefixOfMembers(path: Path, key: string)
    requires |path| >= 2 && path[0] == OPERATOR && forall q :: q in Touched() ==> Aside(path, q)
    requires key in {"enabled", "crds", "automountServiceAccountToken"}
    ensures path[1] != key
  {
    assert [OPERATOR, key] in Touched() && Aside(path, [OPERATOR, key]);
    assert [OPERATOR, path[1]] <= path;
  }

  lemma AtStep(j: Json, path: Path)
    requires path != []
    ensures At(j, path) == if j.Obj? && path[0] in j.fields then At(j.fields[path[0]], path[1..]) else None
  {
  }

  lemma KeepsOperatorRest(values: Values, access: Access, ca: Option<CaRef>, path: Path)
    requires WellShaped(values, ca)
    requires forall q :: q in Touched() ==> Aside(path, q)
    requires path != [] && path[0] == OPERATOR && path != [OPERATOR] && path != [OPERATOR, MANAGER]
    ensures At(Final(values, access, ca), path) == At(UserTree(values), path)
  {
    hide UserEnvs, Inject, EncodeAll, CollectorConfig, Disabled, ReadList, At, Touched, Aside;
    var out, user := Final(values, access, ca), UserTree(values);
    var members := path[1..];
    assert path == [OPERATOR] || path[1] == members[0];
    OnlyTouchedMembers(path);
    AtStep(out, path);
    AtStep(user, path);
    AtStep(out.fields[OPERATOR], members);
    if user.Obj? && OPERATOR in user.fields {
      AtStep(user.fields[OPERATOR], members);
    }
    if members[0] == MANAGER {
      assert path == [OPERATOR, MANAGER] + members[1..];
      assert members[1..] != [] && members[1] == path[2];
      AtStep(out.fields[OPERATOR].fields[MANAGER], members[1..]);
      if user.Obj? && OPERATOR in user.fields && MANAGER in user.fields[OPERATOR].fields {
        AtStep(user.fields[OPERATOR].fields[MANAGER], members[1..]);
      }
    }
  }

  /** What the controller reads from the values is the same before and after the edits: the
      pull secrets named by the release are the ones that are copied. */
  lemma ExtractionCommutes(values: Values, access: Access, ca: Option<CaRef>)
    requires Pipeline(values, access, ca).Ok?
    ensures Extract(Some(Pipeline(values, access, ca).value)) == Extract(values)
  {
    hide Pipeline, UserEnvs, Inject, EncodeAll, CollectorConfig, ReadList, SecretNames, FinalOperator, FinalManager;
    PipelineForm(values, access, ca);
    ReadMembersUntouched(values, access, ca, "namespaceOverride");
    ReadMembersUntouched(values, access, ca, "imagePullSecrets");
  }

  lemma ReadMembersUntouched(values: Values, access: Access, ca: Option<CaRef>, key: string)
    requires key !in Disabled() && key != "crds" && key != OPERATOR
    ensures var root, user := Final(values, access, ca).fields, UserRoot(values);
            (key in root <==> key in user) && (key in user ==> root[key] == user[key])
  {
    hide UserEnvs, Inject, EncodeAll, CollectorConfig, FinalOperator, FinalManager;
  }

  /** In the final values the manager's environment, read as settings, is the user's updated
      with the injected variables, each of which occurs once. */
  lemma PipelineOverridesEnvs(values: Values, access: Access, ca: Option<CaRef>)
    requires Pipeline(values, access, ca).Ok?
    ensures var envs := UserEnvs(Some(Pipeline(values, access, ca).value));
            && Settings(envs) == Settings(UserEnvs(values)) + Settings(News(access, ca))
            && (forall x: Entry :: x in News(access, ca) ==> x in envs && Count(envs, x.name) == 1)
  {
    hide Pipeline, Inject, Settings, Count, News, Final, WellShaped;
    var before, news := UserEnvs(values), News(access, ca);
    PipelineForm(values, access, ca);
    FinalIsWellShaped(values, access, ca);
    NewsAreVariables(access, ca);
    forall e: Entry | e in before + news ensures e.EnvVar? {
      if e in before {
        assert e.Kind() == EnvKind;
      }
    }
    InjectOverrides(before, news);
    forall x: Entry | x in news ensures x in Inject(before, news) && Count(Inject(before, news), x.name) == 1 {
      var i :| 0 <= i < |news| && news[i] == x;
      InjectedOnce(before, news, i);
    }
  }

  // ----- The order of the defaults -----

  /** The defaults named by the first `n` of `order`, written one after the other. */
  function Written(root: Fields, order: seq<string>, n: nat): Fields
    requires n <= |order| && forall k :: k in order ==> k in Disabled()
  {
    if n == 0 then root else Written(root, order, n - 1)[order[n - 1] := Disabled()[order[n - 1]]]
  }

  lemma {:induction false} WrittenSoFar(root: Fields, order: seq<string>, n: nat)
    requires n <= |order| && forall k :: k in order ==> k in Disabled()
    ensures Written(root, order, n) == root + map k | k in order[..n] :: Disabled()[k]
  {
    hide Disabled;
    if n > 0 {
      WrittenSoFar(root, order, n - 1);
      assert order[..n] == order[..n - 1] + [order[n - 1]];
    }
  }

  /** Every order of writing the disabled defaults gives the same object. */
  lemma DefaultsInAnyOrder(root: Fields, order: seq<string>)
    requires forall k :: k in order <==> k in Disabled()
    ensures Written(root, order, |order|) == root + Disabled()
  {
    hide Disabled;
    WrittenSoFar(root, order, |order|);
    assert order[..|order|] == order;
    assert (map k | k in order :: Disabled()[k]) == Disabled();
  }
}
