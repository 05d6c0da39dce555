/** Two lives in which teardown finishes and leaves something behind: the namespace override is
    edited between installation and deletion, or the version is withdrawn before an installation
    went through. */
module StrandedNamespace {
  import opened Wrappers
  import opened Json
  import opened Cluster
  import opened Managed
  import opened Manager
  import opened HelmValues
  import opened Graph
  import opened Controller
  import opened ControllerTheorems
  import opened InstanceTheorems
  import opened Isolation
  import opened TeardownRuns
  import opened ApplyOutcome
  import ApplyConvergence
  import GraphTheorems
  import TeardownProgress
  import TeardownRounds
  import HelmEntries
  import HelmTheorems
  import Guard
  import Instance
  import Token

  // ----- Two configurations -----

  function Overriding(namespace: string): Values {
    Some(Obj(map["namespaceOverride" := Str(namespace)]))
  }

  /** A configuration offering one version, with no secrets and no CA bundle. */
  function Offering(version: string, url: Option<string>, values: Values): ProviderConfig {
    ProviderConfig([KubeStackVersion(version, url, None, values)], None, None)
  }

  lemma AbsentValuesAreFine(access: Access)
    ensures Extract(None) == Ok(Extracted("", [])) && Pipeline(None, access, None).Ok?
  {
    hide Pipeline;
    HelmTheorems.PipelineForm(None, access, None);
  }

  lemma OverridingValuesAreFine(namespace: string, access: Access)
    ensures Extract(Overriding(namespace)) == Ok(Extracted(namespace, []))
    ensures Pipeline(Overriding(namespace), access, None).Ok?
  {
    hide Pipeline, HelmTheorems.Final;
    var fields: HelmEntries.Fields := map["namespaceOverride" := Str(namespace)];
    assert OPERATOR !in fields && "imagePullSecrets" !in fields && "namespaceOverride" in fields;
    NothingConfigured(fields);
    HelmTheorems.PipelineForm(Overriding(namespace), access, None);
  }

  lemma NothingConfigured(fields: HelmEntries.Fields)
    requires OPERATOR !in fields
    ensures HelmTheorems.WellShaped(Some(Obj(fields)), None)
  {
  }

  /** The plan made from such a configuration. */
  ghost predicate PlainPlan(ctx: Context, o: Operator, pc: ProviderConfig, forDelete: bool, namespace: string,
                            url: Option<string>) {
    && Planned(ctx, o, pc, forDelete).Ok?
    && var s := Planned(ctx, o, pc, forDelete).value.setup;
       && s.otelNamespace == namespace && s.pulls == [] && s.ca == None && s.chart == None
       && s.chartUrl == url && s.server == ctx.cpServer
       && s.cp == ctx.cp && s.workload == ctx.workload && s.platform == ctx.platform && s.podNamespace == ctx.podNamespace
       && ctx.tenantNamespaceOf(o.name, o.namespace) == Some(s.tenantNamespace)
  }

  lemma PlansAreMade(ctx: Context, o: Operator, forDelete: bool, namespace: string, url: Option<string>, values: Values)
    requires ctx.tenantNamespaceOf(o.name, o.namespace).Some?
    requires Extract(values) == Ok(Extracted(namespace, [])) && Pipeline(values, AccessFor(ctx), None).Ok?
    ensures PlainPlan(ctx, o, Offering(o.version, url, values), forDelete,
                      if namespace == "" then DEFAULT_NAMESPACE else namespace, url)
  {
    hide Pipeline, Extract, AccessFor, CrdValues;
    var pc := Offering(o.version, url, values);
    assert Select(pc.versions, o.version, 0) == None;
    assert Select(pc.versions, o.version, 1) == Some(pc.versions[0]);
  }

  /** What the life needs of its surroundings: three clusters, a tenant namespace of its own, and
      a control plane that can be reached. */
  ghost predicate Surroundings(ctx: Context, o: Operator) {
    && Instance.TwentyBytes(ctx.digest)
    && ctx.cp != ctx.workload && ctx.cp != ctx.platform && ctx.workload != ctx.platform
    && ctx.tenantNamespaceOf(o.name, o.namespace).Some?
    && ctx.tenantNamespaceOf(o.name, o.namespace).value != ctx.podNamespace
    && ctx.cpServer.Some? && !ctx.cpServer.value.caFile.Unreadable?
  }

  lemma PlainIsSane(ctx: Context, o: Operator, pc: ProviderConfig, forDelete: bool, namespace: string, url: Option<string>)
    requires Surroundings(ctx, o) && PlainPlan(ctx, o, pc, forDelete, namespace, url)
    ensures var s := Planned(ctx, o, pc, forDelete).value.setup;
            && Sane(s)
            && (forall x :: !GraphTheorems.IsCopy(s, x))
            && Token.EndpointOf(s.otelNamespace, s.server).Some?
  {
    hide Planned;
  }

  // ----- The installation -----

  /** Everything in the store is free of finalizers, and the objects of the plan are there. */
  ghost predicate FreshlyInstalled(s: Setup, store: Store) {
    && (forall k :: k in store ==> !store[k].held)
    && (forall x :: x in Objects(s) ==> x.key in store)
  }

  lemma InstallsClean(s: Setup, script: Script)
    requires Sane(s) && Quiet(script) && s.chartUrl.Some? && Token.EndpointOf(s.otelNamespace, s.server).Some?
    requires forall x :: !GraphTheorems.IsCopy(s, x)
    ensures Pass(World(map[], 0, {}, []), script, Objects(s), Cleaners(s), false).Clean()
  {
    var w := World(map[], 0, {}, []);
    assert Supplies(s, w, script) by {
      hide TokenDue, GraphTheorems.IsCopy, Token.EndpointOf;
    }
    hide Pass, Objects, Cleaners, Quiet, Sane, Supplies, GraphTheorems.IsCopy, Token.EndpointOf;
    CleanApplyIff(s, w, script);
  }

  lemma InstallsFresh(s: Setup, script: Script)
    requires Sane(s) && Quiet(script) && s.chartUrl.Some? && Token.EndpointOf(s.otelNamespace, s.server).Some?
    requires forall x :: !GraphTheorems.IsCopy(s, x)
    ensures FreshlyInstalled(s, Pass(World(map[], 0, {}, []), script, Objects(s), Cleaners(s), false).world.store)
  {
    var w := World(map[], 0, {}, []);
    InstallsClean(s, script);
    assert Silent(script) && ListsFaithfully(script);
    hide Pass, Objects, Cleaners, Quiet, Silent, ListsFaithfully, KeyedApart, ApplyConvergence.SourcesApart,
         GraphTheorems.IsCopy, Token.EndpointOf, ApplyConvergence.Converged, ApplyConvergence.Swept;
    GraphTheorems.GraphIsWellPosed(s);
    GraphTheorems.GraphSourcesApart(s);
    ApplyConvergence.ApplyConverges(Objects(s), Cleaners(s), w, script);
    var after := Pass(w, script, Objects(s), Cleaners(s), false).world.store;
    forall k | k !in ApplyConvergence.Keys(Objects(s), |Objects(s)|) ensures k !in after {
      NothingSwept(Cleaners(s), k);
    }
    FreshFromNothing(Objects(s), script, after);
  }

  lemma NothingSwept(cleaners: seq<Cleaner>, k: Key)
    ensures !ApplyConvergence.Swept(cleaners, map[], k)
  {
  }

  lemma FreshFromNothing(objs: seq<ManagedObject>, script: Script, after: Store)
    requires forall x :: x in objs ==> ApplyConvergence.Converged(x, script, map[], after)
    requires forall k :: k !in ApplyConvergence.Keys(objs, |objs|) ==> k !in after
    ensures forall k :: k in after ==> !after[k].held
    ensures forall x :: x in objs ==> x.key in after
  {
    hide ApplyConvergence.Fits;
    assert objs[..|objs|] == objs;
    forall k | k in after ensures !after[k].held {
      var x :| x in objs && x.key == k;
      assert ApplyConvergence.Converged(x, script, map[], after);
    }
  }

  // ----- The deletions -----

  function EmptyGuard(): Event {
    DeleteEvent(Guard.NoMatch, Guard.NoMatch, Guard.NoMatch)
  }

  /** The same environment in every pass, with no finalizers to complete. */
  function Undisturbed(script: Script): History {
    (n: nat) => Step({}, script)
  }

  lemma NothingFinalized(w: World, script: Script, objs: seq<ManagedObject>, cleaners: seq<Cleaner>, n: nat)
    ensures Start(w, Undisturbed(script), objs, cleaners, n) == Run(w, Undisturbed(script), objs, cleaners, n)
  {
    hide Run;
    var before := Run(w, Undisturbed(script), objs, cleaners, n);
    assert Finalized(before.store, {}) == before.store;
  }

  /** From event `m` on come `n` deletions that the guard lets through: they are a run of Delete
      passes of one plan. */
  lemma {:induction false} DeletionsAreARun(ctx: Context, script: Script, start: Life, events: seq<Event>, m: nat, n: nat)
    requires Instance.TwentyBytes(ctx.digest) && m + n <= |events|
    requires forall i :: m <= i < m + n ==> events[i] == EmptyGuard()
    requires var life := Lived(ctx, script, start, events, m); Planned(ctx, life.o, life.pc, true).Ok?
    ensures var life := Lived(ctx, script, start, events, m);
            var s := Planned(ctx, life.o, life.pc, true).value.setup;
            var later := Lived(ctx, script, start, events, m + n);
            && later.pc == life.pc && Planned(ctx, later.o, later.pc, true) == Planned(ctx, life.o, life.pc, true)
            && later.world == Run(life.world, Undisturbed(script), Objects(s), Cleaners(s), n)
  {
    hide Pass, Planned, Objects, Cleaners, AfterDelete, AfterCreateOrUpdate;
    if n > 0 {
      DeletionsAreARun(ctx, script, start, events, m, n - 1);
      var life, before := Lived(ctx, script, start, events, m), Lived(ctx, script, start, events, m + n - 1);
      var s := Planned(ctx, life.o, life.pc, true).value.setup;
      DeletionPasses(ctx, before.world, script, before.o, before.pc, [Guard.NoMatch, Guard.NoMatch, Guard.NoMatch]);
      NothingFinalized(life.world, script, Objects(s), Cleaners(s), n - 1);
      assert events[m + n - 1] == EmptyGuard();
    }
  }

  /** Four such deletions of objects without finalizers finish, from any store. */
  lemma FourDeletionsFinish(ctx: Context, script: Script, start: Life, events: seq<Event>, m: nat)
    requires Instance.TwentyBytes(ctx.digest) && Quiet(script) && m + 4 <= |events|
    requires forall i :: m <= i < m + 4 ==> events[i] == EmptyGuard()
    requires var life := Lived(ctx, script, start, events, m);
             && Planned(ctx, life.o, life.pc, true).Ok? && Sane(Planned(ctx, life.o, life.pc, true).value.setup)
             && forall k :: k in life.world.store ==> !life.world.store[k].held
    ensures var last := Lived(ctx, script, start, events, m + 3);
            AfterDelete(ctx, last.world, script, last.o, last.pc, [Guard.NoMatch, Guard.NoMatch, Guard.NoMatch]).2 == Finished
  {
    hide Pass, Planned, Objects, Cleaners, AfterDelete, Lived, Quiet, Sane, Run, Start;
    var life, last := Lived(ctx, script, start, events, m), Lived(ctx, script, start, events, m + 3);
    var s := Planned(ctx, life.o, life.pc, true).value.setup;
    DeletionsAreARun(ctx, script, start, events, m, 3);
    NothingFinalized(life.world, script, Objects(s), Cleaners(s), 3);
    FourthPassCompletes(s, life.world, script);
    var answers := [Guard.NoMatch, Guard.NoMatch, Guard.NoMatch];
    DeletionFinishesIff(ctx, last.world, script, last.o, last.pc, answers);
  }

  lemma FourthPassCompletes(s: Setup, w: World, script: Script)
    requires Sane(s) && Quiet(script) && forall k :: k in w.store ==> !w.store[k].held
    ensures TeardownProgress.Completes(OutcomeOf(w, Undisturbed(script), Objects(s), Cleaners(s), 3))
  {
    var objs, cleaners, steps := Objects(s), Cleaners(s), Undisturbed(script);
    assert QuietRun(steps);
    hide Pass, Objects, Cleaners, Start, KeyedApart, LongestChain, QuietRun, Prompt, Undisturbed;
    GraphTheorems.GraphIsWellPosed(s);
    GraphTheorems.GraphIsDeletable(s);
    GraphTheorems.GraphHasDepthTwo(s);
    TeardownRounds.UnheldIsPrompt(objs, cleaners, w, steps);
    TeardownRounds.TeardownFinishesIff(objs, cleaners, w, steps);
    QuietCompletion(objs, cleaners, Start(w, steps, objs, cleaners, 3), script);
    assert Undisturbed(script)(3).script == script by {
      UndisturbedScript(script, 3);
    }
  }

  lemma UndisturbedScript(script: Script, n: nat)
    ensures Undisturbed(script)(n).script == script
  {
  }

  lemma QuietCompletion(objs: seq<ManagedObject>, cleaners: seq<Cleaner>, w: World, script: Script)
    requires Quiet(script)
    ensures AllDeleted(Pass(w, script, objs, cleaners, true).reports) ==>
              TeardownProgress.Completes(Pass(w, script, objs, cleaners, true))
  {
    hide Visits, Cleanups, AllDeleted, ErrorFree, Quiet, FaultFree;
    TeardownProgress.QuietIsFaultFree(script);
    var w1 := Visits(w, script, objs, true, |objs|).0;
    TeardownProgress.CleanersReportNothing(w1, script, cleaners, |cleaners|);
    if AllDeleted(Pass(w, script, objs, cleaners, true).reports) {
      TeardownProgress.AllDeletedIsErrorFree(objs, cleaners, w, script);
    }
  }

  /** The control-plane namespace and the service account in it. */
  function AccessKeys(cp: string, namespace: string): set<Key> {
    {Key(cp, Namespace, "", namespace), Key(cp, ServiceAccount, namespace, SERVICE_ACCOUNT)}
  }

  /** Those of another configuration survive any number of Delete passes. */
  lemma {:induction false} AccessSurvives(s: Setup, w: World, script: Script, namespace: string, n: nat)
    requires GraphTheorems.Separate(s) && Quiet(script) && namespace != s.otelNamespace
    ensures forall k :: k in AccessKeys(s.cp, namespace) ==>
              ApplyConvergence.SameAt(w.store, Run(w, Undisturbed(script), Objects(s), Cleaners(s), n).store, k)
  {
    hide Pass, Objects, Cleaners, InFootprint;
    if n > 0 {
      var others: Key -> bool := (x: Key) => false;
      var before := Run(w, Undisturbed(script), Objects(s), Cleaners(s), n - 1);
      AccessSurvives(s, w, script, namespace, n - 1);
      NothingFinalized(w, script, Objects(s), Cleaners(s), n - 1);
      EarlierNamespaceIsReachedIff(s, namespace);
      EarlierAccountIsReachedIff(s, namespace);
      assert ActsOnlyOn(script, others);
      PassStaysInFootprint(s, others, before, script, true);
    }
  }

  // ----- A life with an edited override -----

  /** Install, edit the override, delete until finished. */
  function EditedLife(version: string, url: string, namespace: string): seq<Event> {
    [ApplyEvent(true), EditConfig(Offering(version, Some(url), Overriding(namespace))),
     EmptyGuard(), EmptyGuard(), EmptyGuard(), EmptyGuard()]
  }

  /** For every instance in sound surroundings, from an empty store and with nothing going wrong:
      the fourth deletion finishes, and the namespace of the first configuration and the service
      account in it are still there. */
  lemma FinishedDeletionStrandsNamespace(ctx: Context, script: Script, o: Operator, url: string, namespace: string)
    requires Surroundings(ctx, o) && Quiet(script) && namespace != "" && namespace != DEFAULT_NAMESPACE
    ensures var start := Life(World(map[], 0, {}, []), o, Offering(o.version, Some(url), None));
            var events := EditedLife(o.version, url, namespace);
            var last := Lived(ctx, script, start, events, 5);
            && AfterDelete(ctx, last.world, script, last.o, last.pc, [Guard.NoMatch, Guard.NoMatch, Guard.NoMatch]).2 == Finished
            && AccessKeys(ctx.cp, DEFAULT_NAMESPACE) <= Lived(ctx, script, start, events, 6).world.store.Keys
  {
    var start := Life(World(map[], 0, {}, []), o, Offering(o.version, Some(url), None));
    var events := EditedLife(o.version, url, namespace);
    AfterTheEdit(ctx, script, o, url, namespace);
    assert Instance.TwentyBytes(ctx.digest);
    DeletionsComeLast(o.version, url, namespace);
    hide EditedLife, Offering, Overriding, Surroundings;
    DeletionsStrand(ctx, script, start, events, 2, DEFAULT_NAMESPACE);
  }

  lemma DeletionsComeLast(version: string, url: string, namespace: string)
    ensures |EditedLife(version, url, namespace)| == 6
    ensures forall i :: 2 <= i < 6 ==> EditedLife(version, url, namespace)[i] == EmptyGuard()
  {
  }

  lemma DeletionsStrand(ctx: Context, script: Script, start: Life, events: seq<Event>, m: nat, former: string)
    requires Instance.TwentyBytes(ctx.digest) && Quiet(script) && m + 4 <= |events|
    requires forall i :: m <= i < m + 4 ==> events[i] == EmptyGuard()
    requires Stranding(ctx, Lived(ctx, script, start, events, m), former)
    ensures var last := Lived(ctx, script, start, events, m + 3);
            && AfterDelete(ctx, last.world, script, last.o, last.pc, [Guard.NoMatch, Guard.NoMatch, Guard.NoMatch]).2 == Finished
            && AccessKeys(ctx.cp, former) <= Lived(ctx, script, start, events, m + 4).world.store.Keys
  {
    hide Lived, Planned, Objects, Cleaners, AfterDelete, Quiet, Run, EmptyGuard, AccessKeys;
    var life := Lived(ctx, script, start, events, m);
    var s := Planned(ctx, life.o, life.pc, true).value.setup;
    assert GraphTheorems.Separate(s);
    hide Sane, GraphTheorems.Separate;
    FourDeletionsFinish(ctx, script, start, events, m);
    DeletionsAreARun(ctx, script, start, events, m, 4);
    AccessSurvives(s, life.world, script, former, 4);
  }

  /** A life that holds a namespace, with its account, which its configuration no longer names. */
  ghost predicate Stranding(ctx: Context, life: Life, former: string) {
    && Planned(ctx, life.o, life.pc, true).Ok?
    && (var s := Planned(ctx, life.o, life.pc, true).value.setup;
        Sane(s) && s.cp == ctx.cp && s.otelNamespace != former)
    && (forall k :: k in life.world.store ==> !life.world.store[k].held)
    && AccessKeys(ctx.cp, former) <= life.world.store.Keys
  }

  lemma AfterTheEdit(ctx: Context, script: Script, o: Operator, url: string, namespace: string)
    requires Surroundings(ctx, o) && Quiet(script) && namespace != "" && namespace != DEFAULT_NAMESPACE
    ensures var start := Life(World(map[], 0, {}, []), o, Offering(o.version, Some(url), None));
            Stranding(ctx, Lived(ctx, script, start, EditedLife(o.version, url, namespace), 2), DEFAULT_NAMESPACE)
  {
    hide AfterCreateOrUpdate, Lived, Quiet, Planned, PlainPlan, Offering, Overriding, Sane;
    var start := Life(World(map[], 0, {}, []), o, Offering(o.version, Some(url), None));
    FirstEventInstalls(ctx, script, o, url);
    LivedTwo(ctx, script, start, EditedLife(o.version, url, namespace));
    var o' := AfterCreateOrUpdate(ctx, start.world, script, o, start.pc, true).1;
    EditedPlan(ctx, o', url, namespace);
  }

  lemma EditedPlan(ctx: Context, o: Operator, url: string, namespace: string)
    requires Surroundings(ctx, o) && namespace != "" && namespace != DEFAULT_NAMESPACE
    ensures var plan := Planned(ctx, o, Offering(o.version, Some(url), Overriding(namespace)), true);
            plan.Ok? && Sane(plan.value.setup) && plan.value.setup.cp == ctx.cp && plan.value.setup.otelNamespace != DEFAULT_NAMESPACE
  {
    hide Pipeline, Extract, AccessFor, Planned, Surroundings, Sane, Offering;
    assert ctx.tenantNamespaceOf(o.name, o.namespace).Some? by {
      HasTenant(ctx, o);
    }
    OverridingValuesAreFine(namespace, AccessFor(ctx));
    PlansAreMade(ctx, o, true, namespace, Some(url), Overriding(namespace));
    PlainIsSane(ctx, o, Offering(o.version, Some(url), Overriding(namespace)), true, namespace, Some(url));
  }

  lemma HasTenant(ctx: Context, o: Operator)
    requires Surroundings(ctx, o)
    ensures ctx.tenantNamespaceOf(o.name, o.namespace).Some?
  {
  }

  /** The first event installs. */
  lemma FirstEventInstalls(ctx: Context, script: Script, o: Operator, url: string)
    requires Surroundings(ctx, o) && Quiet(script)
    ensures var (w, o', _) := AfterCreateOrUpdate(ctx, World(map[], 0, {}, []), script, o, Offering(o.version, Some(url), None), true);
            && o'.namespace == o.namespace && o'.name == o.name && o'.version == o.version
            && (forall k :: k in w.store ==> !w.store[k].held)
            && AccessKeys(ctx.cp, DEFAULT_NAMESPACE) <= w.store.Keys
  {
    hide Pipeline, Extract, AccessFor, Pass, Objects, Cleaners, Quiet, Planned, ResourcesOf, AllReady, PendingMessage, Sane;
    var pc, o1 := Offering(o.version, Some(url), None), Prepared(ctx, o);
    AbsentValuesAreFine(AccessFor(ctx));
    PlansAreMade(ctx, o1, false, "", Some(url), None);
    PlainIsSane(ctx, o1, pc, false, DEFAULT_NAMESPACE, Some(url));
    hide GraphTheorems.IsCopy;
    var s := Planned(ctx, o1, pc, false).value.setup;
    InstallsFresh(s, script);
    GraphTheorems.Members(s, CpNamespace(s));
    GraphTheorems.Members(s, CpServiceAccount(s));
    assert CpNamespace(s).key == Key(ctx.cp, Namespace, "", DEFAULT_NAMESPACE);
    assert CpServiceAccount(s).key == Key(ctx.cp, ServiceAccount, DEFAULT_NAMESPACE, SERVICE_ACCOUNT);
  }

  lemma LivedTwo(ctx: Context, script: Script, start: Life, events: seq<Event>)
    requires Instance.TwentyBytes(ctx.digest) && |events| >= 2 && events[0] == ApplyEvent(true) && events[1].EditConfig?
    ensures var (w, o, _) := AfterCreateOrUpdate(ctx, start.world, script, start.o, start.pc, true);
            Lived(ctx, script, start, events, 2) == Life(w, o, events[1].pc)
  {
    hide AfterCreateOrUpdate, AfterDelete;
    assert Lived(ctx, script, start, events, 0) == start;
    assert Lived(ctx, script, start, events, 1) == AfterEvent(ctx, script, start, events[0]);
  }

  // ----- A life with a withdrawn version -----

  /** Try to install a version that has no chart URL, withdraw it, delete. */
  function WithdrawnLife(): seq<Event> {
    [ApplyEvent(true), EditConfig(ProviderConfig([], None, None)), EmptyGuard()]
  }

  /** For every instance in sound surroundings on which nothing is recorded, from an empty store and
      with every call served: the deletion finishes at once, without building its manager, and
      the control-plane namespace and the service account are still there. */
  lemma FinishedDeletionWithoutPlan(ctx: Context, script: Script, o: Operator)
    requires Surroundings(ctx, o) && Quiet(script) && o.status.installed == None
    ensures var start := Life(World(map[], 0, {}, []), o, Offering(o.version, None, None));
            var last := Lived(ctx, script, start, WithdrawnLife(), 2);
            && AfterDelete(ctx, last.world, script, last.o, last.pc, [Guard.NoMatch, Guard.NoMatch, Guard.NoMatch]).2 == Finished
            && AccessKeys(ctx.cp, DEFAULT_NAMESPACE) <= Lived(ctx, script, start, WithdrawnLife(), 3).world.store.Keys
  {
    hide AfterCreateOrUpdate, AfterDelete, Quiet, Planned, Offering, AccessKeys;
    var start := Life(World(map[], 0, {}, []), o, Offering(o.version, None, None));
    var events := WithdrawnLife();
    FirstEventFails(ctx, script, o);
    LivedTwo(ctx, script, start, events);
    var last := Lived(ctx, script, start, events, 2);
    var answers := [Guard.NoMatch, Guard.NoMatch, Guard.NoMatch];
    UnplannedDeletionLeavesAll(ctx, last.world, script, last.o, last.pc, answers);
    assert events[2] == EmptyGuard();
    assert Lived(ctx, script, start, events, 3) == AfterEvent(ctx, script, last, events[2]);
  }

  /** The first event creates the namespace, fails, and records nothing. */
  lemma FirstEventFails(ctx: Context, script: Script, o: Operator)
    requires Surroundings(ctx, o) && Quiet(script) && o.status.installed == None
    ensures var (w, o', _) := AfterCreateOrUpdate(ctx, World(map[], 0, {}, []), script, o, Offering(o.version, None, None), true);
            && o'.namespace == o.namespace && o'.name == o.name && o'.version == o.version && o'.status.installed == None
            && AccessKeys(ctx.cp, DEFAULT_NAMESPACE) <= w.store.Keys
  {
    hide Pipeline, Extract, AccessFor, Pass, Objects, Cleaners, Quiet, Planned, ResourcesOf, AllReady, PendingMessage, Sane;
    var w, pc, o1 := World(map[], 0, {}, []), Offering(o.version, None, None), Prepared(ctx, o);
    AbsentValuesAreFine(AccessFor(ctx));
    PlansAreMade(ctx, o1, false, "", None, None);
    PlainIsSane(ctx, o1, pc, false, DEFAULT_NAMESPACE, None);
    hide GraphTheorems.IsCopy, TokenDue, Token.EndpointOf;
    var s := Planned(ctx, o1, pc, false).value.setup;
    CleanApplyIff(s, w, script);
    AccessIsCreated(s, w, script);
    assert CpNamespace(s).key == Key(ctx.cp, Namespace, "", DEFAULT_NAMESPACE);
    assert CpServiceAccount(s).key == Key(ctx.cp, ServiceAccount, DEFAULT_NAMESPACE, SERVICE_ACCOUNT);
  }
}
