/** What the controller promises about one reconcile and about whole lives of an instance. */
module ControllerTheorems {
  import opened Wrappers
  import opened Cluster
  import opened Managed
  import opened Manager
  import opened HelmValues
  import opened Graph
  import opened Controller
  import GraphTheorems
  import TeardownProgress
  import HelmTheorems
  import opened HelmContents
  import ApplyConvergence
  import opened ApplyOutcome
  import opened Json
  import Instance
  import Guard

  // ----- Readiness -----

  lemma ListedAsReported(reports: seq<Report>)
    ensures AllReady(ResourcesOf(reports, map[], |reports|)) <==>
              forall i :: 0 <= i < |reports| ==> PhaseOf(reports[i].managed.status, reports[i].seen) == Ready
  {
    hide PhaseOf;
    var resources := ResourcesOf(reports, map[], |reports|);
    forall i | 0 <= i < |reports|
      ensures resources[i] in resources && resources[i].phase == PhaseOf(reports[i].managed.status, reports[i].seen)
    {
    }
  }

  /** The operator and plan that an Apply works with. */
  function Prepared(ctx: Context, o: Operator): Operator
    requires Instance.TwentyBytes(ctx.digest)
  {
    WithInstanceId(ctx, o).(status := o.status.(phase := ProgressingPhase, message := InProgress))
  }

  function Applied(ctx: Context, w: World, script: Script, o: Operator, pc: ProviderConfig): Outcome
    requires Instance.TwentyBytes(ctx.digest)
    requires Planned(ctx, Prepared(ctx, o), pc, false).Ok?
  {
    var setup := Planned(ctx, Prepared(ctx, o), pc, false).value.setup;
    Pass(w, script, Objects(setup), Cleaners(setup), false)
  }

  /** Ready is reported exactly when the instance identifier is in place, the manager could be
      built, neither an object nor a cleaner failed, and every reported object is ready. */
  lemma ReadyIff(ctx: Context, w: World, script: Script, o: Operator, pc: ProviderConfig, onboardingOk: bool)
    requires Instance.TwentyBytes(ctx.digest)
    ensures AfterCreateOrUpdate(ctx, w, script, o, pc, onboardingOk).1.status.phase == ReadyPhase <==>
              && IdInPlace(ctx, o, onboardingOk)
              && Planned(ctx, Prepared(ctx, o), pc, false).Ok?
              && var outcome := Applied(ctx, w, script, o, pc);
                 outcome.Clean()
                 && forall i :: 0 <= i < |outcome.reports| ==>
                      PhaseOf(outcome.reports[i].managed.status, outcome.reports[i].seen) == Ready
  {
    hide Pass, Planned, AllReady, ResourcesOf, PhaseOf;
    if Planned(ctx, Prepared(ctx, o), pc, false).Ok? {
      ListedAsReported(Applied(ctx, w, script, o, pc).reports);
    }
  }

  /** The object is really there: stored, not terminating, and ready if Flux says so. */
  ghost predicate Up(o: ManagedObject, store: Store) {
    o.key in store && !store[o.key].terminating && (o.status == Flux ==> store[o.key].ready)
  }

  /** Ready means ready: of an undisturbed CreateOrUpdate whose Apply was clean, Ready is
      reported exactly when afterwards every managed object is up in the clusters. */
  lemma ReadyMeansUp(ctx: Context, w: World, script: Script, o: Operator, pc: ProviderConfig, onboardingOk: bool)
    requires Instance.TwentyBytes(ctx.digest) && Silent(script) && ListsFaithfully(script)
    requires IdInPlace(ctx, o, onboardingOk) && Planned(ctx, Prepared(ctx, o), pc, false).Ok?
    requires Sane(Planned(ctx, Prepared(ctx, o), pc, false).value.setup)
    requires Applied(ctx, w, script, o, pc).Clean()
    ensures var (w', o', _) := AfterCreateOrUpdate(ctx, w, script, o, pc, onboardingOk);
            o'.status.phase == ReadyPhase <==>
              forall x :: x in Objects(Planned(ctx, Prepared(ctx, o), pc, false).value.setup) ==> Up(x, w'.store)
  {
    hide Pass, Planned, Objects, Cleaners, Silent, ListsFaithfully;
    var setup := Planned(ctx, Prepared(ctx, o), pc, false).value.setup;
    UpIsShown(setup, w, script);
    ReadyIff(ctx, w, script, o, pc, onboardingOk);
  }

  lemma UpIsShown(s: Setup, w: World, script: Script)
    requires Sane(s) && Silent(script) && ListsFaithfully(script)
    requires Pass(w, script, Objects(s), Cleaners(s), false).Clean()
    ensures var outcome := Pass(w, script, Objects(s), Cleaners(s), false);
            (forall i :: 0 <= i < |outcome.reports| ==>
               PhaseOf(outcome.reports[i].managed.status, outcome.reports[i].seen) == Ready)
            <==> forall x :: x in Objects(s) ==> Up(x, outcome.world.store)
  {
    hide Pass, Objects, Cleaners, Silent, ListsFaithfully, KeyedApart, ApplyConvergence.SourcesApart;
    GraphTheorems.GraphIsWellPosed(s);
    GraphTheorems.GraphSourcesApart(s);
    ApplyConvergence.ReportsShowTheStore(Objects(s), Cleaners(s), w, script);
    StatusesAreWatched(s);
    var outcome := Pass(w, script, Objects(s), Cleaners(s), false);
    var objs := Objects(s);
    forall i | 0 <= i < |objs|
      ensures PhaseOf(outcome.reports[i].managed.status, outcome.reports[i].seen) == Ready <==> Up(objs[i], outcome.world.store)
    {
      assert objs[i] in objs;
    }
    assert forall x :: x in objs <==> exists i :: 0 <= i < |objs| && objs[i] == x;
  }

  lemma StatusesAreWatched(s: Setup)
    ensures forall x :: x in Objects(s) ==> x.status in {Simple, Flux}
  {
    hide Objects;
    forall x | x in Objects(s) ensures x.status in {Simple, Flux} {
      GraphTheorems.Members(s, x);
    }
  }

  lemma ApplyReturns(ctx: Context, w: World, script: Script, o: Operator, pc: ProviderConfig, onboardingOk: bool)
    requires Instance.TwentyBytes(ctx.digest)
    requires IdInPlace(ctx, o, onboardingOk) && Planned(ctx, Prepared(ctx, o), pc, false).Ok?
    ensures var (w', o', r) := AfterCreateOrUpdate(ctx, w, script, o, pc, onboardingOk);
            var outcome := Applied(ctx, w, script, o, pc);
            w' == outcome.world && (r == Finished <==> outcome.Clean())
  {
    hide Pass, Planned, AfterApply, Objects, Cleaners;
  }

  /** An undisturbed CreateOrUpdate that could build its manager succeeds if and only if the
      supplies are in place, and reports Ready if and only if besides every object is up. */
  lemma UndisturbedApplyIff(ctx: Context, w: World, script: Script, o: Operator, pc: ProviderConfig, onboardingOk: bool)
    requires Instance.TwentyBytes(ctx.digest) && Quiet(script)
    requires IdInPlace(ctx, o, onboardingOk) && Planned(ctx, Prepared(ctx, o), pc, false).Ok?
    requires Sane(Planned(ctx, Prepared(ctx, o), pc, false).value.setup)
    ensures var s := Planned(ctx, Prepared(ctx, o), pc, false).value.setup;
            var (w', o', r) := AfterCreateOrUpdate(ctx, w, script, o, pc, onboardingOk);
            && (r == Finished <==> Supplies(s, w, script))
            && (o'.status.phase == ReadyPhase <==> Supplies(s, w, script) && forall x :: x in Objects(s) ==> Up(x, w'.store))
  {
    assert Silent(script) && ListsFaithfully(script);
    hide Pass, Planned, Objects, Cleaners, Quiet, Silent, ListsFaithfully, Supplies, Sane, PhaseOf,
         AfterCreateOrUpdate, Prepared, Up;
    ApplyReturns(ctx, w, script, o, pc, onboardingOk);
    var s := Planned(ctx, Prepared(ctx, o), pc, false).value.setup;
    CleanApplyIff(s, w, script);
    ReadyIff(ctx, w, script, o, pc, onboardingOk);
    if Applied(ctx, w, script, o, pc).Clean() {
      ReadyMeansUp(ctx, w, script, o, pc, onboardingOk);
    }
  }

  lemma {:induction false} FirstPendingIsFirst(resources: seq<ManagedResource>)
    ensures match FirstPending(resources)
            case None => AllReady(resources)
            case Some(r) => exists i :: 0 <= i < |resources| && resources[i] == r && r.phase != Ready
                                     && forall j :: 0 <= j < i ==> resources[j].phase == Ready
  {
    if resources != [] && resources[0].phase == Ready {
      var rest := resources[1..];
      FirstPendingIsFirst(rest);
      match FirstPending(rest) {
        case None =>
        case Some(r) =>
          var i :| 0 <= i < |rest| && rest[i] == r && r.phase != Ready && forall j :: 0 <= j < i ==> rest[j].phase == Ready;
          assert resources[i + 1] == r;
          assert forall j :: 0 < j < i + 1 ==> resources[j] == rest[j - 1];
      }
    }
  }

  /** Without failures, an instance that is not ready names the first resource that is not. */
  lemma PendingNamesTheFirst(ctx: Context, w: World, script: Script, o: Operator, pc: ProviderConfig, onboardingOk: bool)
    requires Instance.TwentyBytes(ctx.digest)
    requires IdInPlace(ctx, o, onboardingOk) && Planned(ctx, Prepared(ctx, o), pc, false).Ok?
    requires Applied(ctx, w, script, o, pc).Clean()
    ensures var status := AfterCreateOrUpdate(ctx, w, script, o, pc, onboardingOk).1.status;
            status.phase == ReadyPhase
            || exists i :: 0 <= i < |status.resources| && status.message == WaitingFor(status.resources[i])
                        && status.resources[i].phase != Ready
                        && forall j :: 0 <= j < i ==> status.resources[j].phase == Ready
  {
    hide Pass, Planned, ResourcesOf, FirstPending;
    var reports := Applied(ctx, w, script, o, pc).reports;
    FirstPendingIsFirst(ResourcesOf(reports, map[], |reports|));
  }

  lemma {:induction false} ReportsFollowObjects(w: World, script: Script, objs: seq<ManagedObject>, isDeletion: bool, n: nat)
    requires n <= |objs|
    ensures var reports := Visits(w, script, objs, isDeletion, n).1;
            |reports| == n && forall i :: 0 <= i < n ==> reports[i].managed == objs[i]
  {
    hide Visit;
    if n > 0 {
      ReportsFollowObjects(w, script, objs, isDeletion, n - 1);
      ReportNamesObject(Visits(w, script, objs, isDeletion, n - 1).0, script, objs[n - 1], objs, isDeletion);
    }
  }

  lemma ReportNamesObject(w: World, script: Script, o: ManagedObject, all: seq<ManagedObject>, isDeletion: bool)
    ensures Visit(w, script, o, all, isDeletion).1.managed == o
  {
    hide CheckForDependents, DependentsOf, Reconcile, Create, Update, Delete, Get;
  }

  /** The listed resources are the managed objects, in order and with all their particulars,
      followed by what cleaners failed to delete. */
  lemma ResourcesFollowObjects(ctx: Context, w: World, script: Script, o: Operator, pc: ProviderConfig, onboardingOk: bool)
    requires Instance.TwentyBytes(ctx.digest)
    requires IdInPlace(ctx, o, onboardingOk) && Planned(ctx, Prepared(ctx, o), pc, false).Ok?
    ensures var objs := Objects(Planned(ctx, Prepared(ctx, o), pc, false).value.setup);
            var reports := Applied(ctx, w, script, o, pc).reports;
            var resources := AfterCreateOrUpdate(ctx, w, script, o, pc, onboardingOk).1.status.resources;
            && |resources| == |reports| >= |objs|
            && (forall i :: 0 <= i < |objs| ==>
                  var key := objs[i].key;
                  && reports[i].managed == objs[i]
                  && resources[i] == ManagedResource(key.kind, key.name,
                                                     if key.namespace == "" then None else Some(key.namespace),
                                                     PhaseOf(objs[i].status, reports[i].seen), key.cluster))
            && (forall i :: |objs| <= i < |reports| ==>
                  reports[i].operation == DeletionFailed && resources[i] == ResourceOf(reports[i], map[]))
  {
    hide Planned, Visits, Cleanups, Objects, Cleaners, PhaseOf;
    var setup := Planned(ctx, Prepared(ctx, o), pc, false).value.setup;
    var objs, cleaners := Objects(setup), Cleaners(setup);
    ReportsFollowObjects(w, script, objs, false, |objs|);
    var (w1, reports) := Visits(w, script, objs, false, |objs|);
    TeardownProgress.CleanersReportFailures(w1, script, cleaners, |cleaners|);
    var more := Cleanups(w1, script, cleaners, |cleaners|).1;
    assert forall i :: 0 <= i < |more| ==> more[i] in more;
  }

  // ----- Deletion -----

  /** A deletion whose guard found user resources, or could not look, makes no call at all. */
  lemma GuardStopsDeletion(ctx: Context, w: World, script: Script, o: Operator, pc: ProviderConfig, answers: seq<Guard.Listing>)
    requires |answers| == |Guard.OTEL_LIST_KINDS|
    requires exists i :: 0 <= i < |answers| && (answers[i].Broken? || Guard.HasInstances(answers[i]))
    ensures var (w', o', r) := AfterDelete(ctx, w, script, o, pc, answers);
            w' == w && r != Finished
  {
    hide AfterRemoval;
    var at := Guard.BlockingIsExact(Guard.OTEL_LIST_KINDS, answers, |answers|);
    var i :| 0 <= i < |answers| && (answers[i].Broken? || Guard.HasInstances(answers[i]));
    if Guard.Blocking(Guard.OTEL_LIST_KINDS, answers, |answers|).Ok? {
      assert Guard.Seen(Guard.OTEL_LIST_KINDS, answers, |answers|, Guard.KindName(Guard.OTEL_LIST_KINDS[i]));
    }
  }

  /** A deletion finishes exactly when the guard lets it through and either the manager ran
      clean and reported everything deleted, or there was no version to build a manager from. */
  lemma DeletionFinishesIff(ctx: Context, w: World, script: Script, o: Operator, pc: ProviderConfig, answers: seq<Guard.Listing>)
    requires |answers| == |Guard.OTEL_LIST_KINDS|
    ensures AfterDelete(ctx, w, script, o, pc, answers).2 == Finished <==>
              && (forall i :: 0 <= i < |answers| ==> !answers[i].Broken? && !Guard.HasInstances(answers[i]))
              && match Planned(ctx, o, pc, true)
                 case Err(e) => e == VersionNotAvailable
                 case Ok(plan) =>
                   var outcome := Pass(w, script, Objects(plan.setup), Cleaners(plan.setup), true);
                   outcome.Clean() && AllDeleted(outcome.reports)
  {
    hide Pass, Objects, Cleaners, Guard.Blocking;
    if exists i :: 0 <= i < |answers| && (answers[i].Broken? || Guard.HasInstances(answers[i])) {
      GuardStopsDeletion(ctx, w, script, o, pc, answers);
    } else {
      NothingBlocks(answers);
      PlanIgnoresPhase(ctx, o, pc, o.(status := o.status.(phase := TerminatingPhase, message := NoMessage)));
    }
  }

  lemma NothingBlocks(answers: seq<Guard.Listing>)
    requires |answers| == |Guard.OTEL_LIST_KINDS|
    requires forall i :: 0 <= i < |answers| ==> !answers[i].Broken? && !Guard.HasInstances(answers[i])
    ensures Guard.Blocking(Guard.OTEL_LIST_KINDS, answers, |answers|) == Ok([])
  {
    hide Guard.Blocking;
    var at := Guard.BlockingIsExact(Guard.OTEL_LIST_KINDS, answers, |answers|);
    if Guard.Blocking(Guard.OTEL_LIST_KINDS, answers, |answers|) != Ok([]) {
      NamedKindsHaveInstances(answers);
    }
  }

  lemma NamedKindsHaveInstances(answers: seq<Guard.Listing>)
    requires |answers| == |Guard.OTEL_LIST_KINDS|
    requires Guard.Blocking(Guard.OTEL_LIST_KINDS, answers, |answers|).Ok?
    requires Guard.Blocking(Guard.OTEL_LIST_KINDS, answers, |answers|).value != []
    ensures exists i :: 0 <= i < |answers| && Guard.HasInstances(answers[i])
  {
    hide Guard.Blocking;
    var at := Guard.BlockingIsExact(Guard.OTEL_LIST_KINDS, answers, |answers|);
    var found := Guard.Blocking(Guard.OTEL_LIST_KINDS, answers, |answers|).value;
    assert Guard.FirstSeenAt(Guard.OTEL_LIST_KINDS, answers, found[0], at[0]);
  }

  lemma PlanIgnoresPhase(ctx: Context, o: Operator, pc: ProviderConfig, o': Operator)
    requires o' == o.(status := o'.status) && o'.status.installed == o.status.installed
    ensures Planned(ctx, o', pc, true) == Planned(ctx, o, pc, true)
  {
    hide Pipeline, Extract, Select, ChartSecretFor, AccessFor, CrdValues;
  }

  /** An undisturbed deletion whose guard finds nothing finishes exactly when nothing of the
      planned objects was left to delete. */
  lemma UndisturbedDeletionFinishesIff(ctx: Context, w: World, script: Script, o: Operator, pc: ProviderConfig,
                                       answers: seq<Guard.Listing>)
    requires |answers| == |Guard.OTEL_LIST_KINDS| && Quiet(script) && Planned(ctx, o, pc, true).Ok?
    requires forall i :: 0 <= i < |answers| ==> !answers[i].Broken? && !Guard.HasInstances(answers[i])
    ensures AfterDelete(ctx, w, script, o, pc, answers).2 == Finished <==>
              forall x :: x in Objects(Planned(ctx, o, pc, true).value.setup) ==> x.key !in w.store
  {
    hide AfterDelete, Pass, Objects, Cleaners, Planned, Quiet;
    var s := Planned(ctx, o, pc, true).value.setup;
    DeletionFinishesIff(ctx, w, script, o, pc, answers);
    GraphTheorems.GraphIsDeletable(s);
    TeardownProgress.CompletionReportedIff(Objects(s), Cleaners(s), w, script);
  }

  /** The version is offered, or was recorded: what a caller can check before a deletion. */
  predicate VersionKnown(o: Operator, pc: ProviderConfig) {
    Select(pc.versions, o.version, |pc.versions|).Some? || o.status.installed.Some?
  }

  /** A deletion lacks a version exactly when none is known. */
  lemma LacksVersionIff(ctx: Context, o: Operator, pc: ProviderConfig)
    ensures Planned(ctx, o, pc, true) == Err(VersionNotAvailable) <==>
              ctx.tenantNamespaceOf(o.name, o.namespace).Some? && !VersionKnown(o, pc)
  {
    hide Pipeline, Extract, Select, AccessFor, CrdValues, SetupFrom;
  }

  /** Without a known version a deletion whose guard is clear finishes at once and leaves everything
      as it is. */
  lemma UnplannedDeletionLeavesAll(ctx: Context, w: World, script: Script, o: Operator, pc: ProviderConfig,
                                   answers: seq<Guard.Listing>)
    requires |answers| == |Guard.OTEL_LIST_KINDS|
    requires forall i :: 0 <= i < |answers| ==> !answers[i].Broken? && !Guard.HasInstances(answers[i])
    requires ctx.tenantNamespaceOf(o.name, o.namespace).Some? && !VersionKnown(o, pc)
    ensures var (w', _, r) := AfterDelete(ctx, w, script, o, pc, answers);
            w' == w && r == Finished
  {
    hide Pass, Objects, Cleaners, Planned, SightedBy, ResourcesOf, Guard.Blocking;
    NothingBlocks(answers);
    LacksVersionIff(ctx, o, pc);
    PlanIgnoresPhase(ctx, o, pc, o.(status := o.status.(phase := TerminatingPhase, message := NoMessage)));
  }

  /** A finished deletion had a manager exactly when a version was known. */
  lemma FinishedDeletionHasPlanIff(ctx: Context, w: World, script: Script, o: Operator, pc: ProviderConfig,
                                   answers: seq<Guard.Listing>)
    requires |answers| == |Guard.OTEL_LIST_KINDS|
    requires AfterDelete(ctx, w, script, o, pc, answers).2 == Finished
    ensures Planned(ctx, o, pc, true).Ok? <==> VersionKnown(o, pc)
  {
    hide AfterDelete, Pass, Objects, Cleaners, Planned, VersionKnown;
    DeletionFinishesIff(ctx, w, script, o, pc, answers);
    LacksVersionIff(ctx, o, pc);
    PlannedHasVersion(ctx, o, pc);
  }

  lemma PlannedHasVersion(ctx: Context, o: Operator, pc: ProviderConfig)
    ensures Planned(ctx, o, pc, true).Ok? ==> VersionKnown(o, pc)
  {
    hide Pipeline, Extract, Select, ChartSecretFor, AccessFor, CrdValues, SetupFrom;
  }

  /** When a deletion that could build its manager finishes, nothing of the planned objects is
      left, nor any labelled copy in the swept namespaces. */
  lemma FinishedDeletionLeavesNothing(ctx: Context, w: World, script: Script, o: Operator, pc: ProviderConfig,
                                      answers: seq<Guard.Listing>)
    requires |answers| == |Guard.OTEL_LIST_KINDS|
    requires Planned(ctx, o, pc, true).Ok? && ListsFaithfully(script)
    requires var setup := Planned(ctx, o, pc, true).value.setup;
             TeardownProgress.OnlyWanes(script, Objects(setup), Cleaners(setup))
    requires var setup := Planned(ctx, o, pc, true).value.setup;
             forall c, k :: c in Cleaners(setup) && c.Covers(k) && k in w.store ==> !w.store[k].held
    requires AfterDelete(ctx, w, script, o, pc, answers).2 == Finished
    ensures var setup := Planned(ctx, o, pc, true).value.setup;
            var left := AfterDelete(ctx, w, script, o, pc, answers).0.store;
            && (forall x :: x in Objects(setup) ==> x.key !in left)
            && (forall c, k :: c in Cleaners(setup) && c.Covers(k) && k in left ==> !Labelled(left[k]))
  {
    hide Pass, Objects, Cleaners, Planned, TeardownProgress.OnlyWanes, ListsFaithfully, Guard.Blocking;
    DeletionFinishesIff(ctx, w, script, o, pc, answers);
    NothingBlocks(answers);
    PlanIgnoresPhase(ctx, o, pc, o.(status := o.status.(phase := TerminatingPhase, message := NoMessage)));
    GraphTheorems.CompletedTeardownLeavesNothing(Planned(ctx, o, pc, true).value.setup, w, script);
  }

  // ----- Names that must agree -----

  /** What is read from the final values is what the plan was made from. */
  lemma ReadAgain(ctx: Context, o: Operator, pc: ProviderConfig, forDelete: bool)
    requires Planned(ctx, o, pc, forDelete).Ok?
    ensures var setup := Planned(ctx, o, pc, forDelete).value.setup;
            && Extract(Some(setup.values)).Ok?
            && Extract(Some(setup.values)).value.imagePullSecrets == setup.pulls
            && setup.otelNamespace == (var override := Extract(Some(setup.values)).value.namespaceOverride;
                                       if override == "" then DEFAULT_NAMESPACE else override)
  {
    hide Pipeline, Extract;
    var inputs := PrepareInputs(ctx, o, pc, forDelete).value;
    HelmTheorems.ExtractionCommutes(inputs.version.helmValues, AccessFor(ctx), pc.caBundleRef);
  }

  /** The pull secrets copied to the instance namespace, and kept there by its cleaner beside the
      token secret, are the ones the final workload values name: all of them, in the same order. The
      control-plane namespace is the one the final values name, if they do. */
  lemma PullSecretsAgree(ctx: Context, o: Operator, pc: ProviderConfig, forDelete: bool)
    requires Planned(ctx, o, pc, forDelete).Ok?
    ensures var setup := Planned(ctx, o, pc, forDelete).value.setup;
            && (match At(setup.values, ["imagePullSecrets"])
                case Some(Arr(items)) =>
                  |setup.pulls| == |items| && forall i :: 0 <= i < |items| ==> NamedBy(items[i], setup.pulls[i])
                case _ => setup.pulls == [])
            && Cleaners(setup)[1].keep == setup.pulls + ["kube-api-access-otel-operator-server"]
            && (match At(setup.values, ["namespaceOverride"])
                case Some(Str(namespace)) =>
                  setup.otelNamespace == if namespace == "" then "opentelemetry-operator-system" else namespace
                case _ => setup.otelNamespace == "opentelemetry-operator-system")
  {
    hide Planned, Extract, At, NamedBy;
    ReadAgain(ctx, o, pc, forDelete);
    ExtractionIsExact(Some(Planned(ctx, o, pc, forDelete).value.setup.values));
  }

  /** CreateOrUpdate always works in the namespace generated for the instance; Delete does so
      exactly if the label still carries the generated identifier. */
  lemma WorksInGeneratedNamespace(ctx: Context, o: Operator, pc: ProviderConfig)
    requires Instance.TwentyBytes(ctx.digest)
    ensures var generated := Instance.NamespaceOf(Instance.GenerateId(ctx.digest, o.namespace, o.name));
            && (Planned(ctx, Prepared(ctx, o), pc, false).Ok? ==>
                  Planned(ctx, Prepared(ctx, o), pc, false).value.setup.workloadNamespace == generated)
            && (Planned(ctx, o, pc, true).Ok? ==>
                  (Planned(ctx, o, pc, true).value.setup.workloadNamespace == generated <==>
                     Instance.GetId(o.labels) == Instance.GenerateId(ctx.digest, o.namespace, o.name)))
  {
    hide Pipeline, Extract, Instance.GenerateId;
    var id, current := Instance.GenerateId(ctx.digest, o.namespace, o.name), Instance.GetId(o.labels);
    assert Instance.NamespaceOf(id)[|Instance.PREFIX|..] == id && Instance.NamespaceOf(current)[|Instance.PREFIX|..] == current;
  }

  // ----- The recorded version -----

  lemma {:induction false} SelectFindsTheFirst(versions: seq<KubeStackVersion>, requested: string, n: nat)
    requires n <= |versions|
    ensures match Select(versions, requested, n)
            case None => forall i :: 0 <= i < n ==> versions[i].version != requested
            case Some(v) => exists i :: 0 <= i < n && versions[i] == v && v.version == requested
                                     && forall j :: 0 <= j < i ==> versions[j].version != requested
  {
    if n > 0 {
      SelectFindsTheFirst(versions, requested, n - 1);
    }
  }

  datatype Event =
    | EditVersion(version: string)
    | EditConfig(pc: ProviderConfig)
    | ApplyEvent(onboardingOk: bool)
    | DeleteEvent(collectors: Guard.Listing, instrumentations: Guard.Listing, betaCollectors: Guard.Listing)

  datatype Life = Life(world: World, o: Operator, pc: ProviderConfig)

  /** What is read back at the next event: the labels change only if they could be saved. */
  function AfterEvent(ctx: Context, script: Script, life: Life, e: Event): Life
    requires Instance.TwentyBytes(ctx.digest)
  {
    match e
    case EditVersion(version) => life.(o := life.o.(version := version))
    case EditConfig(pc) => life.(pc := pc)
    case ApplyEvent(onboardingOk) =>
      var (w, o, _) := AfterCreateOrUpdate(ctx, life.world, script, life.o, life.pc, onboardingOk);
      Life(w, if IdInPlace(ctx, life.o, onboardingOk) then o else o.(labels := life.o.labels), life.pc)
    case DeleteEvent(a, b, c) =>
      var (w, o, _) := AfterDelete(ctx, life.world, script, life.o, life.pc, [a, b, c]);
      Life(w, o, life.pc)
  }

  /** The life of an instance after the first `n` events. */
  function Lived(ctx: Context, script: Script, start: Life, events: seq<Event>, n: nat): Life
    requires n <= |events| && Instance.TwentyBytes(ctx.digest)
  {
    if n == 0 then start else AfterEvent(ctx, script, Lived(ctx, script, start, events, n - 1), events[n - 1])
  }

  /** The event is an Apply without any object or cleaner error. */
  ghost predicate Installs(ctx: Context, script: Script, life: Life, e: Event)
    requires Instance.TwentyBytes(ctx.digest)
  {
    && e.ApplyEvent? && IdInPlace(ctx, life.o, e.onboardingOk)
    && Planned(ctx, Prepared(ctx, life.o), life.pc, false).Ok?
    && Applied(ctx, life.world, script, life.o, life.pc).Clean()
  }

  /** The configuration offered for the requested version. */
  function Offered(life: Life): Option<KubeStackVersion> {
    Select(life.pc.versions, life.o.version, |life.pc.versions|)
  }

  /** One event records the offered configuration if it installs, and nothing otherwise. */
  lemma EventRecords(ctx: Context, script: Script, life: Life, e: Event)
    requires Instance.TwentyBytes(ctx.digest)
    ensures AfterEvent(ctx, script, life, e).o.status.installed
         == if Installs(ctx, script, life, e) then Offered(life) else life.o.status.installed
  {
    hide Pass, Extract, Pipeline, ChartSecretFor, SetupFrom, AllReady, Guard.Blocking, SightedBy, ResourcesOf, Objects, Cleaners;
  }

  /** What is recorded is the configuration of the last installing event, if there was one. */
  ghost predicate RecordIsRight(ctx: Context, script: Script, start: Life, events: seq<Event>, n: nat,
                                installed: Option<KubeStackVersion>)
    requires Instance.TwentyBytes(ctx.digest) && n <= |events|
  {
    match installed
    case None => forall i :: 0 <= i < n ==> !Installs(ctx, script, Lived(ctx, script, start, events, i), events[i])
    case Some(v) => exists i :: LastInstalledAt(ctx, script, start, events, n, i, v)
  }

  /** Over every life, the recorded version is exactly the configuration of the last Apply
      without errors, and nothing is recorded before the first. */
  lemma {:induction false} RecordedIsLastInstalled(ctx: Context, script: Script, start: Life, events: seq<Event>, n: nat)
    requires Instance.TwentyBytes(ctx.digest) && n <= |events| && start.o.status.installed == None
    ensures RecordIsRight(ctx, script, start, events, n, Lived(ctx, script, start, events, n).o.status.installed)
  {
    hide AfterEvent, Installs, Offered, Prepared, LastInstalledAt;
    if n > 0 {
      RecordedIsLastInstalled(ctx, script, start, events, n - 1);
      hide RecordIsRight;
      var before := Lived(ctx, script, start, events, n - 1);
      EventRecords(ctx, script, before, events[n - 1]);
      RecordStep(ctx, script, start, events, n, before.o.status.installed);
    }
  }

  lemma RecordStep(ctx: Context, script: Script, start: Life, events: seq<Event>, n: nat, installed: Option<KubeStackVersion>)
    requires Instance.TwentyBytes(ctx.digest) && 0 < n <= |events|
    requires RecordIsRight(ctx, script, start, events, n - 1, installed)
    ensures var before := Lived(ctx, script, start, events, n - 1);
            RecordIsRight(ctx, script, start, events, n,
                          if Installs(ctx, script, before, events[n - 1]) then Offered(before) else installed)
  {
    hide AfterEvent, Installs, Offered, Lived;
    var before := Lived(ctx, script, start, events, n - 1);
    if Installs(ctx, script, before, events[n - 1]) {
      InstallingIsOffered(ctx, script, before, events[n - 1]);
      assert LastInstalledAt(ctx, script, start, events, n, n - 1, Offered(before).value);
    } else if installed.Some? {
      var i :| LastInstalledAt(ctx, script, start, events, n - 1, i, installed.value);
      assert LastInstalledAt(ctx, script, start, events, n, i, installed.value);
    }
  }

  lemma InstallingIsOffered(ctx: Context, script: Script, life: Life, e: Event)
    requires Instance.TwentyBytes(ctx.digest) && Installs(ctx, script, life, e)
    ensures Offered(life).Some?
  {
    hide Pass, Extract, Pipeline, ChartSecretFor, SetupFrom;
  }

  ghost predicate LastInstalledAt(ctx: Context, script: Script, start: Life, events: seq<Event>, n: nat, i: int,
                                  v: KubeStackVersion)
    requires Instance.TwentyBytes(ctx.digest) && n <= |events|
  {
    && 0 <= i < n
    && Installs(ctx, script, Lived(ctx, script, start, events, i), events[i])
    && Offered(Lived(ctx, script, start, events, i)) == Some(v)
    && forall j :: i < j < n ==> !Installs(ctx, script, Lived(ctx, script, start, events, j), events[j])
  }

  /** Once an Apply went through without errors, selecting a version for deletion never fails
      again, whatever is edited; selecting one for Apply never looks at the record. */
  lemma DeletionAlwaysFindsAVersion(ctx: Context, script: Script, start: Life, events: seq<Event>, n: nat, i: nat)
    requires Instance.TwentyBytes(ctx.digest) && i < n <= |events| && start.o.status.installed == None
    requires Installs(ctx, script, Lived(ctx, script, start, events, i), events[i])
    ensures var life := Lived(ctx, script, start, events, n);
            && life.o.status.installed.Some?
            && (PrepareInputs(ctx, life.o, life.pc, true).Err? ==>
                  PrepareInputs(ctx, life.o, life.pc, true).error == NoTenantNamespace)
            && (PrepareInputs(ctx, life.o, life.pc, false).Ok? ==>
                  Offered(life) == Some(PrepareInputs(ctx, life.o, life.pc, false).value.version))
            && (Offered(life).None? && ctx.tenantNamespaceOf(life.o.name, life.o.namespace).Some? ==>
                  PrepareInputs(ctx, life.o, life.pc, false) == Err(VersionNotAvailable))
  {
    hide Lived, Installs;
    RecordedIsLastInstalled(ctx, script, start, events, n);
  }

  // ----- What an installation amounts to -----

  /** A pull secret holds what its source held. */
  ghost predicate CopiedFrom(source: Key, before: Store, target: Key, after: Store) {
    && source in before && target in after
    && (before[source].payload.Content? ==>
          after[target].payload == Content(before[source].payload.data, "kubernetes.io/dockerconfigjson"))
  }

  /** The chart is fetched from the configured place at the version without its leading v, with the
      pull secret if one is configured. */
  ghost predicate ChartSourceInstalled(s: Setup, store: Store, name: string) {
    var r := ContentAt(store, Key(s.platform, OCIRepository, s.tenantNamespace, name));
    && r.Repository? && s.chartUrl == Some(r.url) && r.interval == s.poll
    && (if "v" <= s.version then s.version == "v" + r.tag else r.tag == s.version)
    && (match s.chart
        case None => r.pullSecret == None
        case Some(chart) =>
          r.pullSecret == Some(chart.target) && Key(s.platform, Secret, s.tenantNamespace, chart.target) in store)
  }

  /** The CRD release: its chart values install the CRDs, in the control plane namespace, which
      exists, through the control plane's access secret. */
  ghost predicate CrdReleaseInstalled(ctx: Context, s: Setup, store: Store, name: string) {
    var r := ContentAt(store, Key(s.platform, HelmRelease, s.tenantNamespace, name));
    && r.Release? && r.kubeConfigSecret == ctx.cpAccessSecret
    && At(r.values, ["crds", "installOtel"]) == Some(Bool(true))
    && At(r.values, [OPERATOR, "enabled"]) == Some(Bool(false))
    && Key(ctx.cp, Namespace, "", r.targetNamespace) in store
    && Key(ctx.cp, ServiceAccount, r.targetNamespace, SERVICE_ACCOUNT) in store
  }

  /** The workload release: its chart values run the operator without CRDs, and everything the
      release names is there: its namespace, the pull secrets with the content of their sources,
      the token secret, the CA bundle, the chart source and the CRD release. */
  ghost predicate WorkloadReleaseInstalled(ctx: Context, s: Setup, before: Store, store: Store) {
    var r := ContentAt(store, Key(s.platform, HelmRelease, s.tenantNamespace, s.name + "-workload"));
    && r.Release? && r.kubeConfigSecret == ctx.workloadAccessSecret
    && At(r.values, [OPERATOR, "enabled"]) == Some(Bool(true))
    && At(r.values, ["crds", "installOtel"]) == Some(Bool(false))
    && Key(ctx.workload, Namespace, "", r.targetNamespace) in store
    && (match At(r.values, ["imagePullSecrets"])
        case Some(Arr(items)) =>
          forall j, n :: j in items && NamedBy(j, n) ==>
            CopiedFrom(Key(ctx.platform, Secret, ctx.podNamespace, n), before,
                       Key(ctx.workload, Secret, r.targetNamespace, n), store)
        case _ => true)
    && (forall n :: CpAccess(n) in r.renderers ==> Key(ctx.workload, Secret, r.targetNamespace, n) in store)
    && (forall k :: CaVolume(k) in r.renderers ==> Key(ctx.workload, ConfigMap, r.targetNamespace, CA_CONFIG_MAP) in store)
    && ChartSourceInstalled(s, store, r.chartRef)
    && (forall d :: d in r.dependsOn ==> CrdReleaseInstalled(ctx, s, store, d))
    && r.dependsOn != [] && r.renderers != []
  }

  lemma StoredAsWanted(s: Setup, w: World, script: Script, x: ManagedObject)
    requires Sane(s) && Silent(script) && ListsFaithfully(script)
    requires Pass(w, script, Objects(s), Cleaners(s), false).Clean()
    requires GraphTheorems.IsObject(s, x)
    ensures var after := Pass(w, script, Objects(s), Cleaners(s), false).world.store;
            && x.key in after
            && (x.recipe.Overwrite? ==> after[x.key].payload == x.recipe.payload)
            && !x.recipe.Reject?
            && (x.recipe.CopyOf? ==>
                  && x.recipe.source in w.store
                  && ApplyConvergence.HoldsCopy(after[x.key].payload, w.store[x.recipe.source].payload, x.recipe.contentType))
  {
    hide Pass, Objects, Cleaners, Silent, ListsFaithfully, KeyedApart, ApplyConvergence.SourcesApart, GraphTheorems.IsObject;
    GraphTheorems.GraphIsWellPosed(s);
    GraphTheorems.GraphSourcesApart(s);
    GraphTheorems.Members(s, x);
    ApplyConvergence.ApplyConverges(Objects(s), Cleaners(s), w, script);
    assert ApplyConvergence.Converged(x, script, w.store, Pass(w, script, Objects(s), Cleaners(s), false).world.store);
  }

  /** After an undisturbed CreateOrUpdate whose Apply was clean, both releases are stored with
      the values prepared for them, and everything they refer to is in place. */
  lemma CleanApplyInstalls(ctx: Context, w: World, script: Script, o: Operator, pc: ProviderConfig)
    requires Instance.TwentyBytes(ctx.digest) && Silent(script) && ListsFaithfully(script)
    requires Planned(ctx, Prepared(ctx, o), pc, false).Ok?
    requires Sane(Planned(ctx, Prepared(ctx, o), pc, false).value.setup)
    requires Applied(ctx, w, script, o, pc).Clean()
    ensures WorkloadReleaseInstalled(ctx, Planned(ctx, Prepared(ctx, o), pc, false).value.setup, w.store,
                                     Applied(ctx, w, script, o, pc).world.store)
  {
    hide Pass, Objects, Cleaners, Silent, ListsFaithfully, Planned, Extract, At, Sane, CrdReleaseInstalled, WorkloadReleaseInstalled;
    var o' := Prepared(ctx, o);
    PlanFacts(ctx, o', pc);
    ReadAgain(ctx, o', pc, false);
    WorkloadReleaseFacts(ctx, Planned(ctx, o', pc, false).value.setup, w, script);
  }

  lemma WorkloadReleaseFacts(ctx: Context, s: Setup, w: World, script: Script)
    requires Sane(s) && Silent(script) && ListsFaithfully(script)
    requires Pass(w, script, Objects(s), Cleaners(s), false).Clean()
    requires PlannedFor(ctx, s)
    requires Extract(Some(s.values)).Ok? && Extract(Some(s.values)).value.imagePullSecrets == s.pulls
    ensures WorkloadReleaseInstalled(ctx, s, w.store, Pass(w, script, Objects(s), Cleaners(s), false).world.store)
  {
    hide Pass, Objects, Cleaners, Silent, ListsFaithfully, Extract, At, CrdReleaseInstalled, ChartSourceInstalled, CopiedFrom,
         NamedBy, Sane;
    CrdReleaseFacts(ctx, s, w, script);
    ChartSourceFacts(s, w, script);
    StoredAsWanted(s, w, script, WorkloadRelease(s));
    StoredAsWanted(s, w, script, WorkloadNamespace(s));
    StoredAsWanted(s, w, script, TokenSecret(s));
    if s.ca.Some? {
      assert GraphTheorems.IsCopy(s, CaConfigMap(s, s.ca.value));
      StoredAsWanted(s, w, script, CaConfigMap(s, s.ca.value));
    }
    ExtractionIsExact(Some(s.values));
    var after := Pass(w, script, Objects(s), Cleaners(s), false).world.store;
    match At(s.values, ["imagePullSecrets"]) {
      case Some(Arr(items)) =>
        forall j, n | j in items && NamedBy(j, n)
          ensures CopiedFrom(Key(ctx.platform, Secret, ctx.podNamespace, n), w.store,
                             Key(ctx.workload, Secret, s.workloadNamespace, n), after)
        {
          var i :| 0 <= i < |items| && items[i] == j;
          OneNameOnly(j, n, s.pulls[i]);
          PullSecretCopied(s, w, script, n);
        }
      case _ =>
    }
  }

  lemma OneNameOnly(j: Json, a: string, b: string)
    requires NamedBy(j, a) && NamedBy(j, b)
    ensures a == b
  {
  }

  lemma PullSecretCopied(s: Setup, w: World, script: Script, name: string)
    requires Sane(s) && Silent(script) && ListsFaithfully(script) && name in s.pulls
    requires Pass(w, script, Objects(s), Cleaners(s), false).Clean()
    ensures CopiedFrom(Key(s.platform, Secret, s.podNamespace, name), w.store, Key(s.workload, Secret, s.workloadNamespace, name),
                       Pass(w, script, Objects(s), Cleaners(s), false).world.store)
  {
    hide Pass, Objects, Cleaners, Silent, ListsFaithfully, Sane;
    assert GraphTheorems.IsCopy(s, PullSecret(s, name));
    StoredAsWanted(s, w, script, PullSecret(s, name));
  }

  lemma ChartSourceFacts(s: Setup, w: World, script: Script)
    requires Sane(s) && Silent(script) && ListsFaithfully(script)
    requires Pass(w, script, Objects(s), Cleaners(s), false).Clean()
    ensures ChartSourceInstalled(s, Pass(w, script, Objects(s), Cleaners(s), false).world.store, s.name)
  {
    hide Pass, Objects, Cleaners, Silent, ListsFaithfully, Sane;
    StoredAsWanted(s, w, script, ChartRepository(s));
    if s.chart.Some? {
      assert GraphTheorems.IsCopy(s, ChartPullSecret(s, s.chart.value));
      StoredAsWanted(s, w, script, ChartPullSecret(s, s.chart.value));
    }
    assert "v" <= s.version ==> s.version == "v" + s.version[1..];
  }

  /** The setup was made for this context, with these chart values. */
  ghost predicate PlannedFor(ctx: Context, s: Setup) {
    && s.cp == ctx.cp && s.workload == ctx.workload && s.platform == ctx.platform && s.podNamespace == ctx.podNamespace
    && s.cpAccessSecret == ctx.cpAccessSecret && s.workloadAccessSecret == ctx.workloadAccessSecret
    && At(s.values, [OPERATOR, "enabled"]) == Some(Bool(true))
    && At(s.values, ["crds", "installOtel"]) == Some(Bool(false))
    && At(s.crdValues, ["crds", "installOtel"]) == Some(Bool(true))
    && At(s.crdValues, [OPERATOR, "enabled"]) == Some(Bool(false))
  }

  /** What a plan takes from the context and the prepared values. */
  lemma PlanFacts(ctx: Context, o: Operator, pc: ProviderConfig)
    requires Planned(ctx, o, pc, false).Ok?
    ensures PlannedFor(ctx, Planned(ctx, o, pc, false).value.setup)
  {
    hide Pipeline, Extract, At, CrdValues;
    var inputs := PrepareInputs(ctx, o, pc, false).value;
    HelmTheorems.PipelineEnforces(inputs.version.helmValues, AccessFor(ctx), pc.caBundleRef);
    HelmTheorems.CrdValuesEnforce(inputs.version.helmValues);
  }

  lemma CrdReleaseFacts(ctx: Context, s: Setup, w: World, script: Script)
    requires Sane(s) && Silent(script) && ListsFaithfully(script)
    requires Pass(w, script, Objects(s), Cleaners(s), false).Clean()
    requires PlannedFor(ctx, s)
    ensures CrdReleaseInstalled(ctx, s, Pass(w, script, Objects(s), Cleaners(s), false).world.store, s.name + "-crds")
  {
    hide Pass, Objects, Cleaners, Silent, ListsFaithfully, At, Sane;
    StoredAsWanted(s, w, script, CrdRelease(s));
    StoredAsWanted(s, w, script, CpNamespace(s));
    StoredAsWanted(s, w, script, CpServiceAccount(s));
  }
}
