/** Every way a CreateOrUpdate or a Delete can end: what it returns, and the status it leaves. */
module ControllerPaths {
  import opened Wrappers
  import opened Cluster
  import opened Managed
  import opened Manager
  import opened TeardownSafety
  import opened TeardownSightings
  import opened ApplyOutcome
  import ApplyConvergence
  import opened HelmValues
  import opened Graph
  import opened Controller
  import opened ControllerTheorems
  import opened PlanContents
  import GraphTheorems
  import TeardownProgress
  import Instance
  import Guard

  // ----- The guard's answer -----

  predicate Has(a: Guard.Listing) {
    a.Items? && a.count >= 1
  }

  lemma KindNames()
    ensures Guard.KindName(Guard.OTEL_LIST_KINDS[0]) == Guard.KindName(Guard.OTEL_LIST_KINDS[2]) == "OpenTelemetryCollector"
    ensures Guard.KindName(Guard.OTEL_LIST_KINDS[1]) == "Instrumentation"
  {
    var collectors, instrumentations := "OpenTelemetryCollectorList", "InstrumentationList";
    assert collectors[|collectors| - 4..] == "List" && collectors[..|collectors| - 4] == "OpenTelemetryCollector";
    assert instrumentations[|instrumentations| - 4..] == "List" && instrumentations[..|instrumentations| - 4] == "Instrumentation";
  }

  /** One listing more. */
  lemma NextListing(kinds: seq<Guard.ListKind>, answers: seq<Guard.Listing>, n: nat, found: seq<string>, kind: string)
    requires n < |kinds| == |answers| && kind == Guard.KindName(kinds[n])
    requires Guard.Blocking(kinds, answers, n) == Ok(found) && !answers[n].Broken?
    ensures Guard.Blocking(kinds, answers, n + 1) == Ok(if Has(answers[n]) && kind !in found then found + [kind] else found)
  {
    hide Guard.KindName;
  }

  lemma FirstListing(kinds: seq<Guard.ListKind>, answers: seq<Guard.Listing>)
    requires |kinds| == |answers|
    ensures Guard.Blocking(kinds, answers, 0) == Ok([])
  {
  }

  /** The listings are of collectors, instrumentations and, in a second version, collectors again. A
      kind with instances is named once, where it is first seen. */
  function Named(answers: seq<Guard.Listing>): seq<string>
    requires |answers| == 3
  {
    if Has(answers[0]) && Has(answers[1]) then ["OpenTelemetryCollector", "Instrumentation"]
    else if Has(answers[0]) then ["OpenTelemetryCollector"]
    else if Has(answers[1]) && Has(answers[2]) then ["Instrumentation", "OpenTelemetryCollector"]
    else if Has(answers[1]) then ["Instrumentation"]
    else if Has(answers[2]) then ["OpenTelemetryCollector"]
    else []
  }

  /** The same for any two kinds in their place. */
  lemma KindsAreNamed(kinds: seq<Guard.ListKind>, answers: seq<Guard.Listing>, a: string, b: string)
    requires |kinds| == |answers| == 3 && a != b
    requires Guard.KindName(kinds[0]) == a && Guard.KindName(kinds[1]) == b && Guard.KindName(kinds[2]) == a
    requires !answers[0].Broken? && !answers[1].Broken? && !answers[2].Broken?
    ensures Guard.Blocking(kinds, answers, 3)
         == Ok(if Has(answers[0]) && Has(answers[1]) then [a, b]
               else if Has(answers[0]) then [a]
               else if Has(answers[1]) && Has(answers[2]) then [b, a]
               else if Has(answers[1]) then [b]
               else if Has(answers[2]) then [a]
               else [])
  {
    hide Guard.Blocking, Guard.KindName, Has;
    FirstListing(kinds, answers);
    NextListing(kinds, answers, 0, [], a);
    var one := if Has(answers[0]) then [a] else [];
    assert [] + [a] == [a] && [] + [b] == [b] && [a] + [b] == [a, b] && [b] + [a] == [b, a];
    NextListing(kinds, answers, 1, one, b);
    var two := if Has(answers[1]) then one + [b] else one;
    NextListing(kinds, answers, 2, two, a);
  }

  lemma GuardNames(answers: seq<Guard.Listing>)
    requires |answers| == |Guard.OTEL_LIST_KINDS|
    requires !answers[0].Broken? && !answers[1].Broken? && !answers[2].Broken?
    ensures Guard.Blocking(Guard.OTEL_LIST_KINDS, answers, 3) == Ok(Named(answers))
  {
    hide Guard.Blocking, Guard.KindName, Has;
    KindNames();
    assert "OpenTelemetryCollector"[0] != "Instrumentation"[0];
    KindsAreNamed(Guard.OTEL_LIST_KINDS, answers, "OpenTelemetryCollector", "Instrumentation");
  }

  /** The first listing that failed, by the kind it asked for. */
  function FailedKind(answers: seq<Guard.Listing>): string
    requires |answers| == 3
  {
    if answers[0].Broken? then "OpenTelemetryCollectorList"
    else if answers[1].Broken? then "InstrumentationList"
    else "OpenTelemetryCollectorList"
  }

  lemma GuardFails(answers: seq<Guard.Listing>)
    requires |answers| == |Guard.OTEL_LIST_KINDS|
    requires answers[0].Broken? || answers[1].Broken? || answers[2].Broken?
    ensures Guard.Blocking(Guard.OTEL_LIST_KINDS, answers, 3) == Err(FailedKind(answers))
  {
    FirstListing(Guard.OTEL_LIST_KINDS, answers);
    assert Guard.Blocking(Guard.OTEL_LIST_KINDS, answers, 1).Ok? <==> !answers[0].Broken?;
    assert Guard.Blocking(Guard.OTEL_LIST_KINDS, answers, 2).Ok? <==> !answers[0].Broken? && !answers[1].Broken?;
  }

  // ----- A deletion that does not get to delete -----

  /** User resources hold the deletion back: the status says Terminating and names exactly the kinds
      that still have instances, and the deletion is tried again. */
  lemma DeletionIsHeldBack(ctx: Context, w: World, script: Script, o: Operator, pc: ProviderConfig, answers: seq<Guard.Listing>)
    requires |answers| == |Guard.OTEL_LIST_KINDS|
    requires !answers[0].Broken? && !answers[1].Broken? && !answers[2].Broken?
    requires Has(answers[0]) || Has(answers[1]) || Has(answers[2])
    ensures AfterDelete(ctx, w, script, o, pc, answers)
         == (w,
             o.(status := Status(TerminatingPhase, UserResourcesExist(Named(answers)), o.status.resources, o.status.installed)),
             Requeue)
  {
    hide Guard.Blocking, AfterRemoval;
    GuardNames(answers);
  }

  /** A listing that fails otherwise than for an unknown kind ends the deletion with its error. */
  lemma DeletionCannotLook(ctx: Context, w: World, script: Script, o: Operator, pc: ProviderConfig, answers: seq<Guard.Listing>)
    requires |answers| == |Guard.OTEL_LIST_KINDS|
    requires answers[0].Broken? || answers[1].Broken? || answers[2].Broken?
    ensures var e := GuardFailed(FailedKind(answers));
            AfterDelete(ctx, w, script, o, pc, answers)
              == (w, o.(status := Status(ProgressingPhase, FailedWith(e), o.status.resources, o.status.installed)), Returned(e))
  {
    hide Guard.Blocking, AfterRemoval;
    GuardFails(answers);
  }

  /** Nothing is in the way of the deletion. */
  predicate Clear(answers: seq<Guard.Listing>)
    requires |answers| == 3
  {
    forall i :: 0 <= i < 3 ==> !answers[i].Broken? && !Has(answers[i])
  }

  lemma ClearMeansNothingNamed(answers: seq<Guard.Listing>)
    requires |answers| == |Guard.OTEL_LIST_KINDS| && Clear(answers)
    ensures Guard.Blocking(Guard.OTEL_LIST_KINDS, answers, 3) == Ok([])
  {
    hide Guard.Blocking;
    GuardNames(answers);
  }

  /** Without a plan nothing is deleted: the planning error is in the status, and it is returned
      unless it says that the version is not available. */
  lemma DeletionIsNotPlanned(ctx: Context, w: World, script: Script, o: Operator, pc: ProviderConfig, answers: seq<Guard.Listing>)
    requires |answers| == |Guard.OTEL_LIST_KINDS| && Clear(answers) && Planned(ctx, o, pc, true).Err?
    ensures var e := Planned(ctx, o, pc, true).error;
            AfterDelete(ctx, w, script, o, pc, answers)
              == (w, o.(status := Status(ProgressingPhase, FailedWith(e), o.status.resources, o.status.installed)),
                  if e.VersionNotAvailable? then Finished else Returned(e))
  {
    hide Guard.Blocking, Pass, Planned, Objects, Cleaners, SightedBy;
    ClearMeansNothingNamed(answers);
    PlanIgnoresPhase(ctx, o, pc, o.(status := o.status.(phase := TerminatingPhase, message := NoMessage)));
  }

  // ----- What is listed -----

  /** The phase shown for an object of a kind that was last seen like this, or not at all. */
  predicate Shows(kind: Kind, seen: Option<Stored>, phase: Phase) {
    match phase
    case Pending => seen.None? || (!seen.value.terminating && kind in {OCIRepository, HelmRelease} && !seen.value.ready)
    case Terminating => seen.Some? && seen.value.terminating
    case Ready => seen.Some? && !seen.value.terminating && (kind in {OCIRepository, HelmRelease} ==> seen.value.ready)
    case Failed => false
    case Unknown => false
  }

  /** The resource stands for the object under the key. */
  predicate StandsFor(r: ManagedResource, k: Key) {
    && r.kind == k.kind && r.name == k.name && r.cluster == k.cluster
    && (if |k.namespace| == 0 then r.namespace.None? else r.namespace == Some(k.namespace))
  }

  lemma StatusFollowsKind(s: Setup, o: ManagedObject)
    requires o in Objects(s)
    ensures o.status == if o.key.kind in {OCIRepository, HelmRelease} then Flux else Simple
  {
    hide Objects;
    GraphTheorems.Members(s, o);
  }

  lemma PhaseIsShown(kind: Kind, status: StatusKind, seen: Option<Stored>)
    requires status == if kind in {OCIRepository, HelmRelease} then Flux else Simple
    ensures Shows(kind, seen, PhaseOf(status, seen))
  {
  }

  /** A leftover that a cleaner could not delete: a ConfigMap or Secret that is not wanted, listed as
      failed if it is a ConfigMap, and as terminating if it is a Secret. */
  ghost predicate ListsLeftover(s: Setup, r: ManagedResource) {
    exists k: Key ::
      && StandsFor(r, k)
      && r.phase == (if k.kind == ConfigMap then Failed else Terminating)
      && (|| (k == Key(s.workload, ConfigMap, s.workloadNamespace, k.name) && !(s.ca.Some? && k.name == "custom-ca-bundle"))
          || (k == Key(s.workload, Secret, s.workloadNamespace, k.name)
              && k.name !in s.pulls && k.name != "kube-api-access-otel-operator-server")
          || (k == Key(s.platform, Secret, s.tenantNamespace, k.name) && !(s.chart.Some? && k.name == s.chart.value.target)))
  }

  /** The report is a cleaner's, about a key it removes. */
  ghost predicate FromCleaner(cleaners: seq<Cleaner>, r: Report) {
    exists c, k :: c in cleaners && c.Removes(k) && r == c.FailureReport(k)
  }

  lemma {:induction false} SweepReportsItems(w: World, script: Script, c: Cleaner, items: seq<Key>, n: nat)
    requires n <= |items|
    ensures forall r :: r in SweepItems(w, script, c, items, n).1 ==>
              exists k :: k in items && k.name !in c.keep && r == c.FailureReport(k)
  {
    hide Delete;
    if n > 0 {
      SweepReportsItems(w, script, c, items, n - 1);
      assert items[n - 1] in items;
    }
  }

  lemma {:induction false} CleanersReportLeftovers(w: World, script: Script, cleaners: seq<Cleaner>, n: nat)
    requires n <= |cleaners| && ListsFaithfully(script)
    ensures forall r :: r in Cleanups(w, script, cleaners, n).1 ==> FromCleaner(cleaners, r)
  {
    hide SweepItems, ListsFaithfully, FromCleaner;
    if n > 0 {
      CleanersReportLeftovers(w, script, cleaners, n - 1);
      CleanerReportsLeftovers(Cleanups(w, script, cleaners, n - 1).0, script, cleaners, cleaners[n - 1]);
    }
  }

  lemma CleanerReportsLeftovers(w: World, script: Script, cleaners: seq<Cleaner>, c: Cleaner)
    requires c in cleaners && ListsFaithfully(script)
    ensures forall r :: r in Cleanup(w, script, c).1 ==> FromCleaner(cleaners, r)
  {
    hide SweepItems, ListsFaithfully;
    ListedAreCovered(w, script, c);
    var (w1, reply) := List(w, script, c.cluster, c.kind, c.namespace);
    if reply.Listed? {
      SweepReportsItems(w1, script, c, reply.keys, |reply.keys|);
    }
  }

  lemma LeftoverIsListed(s: Setup, r: Report, sighted: Sightings)
    requires FromCleaner(Cleaners(s), r)
    ensures ListsLeftover(s, ResourceOf(r, sighted))
  {
    var c, k :| c in Cleaners(s) && c.Removes(k) && r == c.FailureReport(k);
    assert StandsFor(ResourceOf(r, sighted), k);
  }

  /** The listed resources are the objects in order, each with the state it was last seen in, and
      after them the leftovers that could not be deleted. */
  ghost predicate Lists(s: Setup, resources: seq<ManagedResource>, seen: seq<Option<Stored>>) {
    && |seen| == |Objects(s)| <= |resources|
    && (forall i :: 0 <= i < |seen| ==>
          && StandsFor(resources[i], Objects(s)[i].key)
          && Shows(Objects(s)[i].key.kind, seen[i], resources[i].phase))
    && (forall i :: |seen| <= i < |resources| ==> ListsLeftover(s, resources[i]))
  }

  /** What a pass has seen of the objects when it ends. */
  ghost function SeenBy(w: World, script: Script, objs: seq<ManagedObject>, isDeletion: bool): seq<Option<Stored>> {
    var reports := Visits(w, script, objs, isDeletion, |objs|).1;
    var sighted := SightedBy(w, script, objs, isDeletion, |objs|, map[]);
    seq(|objs|, i requires 0 <= i < |objs| =>
      if isDeletion then if objs[i] in sighted then Some(sighted[objs[i]]) else None
      else if i < |reports| then reports[i].seen else None)
  }

  lemma DeletionsSeeNothing(w: World, script: Script, o: ManagedObject, all: seq<ManagedObject>)
    ensures Visit(w, script, o, all, true).1.seen == None
  {
    hide CheckForDependents, DependentsOf, Delete;
  }

  lemma {:induction false} ReportsOfDeletionsShowNothing(w: World, script: Script, objs: seq<ManagedObject>, n: nat)
    requires n <= |objs|
    ensures var reports := Visits(w, script, objs, true, n).1;
            |reports| == n && forall i :: 0 <= i < n ==> reports[i].seen == None
  {
    hide Visit;
    if n > 0 {
      ReportsOfDeletionsShowNothing(w, script, objs, n - 1);
      DeletionsSeeNothing(Visits(w, script, objs, true, n - 1).0, script, objs[n - 1], objs);
    }
  }

  lemma NothingSighted(w: World, script: Script, objs: seq<ManagedObject>)
    ensures SightedBy(w, script, objs, false, |objs|, map[]) == map[]
  {
  }

  /** The resources made from the reports of a pass are those lists. */
  lemma PassLists(s: Setup, w: World, script: Script, isDeletion: bool)
    requires ListsFaithfully(script)
    ensures var objs := Objects(s);
            var reports := Pass(w, script, objs, Cleaners(s), isDeletion).reports;
            var sighted := SightedBy(w, script, objs, isDeletion, |objs|, map[]);
            Lists(s, ResourcesOf(reports, sighted, |reports|), SeenBy(w, script, objs, isDeletion))
  {
    hide Objects, Cleaners, Visits, Cleanups, ListsFaithfully, SightedBy, PhaseOf, FromCleaner, ListsLeftover, Shows;
    var objs := Objects(s);
    var (w1, visited) := Visits(w, script, objs, isDeletion, |objs|);
    var more := Cleanups(w1, script, Cleaners(s), |Cleaners(s)|).1;
    var sighted := SightedBy(w, script, objs, isDeletion, |objs|, map[]);
    var reports := visited + more;
    ReportsFollowObjects(w, script, objs, isDeletion, |objs|);
    CleanersReportLeftovers(w1, script, Cleaners(s), |Cleaners(s)|);
    if isDeletion {
      ReportsOfDeletionsShowNothing(w, script, objs, |objs|);
    } else {
      NothingSighted(w, script, objs);
    }
    var seen := SeenBy(w, script, objs, isDeletion);
    forall i | 0 <= i < |objs|
      ensures StandsFor(ResourceOf(reports[i], sighted), objs[i].key)
      ensures Shows(objs[i].key.kind, seen[i], ResourceOf(reports[i], sighted).phase)
    {
      assert objs[i] in objs;
      StatusFollowsKind(s, objs[i]);
      PhaseIsShown(objs[i].key.kind, objs[i].status, seen[i]);
    }
    forall i | |objs| <= i < |reports| ensures ListsLeftover(s, ResourceOf(reports[i], sighted)) {
      assert reports[i] == more[i - |objs|] && more[i - |objs|] in more;
      LeftoverIsListed(s, reports[i], sighted);
    }
  }

  // ----- A deletion that runs the manager -----

  /** An object or a cleaner failed. */
  ghost predicate Failing(outcome: Outcome) {
    outcome.cleanerFailed || exists i :: 0 <= i < |outcome.reports| && outcome.reports[i].error.Some?
  }

  /** The status and return value after a pass of the manager that deletes: with any error Progressing
      and the error, otherwise Terminating, and finished exactly if every report says deleted. */
  lemma DeletionIsReported(ctx: Context, w: World, script: Script, o: Operator, pc: ProviderConfig, answers: seq<Guard.Listing>)
    requires |answers| == |Guard.OTEL_LIST_KINDS| && Clear(answers)
    requires ListsFaithfully(script) && Planned(ctx, o, pc, true).Ok?
    ensures var s := Planned(ctx, o, pc, true).value.setup;
            var outcome := Pass(w, script, Objects(s), Cleaners(s), true);
            var (w', o', r) := AfterDelete(ctx, w, script, o, pc, answers);
            var failed := Failing(outcome);
            && w' == outcome.world
            && o' == o.(status := Status(if failed then ProgressingPhase else TerminatingPhase,
                                         if failed then FailedWith(ReconcileErrors) else NoMessage,
                                         o'.status.resources, o.status.installed))
            && Lists(s, o'.status.resources, SeenBy(w, script, Objects(s), true))
            && |o'.status.resources| == |outcome.reports|
            && (if failed then r == Returned(ReconcileErrors)
                else if forall i :: 0 <= i < |outcome.reports| ==> outcome.reports[i].operation == Deleted then r == Finished
                else r == Requeue)
  {
    hide Guard.Blocking, Pass, Planned, Objects, Cleaners, SightedBy, ListsFaithfully, Lists, SeenBy, Failing, ErrorFree, AllDeleted;
    ClearMeansNothingNamed(answers);
    PlanIgnoresPhase(ctx, o, pc, o.(status := o.status.(phase := TerminatingPhase, message := NoMessage)));
    var s := Planned(ctx, o, pc, true).value.setup;
    PassLists(s, w, script, true);
    InReports(Pass(w, script, Objects(s), Cleaners(s), true));
  }

  lemma InReports(outcome: Outcome)
    ensures outcome.Clean() <==> !Failing(outcome)
    ensures AllDeleted(outcome.reports) <==> forall i :: 0 <= i < |outcome.reports| ==> outcome.reports[i].operation == Deleted
  {
    assert forall i :: 0 <= i < |outcome.reports| ==> outcome.reports[i] in outcome.reports;
  }

  /** What depends on something: the service account, the token secret and the two releases. */
  ghost predicate HasDependencies(s: Setup, k: Key) {
    || k == Key(s.cp, ServiceAccount, s.otelNamespace, "otel-operator-server")
    || k == Key(s.workload, Secret, s.workloadNamespace, "kube-api-access-otel-operator-server")
    || k == Key(s.platform, HelmRelease, s.tenantNamespace, s.name + "-crds")
    || k == Key(s.platform, HelmRelease, s.tenantNamespace, s.name + "-workload")
  }

  lemma DependenciesAre(s: Setup, o: ManagedObject)
    requires GraphTheorems.Separate(s) && GraphTheorems.TokenNameIsFree(s) && o in Objects(s)
    ensures o.deps != [] <==> HasDependencies(s, o.key)
  {
    hide Objects;
    GraphTheorems.Members(s, o);
  }

  /** Of an undisturbed deletion: these four are listed in the state they were in before it, if they
      were stored; everything else is listed as if it had not been created yet. */
  lemma DeletionShows(s: Setup, w: World, script: Script, i: nat)
    requires GraphTheorems.Separate(s) && GraphTheorems.TokenNameIsFree(s) && Quiet(script) && i < |Objects(s)|
    ensures var k := Objects(s)[i].key;
            SeenBy(w, script, Objects(s), true)[i]
              == if HasDependencies(s, k) && k in w.store then Some(w.store[k]) else None
  {
    hide Objects, Visits, SightedBy, Quiet, KeyedApart, DependencyFirst, HasDependencies;
    var o := Objects(s)[i];
    assert o in Objects(s);
    GraphTheorems.GraphIsKeyedApartIff(s);
    GraphTheorems.GraphIsDependencyFirst(s);
    DeletionSees(Objects(s), w, script, o);
    DependenciesAre(s, o);
  }

  /** Of an undisturbed Apply without errors: every object is listed in the state it is left in. */
  lemma ApplyShows(s: Setup, w: World, script: Script, i: nat)
    requires Sane(s) && Silent(script) && ListsFaithfully(script) && i < |Objects(s)|
    requires Pass(w, script, Objects(s), Cleaners(s), false).Clean()
    ensures var k := Objects(s)[i].key;
            var after := Pass(w, script, Objects(s), Cleaners(s), false).world.store;
            var seen := SeenBy(w, script, Objects(s), false)[i];
            && k in after && seen.Some?
            && seen.value.terminating == after[k].terminating && seen.value.ready == after[k].ready
  {
    hide Objects, Cleaners, Visits, Cleanups, Silent, ListsFaithfully, KeyedApart, ApplyConvergence.SourcesApart, ErrorFree;
    GraphTheorems.GraphIsWellPosed(s);
    GraphTheorems.GraphSourcesApart(s);
    ReportsFollowObjects(w, script, Objects(s), false, |Objects(s)|);
    ApplyConvergence.ReportsShowTheStore(Objects(s), Cleaners(s), w, script);
  }

  // ----- CreateOrUpdate -----

  /** The instance with the generated identifier in its label. */
  function Identified(ctx: Context, o: Operator): Operator
    requires Instance.TwentyBytes(ctx.digest)
  {
    o.(labels := o.labels["oteloperator.services.open-control-plane.io/instance-id" :=
                          Instance.GenerateId(ctx.digest, o.namespace, o.name)])
  }

  predicate CarriesId(ctx: Context, o: Operator)
    requires Instance.TwentyBytes(ctx.digest)
  {
    Identified(ctx, o).labels == o.labels
  }

  lemma LabelIsSet(ctx: Context, o: Operator)
    requires Instance.TwentyBytes(ctx.digest)
    ensures WithInstanceId(ctx, o) == Identified(ctx, o)
    ensures CarriesId(ctx, o) <==> Instance.GetId(o.labels) == Instance.GenerateId(ctx.digest, o.namespace, o.name)
  {
    hide Instance.EncodeDigits, Instance.Written;
    var key, id := "oteloperator.services.open-control-plane.io/instance-id", Instance.GenerateId(ctx.digest, o.namespace, o.name);
    if key in o.labels && o.labels[key] == id {
      assert o.labels[key := id] == o.labels;
    }
    assert o.labels[key := id][key] == id;
  }

  lemma PlanOfIdentified(ctx: Context, o: Operator, pc: ProviderConfig)
    requires Instance.TwentyBytes(ctx.digest)
    ensures Planned(ctx, Prepared(ctx, o), pc, false) == Planned(ctx, Identified(ctx, o), pc, false)
  {
    hide Select, Pipeline, Extract, ChartSecretFor, AccessFor, CrdValues, WithInstanceId, Identified;
    LabelIsSet(ctx, o);
  }

  /** An identifier that cannot be saved ends the reconcile with that error, before any call. */
  lemma IdIsNotSaved(ctx: Context, w: World, script: Script, o: Operator, pc: ProviderConfig)
    requires Instance.TwentyBytes(ctx.digest) && !CarriesId(ctx, o)
    ensures AfterCreateOrUpdate(ctx, w, script, o, pc, false)
         == (w, Identified(ctx, o).(status := Status(ProgressingPhase, FailedWith(InstanceIdNotSaved), o.status.resources,
                                                      o.status.installed)),
             Returned(InstanceIdNotSaved))
  {
    hide Pass, Planned, Objects, Cleaners, Identified, CarriesId, Instance.GenerateId;
    LabelIsSet(ctx, o);
  }

  /** Without a plan no call is made: the planning error is in the status, and it is returned unless
      it says that the version is not available. */
  lemma ApplyIsNotPlanned(ctx: Context, w: World, script: Script, o: Operator, pc: ProviderConfig, onboardingOk: bool)
    requires Instance.TwentyBytes(ctx.digest) && (onboardingOk || CarriesId(ctx, o))
    requires Planned(ctx, Identified(ctx, o), pc, false).Err?
    ensures var e := Planned(ctx, Identified(ctx, o), pc, false).error;
            AfterCreateOrUpdate(ctx, w, script, o, pc, onboardingOk)
              == (w, Identified(ctx, o).(status := Status(ProgressingPhase, FailedWith(e), o.status.resources, o.status.installed)),
                  if e.VersionNotAvailable? then Finished else Returned(e))
  {
    hide Pass, Planned, Objects, Cleaners, Identified, CarriesId, Instance.GenerateId;
    LabelIsSet(ctx, o);
    PlanOfIdentified(ctx, o, pc);
  }

  /** Whether every listed resource is ready, and otherwise the first that is not. */
  ghost predicate FirstNotReady(resources: seq<ManagedResource>, r: ManagedResource) {
    exists i :: 0 <= i < |resources| && resources[i] == r && r.phase != Ready
                && forall j :: 0 <= j < i ==> resources[j].phase == Ready
  }

  /** The status and return value after an Apply: with any error Progressing and the error, and the
      recorded version stays; otherwise the version worked with is recorded, and the status is Ready if
      all resources are, and else names the first that is not. */
  lemma ApplyIsReported(ctx: Context, w: World, script: Script, o: Operator, pc: ProviderConfig, onboardingOk: bool)
    requires Instance.TwentyBytes(ctx.digest) && (onboardingOk || CarriesId(ctx, o))
    requires ListsFaithfully(script) && Planned(ctx, Identified(ctx, o), pc, false).Ok?
    ensures var plan := Planned(ctx, Identified(ctx, o), pc, false).value;
            var objs := Objects(plan.setup);
            var outcome := Pass(w, script, objs, Cleaners(plan.setup), false);
            var (w', o', r) := AfterCreateOrUpdate(ctx, w, script, o, pc, onboardingOk);
            var failed := Failing(outcome);
            && w' == outcome.world
            && o' == Identified(ctx, o).(status := o'.status)
            && Lists(plan.setup, o'.status.resources, SeenBy(w, script, objs, false))
            && |o'.status.resources| == |outcome.reports|
            && r == (if failed then Returned(ReconcileErrors) else Finished)
            && o'.status.installed == (if failed then o.status.installed else Some(plan.version))
            && (if failed then o'.status.phase == ProgressingPhase && o'.status.message == FailedWith(ReconcileErrors)
                else if forall i :: 0 <= i < |o'.status.resources| ==> o'.status.resources[i].phase == Ready then
                  o'.status.phase == ReadyPhase && o'.status.message == NoMessage
                else
                  && o'.status.phase == ProgressingPhase && o'.status.message.WaitingFor?
                  && FirstNotReady(o'.status.resources, o'.status.message.resource))
  {
    hide Pass, Planned, Objects, Cleaners, ListsFaithfully, Lists, SeenBy, Identified, CarriesId, Instance.GenerateId,
         FirstPending, Failing, ErrorFree;
    LabelIsSet(ctx, o);
    PlanOfIdentified(ctx, o, pc);
    var s := Planned(ctx, Identified(ctx, o), pc, false).value.setup;
    PassLists(s, w, script, false);
    var reports := Pass(w, script, Objects(s), Cleaners(s), false).reports;
    NothingSighted(w, script, Objects(s));
    InReports(Pass(w, script, Objects(s), Cleaners(s), false));
    var resources := ResourcesOf(reports, map[], |reports|);
    FirstPendingIsFirst(resources);
    assert forall i :: 0 <= i < |resources| ==> resources[i] in resources;
  }
}
