/** Several instances, and several configurations of one instance, as the controller plans them. */
module InstanceTheorems {
  import opened Wrappers
  import opened Cluster
  import opened Managed
  import opened Manager
  import opened HelmValues
  import opened Graph
  import opened Controller
  import opened ControllerTheorems
  import opened Isolation
  import opened NonInterference
  import GraphTheorems
  import TeardownProgress
  import TeardownRounds
  import Guard
  import Instance

  // ----- The plans of two instances -----

  /** One reconcile of an instance: an Apply, or a Delete that the guard lets through. */
  datatype Work = Work(ctx: Context, o: Operator, pc: ProviderConfig, forDelete: bool)

  /** The object the plan is made from: Apply first sees to the label, Delete takes it as it is. */
  function Worked(x: Work): Operator
    requires Instance.TwentyBytes(x.ctx.digest)
  {
    if x.forDelete then x.o else Prepared(x.ctx, x.o)
  }

  ghost predicate HasPlan(x: Work) {
    Instance.TwentyBytes(x.ctx.digest) && Planned(x.ctx, Worked(x), x.pc, x.forDelete).Ok?
  }

  ghost function SetupOf(x: Work): Setup
    requires HasPlan(x)
  {
    Planned(x.ctx, Worked(x), x.pc, x.forDelete).value.setup
  }

  ghost function LabelOf(x: Work): string
    requires HasPlan(x)
  {
    Instance.GetId(Worked(x).labels)
  }

  function OwnId(x: Work): string
    requires Instance.TwentyBytes(x.ctx.digest)
  {
    Instance.GenerateId(x.ctx.digest, x.o.namespace, x.o.name)
  }

  /** What a setup takes from the instance and its context. */
  lemma SetupFacts(x: Work)
    requires HasPlan(x)
    ensures var s := SetupOf(x);
            && s.cp == x.ctx.cp && s.workload == x.ctx.workload && s.platform == x.ctx.platform
            && s.podNamespace == x.ctx.podNamespace && s.name == x.o.name && s.server == x.ctx.cpServer
            && s.workloadNamespace == Instance.NamespaceOf(LabelOf(x))
            && x.ctx.tenantNamespaceOf(x.o.name, x.o.namespace) == Some(s.tenantNamespace)
    ensures !x.forDelete ==> LabelOf(x) == OwnId(x)
  {
    hide Pipeline, Extract, Select, ChartSecretFor, AccessFor, CrdValues, Instance.GenerateId;
  }

  /** Two different instances, on control planes of their own, served by the same libraries,
      which give different instances different tenant namespaces. */
  ghost predicate Neighbours(x: Work, y: Work) {
    && (x.o.namespace, x.o.name) != (y.o.namespace, y.o.name)
    && x.ctx.digest == y.ctx.digest && x.ctx.tenantNamespaceOf == y.ctx.tenantNamespaceOf
    && (forall n, ns, m, ms :: x.ctx.tenantNamespaceOf(n, ns).Some? && x.ctx.tenantNamespaceOf(n, ns) == x.ctx.tenantNamespaceOf(m, ms)
          ==> n == m && ns == ms)
    && x.ctx.cp !in {y.ctx.cp, y.ctx.workload, y.ctx.platform} && y.ctx.cp !in {x.ctx.workload, x.ctx.platform}
    && x.ctx.workload != y.ctx.platform && y.ctx.workload != x.ctx.platform
  }

  lemma NeighboursApart(x: Work, y: Work)
    requires HasPlan(x) && HasPlan(y) && Neighbours(x, y)
    ensures OwnControlPlanes(SetupOf(x), SetupOf(y)) && OwnTenants(SetupOf(x), SetupOf(y))
    ensures SetupOf(x).workloadNamespace == SetupOf(y).workloadNamespace <==> LabelOf(x) == LabelOf(y)
  {
    hide HasPlan, SetupOf, LabelOf, OwnId;
    SetupFacts(x);
    SetupFacts(y);
    NamespaceNamesLabel(LabelOf(x));
    NamespaceNamesLabel(LabelOf(y));
  }

  lemma NamespaceNamesLabel(id: string)
    ensures Instance.NamespaceOf(id)[|Instance.PREFIX|..] == id
  {
  }

  /** What two reconciles of different instances may write or delete is disjoint if and only if
      they work on different workload clusters or under different labels. */
  lemma PlansAreDisjointIff(x: Work, y: Work)
    requires HasPlan(x) && HasPlan(y) && Neighbours(x, y)
    ensures (forall k :: !(InFootprint(SetupOf(x), k) && InFootprint(SetupOf(y), k))) <==>
              !(x.ctx.workload == y.ctx.workload && LabelOf(x) == LabelOf(y))
  {
    hide HasPlan, SetupOf, LabelOf, InFootprint, Neighbours;
    SetupFacts(x);
    SetupFacts(y);
    NeighboursApart(x, y);
    FootprintsAreDisjointIff(SetupOf(x), SetupOf(y));
  }

  /** Under labels that pass the test of Apply, as an Apply always has, two instances are disjoint
      if and only if their workload clusters or the digests of their prints differ. The prints
      themselves always differ. */
  lemma OwnLabelsKeepApartIff(x: Work, y: Work)
    requires HasPlan(x) && HasPlan(y) && Neighbours(x, y)
    requires x.forDelete ==> Instance.GetId(x.o.labels) == OwnId(x)
    requires y.forDelete ==> Instance.GetId(y.o.labels) == OwnId(y)
    ensures var p, q := Instance.Print(x.o.namespace, x.o.name), Instance.Print(y.o.namespace, y.o.name);
            && ('/' !in x.o.namespace && '/' !in y.o.namespace ==> p != q)
            && ((forall k :: !(InFootprint(SetupOf(x), k) && InFootprint(SetupOf(y), k)))
                <==> x.ctx.workload != y.ctx.workload || x.ctx.digest(p) != y.ctx.digest(q))
  {
    SetupFacts(x);
    SetupFacts(y);
    Instance.NamespacesAgreeIff(x.ctx.digest, x.o.namespace, x.o.name, y.o.namespace, y.o.name);
    NamespaceNamesLabel(OwnId(x));
    NamespaceNamesLabel(OwnId(y));
    if '/' !in x.o.namespace && '/' !in y.o.namespace
       && Instance.Print(x.o.namespace, x.o.name) == Instance.Print(y.o.namespace, y.o.name) {
      Instance.PrintIsInjective(x.o.namespace, x.o.name, y.o.namespace, y.o.name);
    }
    hide InFootprint, Instance.GenerateId, Instance.NamespaceOf, Planned;
    PlansAreDisjointIff(x, y);
  }

  function Relabelled(o: Operator, id: string): Operator {
    o.(labels := o.labels[Instance.LABEL_INSTANCE_ID := id])
  }

  lemma PlanIgnoresLabel(x: Work, id: string)
    requires HasPlan(x) && x.forDelete
    ensures HasPlan(x.(o := Relabelled(x.o, id))) && LabelOf(x.(o := Relabelled(x.o, id))) == id
  {
    hide Pipeline, Extract, Select, ChartSecretFor, AccessFor, CrdValues;
  }

  /** When the label of an instance is edited to the identifier of another one on the same
      workload cluster, its deletion reaches the other's namespace. */
  lemma EditedLabelInvades(x: Work, y: Work)
    requires HasPlan(x) && HasPlan(y) && Neighbours(x, y) && x.forDelete && x.ctx.workload == y.ctx.workload
    requires LabelOf(y) == OwnId(y)
    ensures var edited := x.(o := Relabelled(x.o, OwnId(y)));
            var namespace := Key(y.ctx.workload, Namespace, "", Instance.NamespaceOf(OwnId(y)));
            HasPlan(edited) && InFootprint(SetupOf(edited), namespace) && InFootprint(SetupOf(y), namespace)
  {
    var edited := x.(o := Relabelled(x.o, OwnId(y)));
    PlanIgnoresLabel(x, OwnId(y));
    hide HasPlan, SetupOf, LabelOf, OwnId, InFootprint, Neighbours;
    SetupFacts(edited);
    SetupFacts(y);
    WorksIn(SetupOf(edited));
    WorksIn(SetupOf(y));
  }

  /** And it deletes it: whatever others do meanwhile, after one pass of a deletion under the
      other's label whose calls succeed, the other's namespace is gone or terminating. */
  lemma EditedLabelDeletes(edited: Work, y: Work, w: World, script: Script)
    requires HasPlan(edited) && HasPlan(y) && Neighbours(edited, y) && edited.forDelete
    requires edited.ctx.workload == y.ctx.workload && LabelOf(edited) == LabelOf(y) && FaultFree(script)
    requires TeardownProgress.Adversary(script, KeysOf(Objects(SetupOf(edited))))
    ensures var namespace := WorkloadNamespace(SetupOf(y));
            && namespace in Objects(SetupOf(y))
            && TeardownProgress.Weight(AfterRemoval(edited.ctx, w, script, edited.o, edited.pc).0.store, namespace.key) <= 1
  {
    RemovalPasses(edited, w, script);
    hide HasPlan, SetupOf, LabelOf, OwnId, Neighbours, Pass, Objects, Cleaners, AfterRemoval, FaultFree, TeardownProgress.Adversary;
    SetupFacts(edited);
    SetupFacts(y);
    var s := SetupOf(edited);
    NeighboursHaveOwnClusters(edited, y);
    GraphTheorems.Members(SetupOf(y), WorkloadNamespace(SetupOf(y)));
    GraphTheorems.Members(s, WorkloadNamespace(s));
    NothingNeedsWorkloadNamespace(s, w.store);
    TeardownProgress.PassDeletesUnblocked(Objects(s), Cleaners(s), w, script, WorkloadNamespace(s));
  }

  lemma NeighboursHaveOwnClusters(x: Work, y: Work)
    requires Neighbours(x, y) && x.ctx.workload == y.ctx.workload
    ensures x.ctx.cp != x.ctx.workload
  {
  }

  lemma RemovalPasses(x: Work, w: World, script: Script)
    requires HasPlan(x) && x.forDelete
    ensures var s := SetupOf(x);
            AfterRemoval(x.ctx, w, script, x.o, x.pc).0 == Pass(w, script, Objects(s), Cleaners(s), true).world
  {
    hide Pass, Objects, Cleaners, Planned, SightedBy, ResourcesOf;
  }

  lemma NothingNeedsWorkloadNamespace(s: Setup, store: Store)
    requires s.cp != s.workload
    ensures !TeardownRounds.Blocked(Objects(s), WorkloadNamespace(s), store)
  {
    hide Objects, GraphTheorems.IsCopy;
    forall d | d in Objects(s) ensures WorkloadNamespace(s) !in d.deps {
      GraphTheorems.Members(s, d);
      DependsOnNoNamespace(s, d);
    }
  }

  lemma DependsOnNoNamespace(s: Setup, d: ManagedObject)
    requires GraphTheorems.IsObject(s, d) && s.cp != s.workload
    ensures WorkloadNamespace(s) !in d.deps
  {
    hide GraphTheorems.IsCopy;
    if GraphTheorems.IsCopy(s, d) {
      GraphTheorems.CopiesHaveNoDependencies(s, d);
    }
  }

  // ----- Call by call -----

  /** Calls of others outside the view make no difference to what Delete returns and writes to
      the status. */
  lemma DeleteSameAsAlone(ctx: Context, w: World, script: Script, o: Operator, pc: ProviderConfig, others: Scope)
    requires Planned(ctx, o, pc, true).Ok? && ListsFaithfully(script) && ActsOnlyOn(script, others)
    requires forall k :: others(k) ==> !InView(Planned(ctx, o, pc, true).value.setup, k)
    ensures AfterRemoval(ctx, w, script, o, pc).1 == AfterRemoval(ctx, w, Alone(script), o, pc).1
    ensures AfterRemoval(ctx, w, script, o, pc).2 == AfterRemoval(ctx, w, Alone(script), o, pc).2
  {
    hide Pass, SightedBy, Objects, Cleaners, Planned, InView, ActsOnlyOn, ListsFaithfully, Alone, ResourcesOf;
    SameAsAlone(Planned(ctx, o, pc, true).value.setup, w, script, others, true);
  }

  /** Nor to what CreateOrUpdate returns and writes. */
  lemma ApplySameAsAlone(ctx: Context, w: World, script: Script, o: Operator, pc: ProviderConfig, onboardingOk: bool,
                         others: Scope)
    requires Instance.TwentyBytes(ctx.digest) && Planned(ctx, Prepared(ctx, o), pc, false).Ok?
    requires ListsFaithfully(script) && ActsOnlyOn(script, others)
    requires forall k :: others(k) ==> !InView(Planned(ctx, Prepared(ctx, o), pc, false).value.setup, k)
    ensures AfterCreateOrUpdate(ctx, w, script, o, pc, onboardingOk).1
         == AfterCreateOrUpdate(ctx, w, Alone(script), o, pc, onboardingOk).1
    ensures AfterCreateOrUpdate(ctx, w, script, o, pc, onboardingOk).2
         == AfterCreateOrUpdate(ctx, w, Alone(script), o, pc, onboardingOk).2
  {
    hide Pass, SightedBy, Objects, Cleaners, Planned, InView, ActsOnlyOn, ListsFaithfully, Alone, ResourcesOf;
    SameAsAlone(Planned(ctx, Prepared(ctx, o), pc, false).value.setup, w, script, others, false);
  }

  /** What a neighbour may write is out of view, unless both work in one namespace. */
  lemma NeighboursAreOutOfView(x: Work, y: Work, k: Key)
    requires HasPlan(x) && HasPlan(y) && Neighbours(x, y)
    requires !(x.ctx.workload == y.ctx.workload && LabelOf(x) == LabelOf(y))
    requires x.ctx.platform != y.ctx.platform || SetupOf(y).tenantNamespace != x.ctx.podNamespace
    ensures InFootprint(SetupOf(y), k) ==> !InView(SetupOf(x), k)
  {
    hide HasPlan, SetupOf, LabelOf, InFootprint, InView, Neighbours;
    SetupFacts(x);
    SetupFacts(y);
    NeighboursApart(x, y);
    FootprintIsOutOfView(SetupOf(x), SetupOf(y), k);
  }

  // ----- Earlier configurations of one instance -----

  /** The same instance under the same label, whatever its version and configuration. */
  ghost predicate SameWork(x: Work, y: Work) {
    && x.ctx == y.ctx && x.o.namespace == y.o.namespace && x.o.name == y.o.name
    && HasPlan(x) && HasPlan(y) && LabelOf(x) == LabelOf(y)
  }

  lemma SameWorkIsSameInstance(x: Work, y: Work)
    requires SameWork(x, y)
    ensures SameInstance(SetupOf(x), SetupOf(y))
  {
    hide HasPlan, SetupOf, LabelOf;
    SetupFacts(x);
    SetupFacts(y);
  }

  /** A deletion reaches everything an earlier reconcile of the instance installed if and only if
      the control-plane namespace has not changed since. */
  lemma DeletionReachesEarlierIff(x: Work, y: Work)
    requires SameWork(x, y) && GraphTheorems.Separate(SetupOf(y))
    ensures (forall o :: GraphTheorems.IsObject(SetupOf(x), o) ==> InFootprint(SetupOf(y), o.key)) <==>
              SetupOf(x).otelNamespace == SetupOf(y).otelNamespace
  {
    hide HasPlan, SetupOf, LabelOf, InFootprint, GraphTheorems.IsObject;
    SameWorkIsSameInstance(x, y);
    EarlierObjectsAreReachedIff(SetupOf(x), SetupOf(y));
  }

  /** Then a finished deletion leaves nothing that any such reconcile installed. */
  lemma FinishedDeletionLeavesNothingEarlier(x: Work, y: Work, w: World, script: Script, answers: seq<Guard.Listing>)
    requires SameWork(x, y) && y.forDelete && SetupOf(x).otelNamespace == SetupOf(y).otelNamespace
    requires |answers| == |Guard.OTEL_LIST_KINDS| && ListsFaithfully(script)
    requires TeardownProgress.OnlyWanes(script, Objects(SetupOf(y)), Cleaners(SetupOf(y)))
    requires KeepsLabels(script, Cleaners(SetupOf(y)))
    requires forall c, k :: c in Cleaners(SetupOf(y)) && c.Covers(k) && k in w.store ==> !w.store[k].held
    requires forall o :: GraphTheorems.IsObject(SetupOf(x), o) && o.key in w.store ==> Labelled(w.store[o.key])
    requires AfterDelete(y.ctx, w, script, y.o, y.pc, answers).2 == Finished
    ensures var left := AfterDelete(y.ctx, w, script, y.o, y.pc, answers).0.store;
            forall o :: GraphTheorems.IsObject(SetupOf(x), o) ==> o.key !in left
  {
    var b := SetupOf(y);
    SameWorkIsSameInstance(x, y);
    hide Pass, Objects, Cleaners, Planned, AfterDelete, KeepsLabels, ListsFaithfully, GraphTheorems.IsObject,
         TeardownProgress.OnlyWanes;
    DeletionFinishesIff(y.ctx, w, script, y.o, y.pc, answers);
    DeletionPasses(y.ctx, w, script, y.o, y.pc, answers);
    EarlierConfigurationsAreGone(SetupOf(x), b, w, script);
  }

  /** A deletion that the guard lets through is a Delete pass of its plan, and leaves the plan. */
  lemma DeletionPasses(ctx: Context, w: World, script: Script, o: Operator, pc: ProviderConfig, answers: seq<Guard.Listing>)
    requires |answers| == |Guard.OTEL_LIST_KINDS| && Planned(ctx, o, pc, true).Ok?
    requires forall i :: 0 <= i < |answers| ==> !answers[i].Broken? && !Guard.HasInstances(answers[i])
    ensures var s := Planned(ctx, o, pc, true).value.setup;
            var (w', o', _) := AfterDelete(ctx, w, script, o, pc, answers);
            w' == Pass(w, script, Objects(s), Cleaners(s), true).world && Planned(ctx, o', pc, true) == Planned(ctx, o, pc, true)
  {
    hide Pass, Planned, Objects, Cleaners, SightedBy, ResourcesOf, Guard.Blocking;
    NothingBlocks(answers);
    PlanIgnoresPhase(ctx, o, pc, o.(status := o.status.(phase := TerminatingPhase, message := NoMessage)));
    PlanIgnoresPhase(ctx, o, pc, AfterDelete(ctx, w, script, o, pc, answers).1);
  }
}
