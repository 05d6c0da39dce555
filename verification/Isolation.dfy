/** Instances do not interfere: each pass stays within its instance's footprint, and the
    footprints of two instances have no key in common. */
module Isolation {
  import opened Wrappers
  import opened Cluster
  import opened Managed
  import opened Manager
  import opened Graph
  import opened GraphTheorems
  import opened PassRelations
  import opened ApplyConvergence
  import TeardownProgress

  /** The keys an instance may write or delete. */
  ghost predicate InFootprint(s: Setup, k: Key) {
    (exists o :: IsObject(s, o) && o.key == k) || (exists c :: c in Cleaners(s) && c.Removes(k))
  }

  /** The environment changes nothing but keys of `others`. */
  ghost predicate ActsOnlyOn(script: Script, others: Key -> bool) {
    forall t: nat, store: Store, k: Key :: !others(k) ==> SameAt(store, script(t).drift(store), k)
  }

  ghost predicate ChangedOnlyOn(scope: Key -> bool, before: Store, after: Store) {
    forall k :: !scope(k) ==> SameAt(before, after, k)
  }

  ghost function ChangesOnly(scope: Key -> bool): Relation {
    (a: World, b: World) => ChangedOnlyOn(scope, a.store, b.store)
  }

  ghost function FootprintOr(s: Setup, others: Key -> bool): Key -> bool {
    k => InFootprint(s, k) || others(k)
  }

  lemma ConfinedAdmits(scope: Key -> bool, others: Key -> bool, script: Script, isDeletion: bool)
    requires ActsOnlyOn(script, others) && forall k :: others(k) ==> scope(k)
    ensures Admits(ChangesOnly(scope), script, scope, isDeletion)
  {
    var R := ChangesOnly(scope);
    forall w ensures R(w, Await(w, script)) && R(w, w) {
      assert forall k :: !scope(k) ==> SameAt(w.store, Await(w, script).store, k);
    }
    forall a, b, c | R(a, b) && R(b, c) ensures R(a, c) {
    }
    forall w, k | scope(k) ensures R(w, Delete(w, script, k).0) {
      assert R(w, Await(w, script));
    }
    forall w, k, x | scope(k) ensures R(w, Create(w, script, k, x).0) {
      assert R(w, Await(w, script));
    }
    forall w, k, r, x | scope(k) ensures R(w, Update(w, script, k, r, x).0) {
      assert R(w, Await(w, script));
    }
  }

  /** No pass, Apply or Delete, with whatever failures, changes anything outside the footprint,
      except what the environment changes there meanwhile. */
  lemma PassStaysInFootprint(s: Setup, others: Key -> bool, w: World, script: Script, isDeletion: bool)
    requires ActsOnlyOn(script, others) && ListsFaithfully(script)
    ensures forall k :: !InFootprint(s, k) && !others(k) ==>
              SameAt(w.store, Pass(w, script, Objects(s), Cleaners(s), isDeletion).world.store, k)
  {
    hide Objects, Pass, ActsOnlyOn, ListsFaithfully, IsObject, SameAt;
    var scope := FootprintOr(s, others);
    ConfinedAdmits(scope, others, script, isDeletion);
    forall o | o in Objects(s) ensures scope(o.key) {
      Members(s, o);
    }
    PassAdmits(ChangesOnly(scope), script, scope, w, Objects(s), Cleaners(s), isDeletion);
    assert ChangesOnly(scope)(w, Pass(w, script, Objects(s), Cleaners(s), isDeletion).world);
  }

  /** Where a footprint can lie. */
  lemma FootprintBounds(s: Setup, k: Key)
    requires InFootprint(s, k)
    ensures k.cluster == s.cp
         || (k.cluster == s.workload && k.kind == Namespace && k.name == s.workloadNamespace)
         || (k.cluster == s.workload && k.kind in {Secret, ConfigMap} && k.namespace == s.workloadNamespace)
         || (k.cluster == s.platform && k.kind != Namespace && k.namespace == s.tenantNamespace)
  {
    if o :| IsObject(s, o) && o.key == k {
      ObjectBounds(s, o);
    }
  }

  lemma ObjectBounds(s: Setup, o: ManagedObject)
    requires IsObject(s, o)
    ensures var k := o.key;
            || k.cluster == s.cp
            || (k.cluster == s.workload && k.kind == Namespace && k.name == s.workloadNamespace)
            || (k.cluster == s.workload && k.kind in {Secret, ConfigMap} && k.namespace == s.workloadNamespace)
            || (k.cluster == s.platform && k.kind != Namespace && k.namespace == s.tenantNamespace)
  {
  }

  /** Two instances with control planes of their own, on shared or separate workload clusters,
      under one or several platform clusters. */
  ghost predicate OwnControlPlanes(a: Setup, b: Setup) {
    && a.cp !in {b.cp, b.workload, b.platform} && b.cp !in {a.workload, a.platform}
    && a.workload != b.platform && b.workload != a.platform
  }

  /** The tenant namespaces on the platform clusters differ. */
  ghost predicate OwnTenants(a: Setup, b: Setup) {
    a.platform != b.platform || a.tenantNamespace != b.tenantNamespace
  }

  /** Two instances of their own control planes and tenants have no key in common if and only if
      they do not share a namespace on a workload cluster. */
  lemma FootprintsAreDisjointIff(a: Setup, b: Setup)
    requires OwnControlPlanes(a, b) && OwnTenants(a, b)
    ensures (forall k :: !(InFootprint(a, k) && InFootprint(b, k))) <==>
              !(a.workload == b.workload && a.workloadNamespace == b.workloadNamespace)
  {
    if a.workload == b.workload && a.workloadNamespace == b.workloadNamespace {
      WorksIn(a);
      WorksIn(b);
      assert InFootprint(a, WorkloadNamespace(a).key) && InFootprint(b, WorkloadNamespace(a).key);
    } else {
      forall k ensures !(InFootprint(a, k) && InFootprint(b, k)) {
        if InFootprint(a, k) && InFootprint(b, k) {
          FootprintBounds(a, k);
          FootprintBounds(b, k);
        }
      }
    }
  }

  /** An instance writes its namespace on the workload cluster. */
  lemma WorksIn(s: Setup)
    ensures InFootprint(s, Key(s.workload, Namespace, "", s.workloadNamespace))
  {
    hide IsCopy;
    assert IsObject(s, WorkloadNamespace(s)) && WorkloadNamespace(s).key == Key(s.workload, Namespace, "", s.workloadNamespace);
  }

  /** A swept place holds managed objects and what is to be removed. */
  lemma CoveredIsFootprint(s: Setup, c: Cleaner, k: Key)
    requires c in Cleaners(s) && c.Covers(k)
    ensures InFootprint(s, k)
  {
    hide Objects, Cleaners, IsObject;
    GraphKeepsManaged(s);
    if k.name in c.keep {
      var o :| o in Objects(s) && o.key == k && o.policy != Orphan;
      Members(s, o);
    } else {
      assert c.Removes(k);
    }
  }

  /** The world after the first `n` of a series of passes of any instances. */
  function Interleaved(w: World, script: Script, setups: seq<Setup>, deletions: seq<bool>, n: nat): World
    requires n <= |setups| == |deletions|
  {
    if n == 0 then w
    else
      var before := Interleaved(w, script, setups, deletions, n - 1);
      Pass(before, script, Objects(setups[n - 1]), Cleaners(setups[n - 1]), deletions[n - 1]).world
  }

  /** What none of the passes may write stays as it was, unless the environment changed it. */
  lemma {:induction false} UntouchedStays(k: Key, others: Key -> bool, w: World, script: Script,
                                          setups: seq<Setup>, deletions: seq<bool>, n: nat)
    requires n <= |setups| == |deletions| && ActsOnlyOn(script, others) && ListsFaithfully(script)
    requires !others(k) && forall a :: a in setups ==> !InFootprint(a, k)
    ensures SameAt(w.store, Interleaved(w, script, setups, deletions, n).store, k)
  {
    hide Pass, ActsOnlyOn, ListsFaithfully, InFootprint;
    if n > 0 {
      UntouchedStays(k, others, w, script, setups, deletions, n - 1);
      assert setups[n - 1] in setups;
      PassStaysInFootprint(setups[n - 1], others, Interleaved(w, script, setups, deletions, n - 1), script, deletions[n - 1]);
    }
  }

  /** However many passes of other instances run meanwhile, an instance finds its footprint as
      it left it, unless the environment changed it. */
  lemma OthersDoNotInterfere(b: Setup, others: Key -> bool, w: World, script: Script, setups: seq<Setup>,
                             deletions: seq<bool>, n: nat)
    requires n <= |setups| == |deletions| && ActsOnlyOn(script, others) && ListsFaithfully(script)
    requires forall a, k :: a in setups ==> !(InFootprint(a, k) && InFootprint(b, k))
    requires forall k :: others(k) ==> !InFootprint(b, k)
    ensures forall k :: InFootprint(b, k) ==> SameAt(w.store, Interleaved(w, script, setups, deletions, n).store, k)
  {
    hide Interleaved, ActsOnlyOn, ListsFaithfully, InFootprint, SameAt;
    forall k | InFootprint(b, k) ensures SameAt(w.store, Interleaved(w, script, setups, deletions, n).store, k) {
      UntouchedStays(k, others, w, script, setups, deletions, n);
    }
  }

  // ----- Earlier configurations of the same instance -----

  /** The control-plane namespace of an earlier configuration is reached by teardown exactly if
      the current one uses the same name. */
  lemma EarlierNamespaceIsReachedIff(s: Setup, namespace: string)
    requires Separate(s)
    ensures InFootprint(s, Key(s.cp, Namespace, "", namespace)) <==> namespace == s.otelNamespace
  {
    var k := Key(s.cp, Namespace, "", namespace);
    if namespace == s.otelNamespace {
      assert IsObject(s, CpNamespace(s)) && CpNamespace(s).key == k;
    } else {
      forall o | IsObject(s, o) ensures o.key != k {
        if o.key.cluster == s.cp {
          OnControlPlane(s, o);
        }
      }
    }
  }

  /** And so is the service account in it. */
  lemma EarlierAccountIsReachedIff(s: Setup, namespace: string)
    requires Separate(s)
    ensures InFootprint(s, Key(s.cp, ServiceAccount, namespace, SERVICE_ACCOUNT)) <==> namespace == s.otelNamespace
  {
    var k := Key(s.cp, ServiceAccount, namespace, SERVICE_ACCOUNT);
    if namespace == s.otelNamespace {
      assert IsObject(s, CpServiceAccount(s)) && CpServiceAccount(s).key == k;
    } else {
      forall o | IsObject(s, o) ensures o.key != k {
        if o.key.cluster == s.cp {
          OnControlPlane(s, o);
        }
      }
    }
  }

  lemma OnControlPlane(s: Setup, o: ManagedObject)
    requires Separate(s) && IsObject(s, o) && o.key.cluster == s.cp
    ensures o.key.kind == Namespace ==> o.key.name == s.otelNamespace
    ensures o.key.kind == ServiceAccount ==> o.key.namespace == s.otelNamespace
  {
  }

  /** Two configurations of one instance. */
  ghost predicate SameInstance(a: Setup, b: Setup) {
    && a.cp == b.cp && a.workload == b.workload && a.platform == b.platform && a.name == b.name
    && a.workloadNamespace == b.workloadNamespace && a.tenantNamespace == b.tenantNamespace
  }

  /** An object of the one configuration is an object of the other, or lies where the other
      sweeps, or it is the control-plane namespace or the service account in it. */
  lemma EarlierObject(a: Setup, b: Setup, o: ManagedObject)
    requires SameInstance(a, b) && IsObject(a, o)
    ensures || (exists x :: IsObject(b, x) && x.key == o.key)
            || (exists c :: c in Cleaners(b) && c.Covers(o.key))
            || (o == CpNamespace(a) || o == CpServiceAccount(a))
  {
    hide IsCopy;
    if IsCopy(a, o) {
      EarlierCopy(a, b, o);
    } else if o == CpBinding(a) {
      assert IsObject(b, CpBinding(b)) && CpBinding(b).key == o.key;
    } else if o == WorkloadNamespace(a) {
      assert IsObject(b, WorkloadNamespace(b)) && WorkloadNamespace(b).key == o.key;
    } else if o == TokenSecret(a) {
      assert IsObject(b, TokenSecret(b)) && TokenSecret(b).key == o.key;
    } else if o == ChartRepository(a) {
      assert IsObject(b, ChartRepository(b)) && ChartRepository(b).key == o.key;
    } else if o == CrdRelease(a) {
      assert IsObject(b, CrdRelease(b)) && CrdRelease(b).key == o.key;
    } else if o == WorkloadRelease(a) {
      assert IsObject(b, WorkloadRelease(b)) && WorkloadRelease(b).key == o.key;
    }
  }

  lemma EarlierCopy(a: Setup, b: Setup, o: ManagedObject)
    requires SameInstance(a, b) && IsCopy(a, o)
    ensures exists c :: c in Cleaners(b) && c.Covers(o.key)
  {
    assert Cleaners(b)[0] in Cleaners(b) && Cleaners(b)[1] in Cleaners(b) && Cleaners(b)[2] in Cleaners(b);
    if a.ca.Some? && o == CaConfigMap(a, a.ca.value) {
      assert Cleaners(b)[0].Covers(o.key);
    } else if a.chart.Some? && o == ChartPullSecret(a, a.chart.value) {
      assert Cleaners(b)[2].Covers(o.key);
    } else {
      assert Cleaners(b)[1].Covers(o.key);
    }
  }

  /** Teardown with the current configuration reaches everything an earlier one installed,
      whatever version, pull secrets or CA bundle it had, if and only if the control-plane
      namespace is still the same. */
  lemma EarlierObjectsAreReachedIff(a: Setup, b: Setup)
    requires SameInstance(a, b) && Separate(b)
    ensures (forall o :: IsObject(a, o) ==> InFootprint(b, o.key)) <==> a.otelNamespace == b.otelNamespace
  {
    EarlierNamespaceIsReachedIff(b, a.otelNamespace);
    EarlierAccountIsReachedIff(b, a.otelNamespace);
    assert IsObject(a, CpNamespace(a)) && CpNamespace(a).key == Key(b.cp, Namespace, "", a.otelNamespace);
    assert CpServiceAccount(a).key == Key(b.cp, ServiceAccount, a.otelNamespace, SERVICE_ACCOUNT);
    hide IsObject, Cleaners, CpNamespace, CpServiceAccount;
    if a.otelNamespace == b.otelNamespace {
      forall o | IsObject(a, o) ensures InFootprint(b, o.key) {
        EarlierObject(a, b, o);
        if c :| c in Cleaners(b) && c.Covers(o.key) {
          CoveredIsFootprint(b, c, o.key);
        }
      }
    }
  }

  /** So after a change of the namespace override, the old namespace and its service account
      outlive every number of passes of the new configurations, Apply or Delete. */
  lemma EarlierAccessOutlives(cp: string, others: Key -> bool, w: World, script: Script, setups: seq<Setup>,
                              deletions: seq<bool>, n: nat, namespace: string)
    requires n <= |setups| == |deletions| && ActsOnlyOn(script, others) && ListsFaithfully(script)
    requires forall s :: s in setups ==> Separate(s) && s.cp == cp && s.otelNamespace != namespace
    requires !others(Key(cp, Namespace, "", namespace)) && !others(Key(cp, ServiceAccount, namespace, SERVICE_ACCOUNT))
    ensures var after := Interleaved(w, script, setups, deletions, n).store;
            && SameAt(w.store, after, Key(cp, Namespace, "", namespace))
            && SameAt(w.store, after, Key(cp, ServiceAccount, namespace, SERVICE_ACCOUNT))
  {
    hide Interleaved, InFootprint, ActsOnlyOn, ListsFaithfully, SameAt;
    forall s | s in setups
      ensures !InFootprint(s, Key(cp, Namespace, "", namespace))
      ensures !InFootprint(s, Key(cp, ServiceAccount, namespace, SERVICE_ACCOUNT))
    {
      EarlierNamespaceIsReachedIff(s, namespace);
      EarlierAccountIsReachedIff(s, namespace);
    }
    UntouchedStays(Key(cp, Namespace, "", namespace), others, w, script, setups, deletions, n);
    UntouchedStays(Key(cp, ServiceAccount, namespace, SERVICE_ACCOUNT), others, w, script, setups, deletions, n);
  }

  /** Nobody takes the provider's label off an object in a swept place. */
  ghost predicate KeepsLabels(script: Script, cleaners: seq<Cleaner>) {
    forall t: nat, store: Store :: StaysLabelled(cleaners, store, script(t).drift(store))
  }

  ghost predicate StaysLabelled(cleaners: seq<Cleaner>, before: Store, after: Store) {
    forall c, k :: c in cleaners && c.Covers(k) && k in after ==>
      k in before && (Labelled(before[k]) ==> Labelled(after[k]))
  }

  ghost function LabelRelation(cleaners: seq<Cleaner>): Relation {
    (a: World, b: World) => StaysLabelled(cleaners, a.store, b.store)
  }

  lemma LabelsAdmit(cleaners: seq<Cleaner>, script: Script)
    requires KeepsLabels(script, cleaners)
    ensures Admits(LabelRelation(cleaners), script, k => true, true)
  {
    var R := LabelRelation(cleaners);
    forall w ensures R(w, Await(w, script)) && R(w, w) {
      assert StaysLabelled(cleaners, w.store, script(w.tick).drift(w.store));
    }
    forall a, b, c | R(a, b) && R(b, c) ensures R(a, c) {
    }
    forall w, k ensures R(w, Delete(w, script, k).0) {
      var w1 := Await(w, script);
      assert R(w, w1);
      assert StaysLabelled(cleaners, w1.store, Erased(w1.store, k));
    }
  }

  /** When a Delete pass reports completion and the control-plane namespace has not changed,
      everything any earlier configuration of the instance installed is gone. */
  lemma EarlierConfigurationsAreGone(a: Setup, b: Setup, w: World, script: Script)
    requires SameInstance(a, b) && a.otelNamespace == b.otelNamespace
    requires TeardownProgress.OnlyWanes(script, Objects(b), Cleaners(b)) && ListsFaithfully(script)
    requires KeepsLabels(script, Cleaners(b))
    requires forall c, k :: c in Cleaners(b) && c.Covers(k) && k in w.store ==> !w.store[k].held
    requires forall o :: IsObject(a, o) && o.key in w.store ==> Labelled(w.store[o.key])
    requires AllDeleted(Pass(w, script, Objects(b), Cleaners(b), true).reports)
    requires !Pass(w, script, Objects(b), Cleaners(b), true).cleanerFailed
    ensures var left := Pass(w, script, Objects(b), Cleaners(b), true).world.store;
            forall o :: IsObject(a, o) ==> o.key !in left
  {
    hide Pass, Objects, Cleaners, IsObject, TeardownProgress.OnlyWanes, ListsFaithfully, KeepsLabels, StaysLabelled;
    var left := Pass(w, script, Objects(b), Cleaners(b), true).world;
    CompletedTeardownLeavesNothing(b, w, script);
    LabelsAdmit(Cleaners(b), script);
    PassAdmits(LabelRelation(Cleaners(b)), script, k => true, w, Objects(b), Cleaners(b), true);
    assert LabelRelation(Cleaners(b))(w, left);
    forall o | IsObject(a, o) ensures o.key !in left.store {
      EarlierObjectIsGone(a, b, o, w.store, left.store);
    }
  }

  lemma EarlierObjectIsGone(a: Setup, b: Setup, o: ManagedObject, before: Store, left: Store)
    requires SameInstance(a, b) && a.otelNamespace == b.otelNamespace && IsObject(a, o)
    requires o.key in before ==> Labelled(before[o.key])
    requires StaysLabelled(Cleaners(b), before, left)
    requires forall x :: x in Objects(b) ==> x.key !in left
    requires forall c, k :: c in Cleaners(b) && c.Covers(k) && k in left ==> !Labelled(left[k])
    ensures o.key !in left
  {
    assert IsObject(b, CpNamespace(b)) && CpNamespace(b).key == CpNamespace(a).key;
    assert IsObject(b, CpServiceAccount(b)) && CpServiceAccount(b).key == CpServiceAccount(a).key;
    hide Objects, Cleaners, IsObject, CpNamespace, CpServiceAccount;
    Members(b, CpNamespace(b));
    Members(b, CpServiceAccount(b));
    EarlierObject(a, b, o);
    if x :| IsObject(b, x) && x.key == o.key {
      Members(b, x);
    }
  }
}
