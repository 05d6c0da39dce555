/** Facts about the controller's object graph, for every configuration, and what the engine's
    theorems say about it. */
module GraphTheorems {
  import opened Wrappers
  import opened Cluster
  import opened Managed
  import opened Manager
  import opened Graph
  import opened HelmValues
  import opened TeardownSafety
  import opened TeardownRounds
  import opened TeardownRuns
  import TeardownProgress
  import ApplyConvergence

  /** Control plane, workload cluster and platform cluster are three clusters. */
  ghost predicate Separate(s: Setup) {
    s.cp != s.workload && s.cp != s.platform && s.workload != s.platform
  }

  // ----- The shape of the list -----

  /** The objects copied from the provider's namespace. */
  ghost predicate IsCopy(s: Setup, o: ManagedObject) {
    || (s.ca.Some? && o == CaConfigMap(s, s.ca.value))
    || (exists n :: n in s.pulls && o == PullSecret(s, n))
    || (s.chart.Some? && o == ChartPullSecret(s, s.chart.value))
  }

  lemma {:induction false} PullSecretsAreCopies(s: Setup, n: nat)
    requires n <= |s.pulls|
    ensures forall o :: o in PullSecrets(s, s.pulls, n) <==> exists name :: name in s.pulls[..n] && o == PullSecret(s, name)
  {
    hide PullSecret;
    if n > 0 {
      PullSecretsAreCopies(s, n - 1);
      assert s.pulls[..n] == s.pulls[..n - 1] + [s.pulls[n - 1]];
    }
  }

  /** Five fixed objects, copies, and the three Flux objects. */
  lemma Layout(s: Setup)
    ensures var objs := Objects(s);
            && |objs| >= 8
            && objs[..5] == CpObjects(s) + [WorkloadNamespace(s), TokenSecret(s)]
            && objs[|objs| - 3..] == FluxObjects(s)
            && (forall o :: o in objs[5..|objs| - 3] <==> IsCopy(s, o))
  {
    hide CpNamespace, WorkloadNamespace, TokenSecret, CpServiceAccount, CpBinding, PullSecrets, CaConfigMap, ChartPullSecret,
         PullSecret, ChartRepository, CrdRelease, WorkloadRelease;
    PullSecretsAreCopies(s, |s.pulls|);
    assert s.pulls[..|s.pulls|] == s.pulls;
    var ca := if s.ca.Some? then [CaConfigMap(s, s.ca.value)] else [];
    var pulls := PullSecrets(s, s.pulls, |s.pulls|);
    var chart := if s.chart.Some? then [ChartPullSecret(s, s.chart.value)] else [];
    var first := CpObjects(s) + [WorkloadNamespace(s), TokenSecret(s)];
    var copies := ca + pulls + chart;
    assert Objects(s) == first + copies + FluxObjects(s);
    assert Objects(s)[5..|Objects(s)| - 3] == copies;
  }

  /** An object at a place in the list. */
  lemma Placed(s: Setup, i: nat)
    requires i < |Objects(s)|
    ensures var objs := Objects(s);
            var o := objs[i];
            if i == 0 then o == CpNamespace(s)
            else if i == 1 then o == CpServiceAccount(s)
            else if i == 2 then o == CpBinding(s)
            else if i == 3 then o == WorkloadNamespace(s)
            else if i == 4 then o == TokenSecret(s)
            else if i < |objs| - 3 then IsCopy(s, o)
            else if i == |objs| - 3 then o == ChartRepository(s)
            else if i == |objs| - 2 then o == CrdRelease(s)
            else o == WorkloadRelease(s)
  {
    hide CpNamespace, WorkloadNamespace, TokenSecret, CpServiceAccount, CpBinding, IsCopy,
         ChartRepository, CrdRelease, WorkloadRelease, Objects;
    Layout(s);
    var objs := Objects(s);
    if i < 5 {
      assert objs[i] == objs[..5][i];
    } else if i < |objs| - 3 {
      assert objs[i] == objs[5..|objs| - 3][i - 5];
      assert objs[i] in objs[5..|objs| - 3];
    } else {
      assert objs[i] == objs[|objs| - 3..][i - (|objs| - 3)];
    }
  }

  /** Every object is one of eight fixed ones or a copy. */
  ghost predicate IsObject(s: Setup, o: ManagedObject) {
    || o == CpNamespace(s) || o == CpServiceAccount(s) || o == CpBinding(s)
    || o == WorkloadNamespace(s) || o == TokenSecret(s)
    || o == ChartRepository(s) || o == CrdRelease(s) || o == WorkloadRelease(s)
    || IsCopy(s, o)
  }

  lemma Members(s: Setup, o: ManagedObject)
    ensures o in Objects(s) <==> IsObject(s, o)
  {
    hide CpNamespace, WorkloadNamespace, TokenSecret, CpServiceAccount, CpBinding, IsCopy,
         ChartRepository, CrdRelease, WorkloadRelease, Objects;
    Layout(s);
    var objs := Objects(s);
    if o in objs {
      var i :| 0 <= i < |objs| && objs[i] == o;
      Placed(s, i);
    }
    Placed(s, 0);
    Placed(s, 1);
    Placed(s, 2);
    Placed(s, 3);
    Placed(s, 4);
    Placed(s, |objs| - 3);
    Placed(s, |objs| - 2);
    Placed(s, |objs| - 1);
    if IsCopy(s, o) {
      assert o in objs[5..|objs| - 3];
    }
  }

  // ----- Order and identity -----

  lemma CopiesHaveNoDependencies(s: Setup, o: ManagedObject)
    requires IsCopy(s, o)
    ensures o.deps == [] && o.recipe.CopyOf? && o.policy == DeleteIt
  {
  }

  /** For every configuration the flattened list is a topological order of the graph. */
  lemma GraphIsDependencyFirst(s: Setup)
    requires Separate(s)
    ensures DependencyFirst(Objects(s))
  {
    hide Objects, IsCopy;
    var objs := Objects(s);
    forall x, y | x in objs && y in x.deps ensures y in objs {
      Members(s, x);
      Members(s, y);
      if IsCopy(s, x) {
        CopiesHaveNoDependencies(s, x);
      }
    }
    forall i, j | 0 <= i < |objs| && 0 <= j < |objs| && objs[i] in objs[j].deps ensures i < j {
      Layout(s);
      Placed(s, i);
      Placed(s, j);
      if 5 <= j < |objs| - 3 {
        CopiesHaveNoDependencies(s, objs[j]);
      } else if 5 <= i < |objs| - 3 {
        CopiesHaveNoDependencies(s, objs[i]);
      }
    }
  }

  ghost predicate TokenNameIsFree(s: Setup) {
    TOKEN_SECRET !in s.pulls
  }

  /** The object stored under a key, if names do not collide. */
  function ObjectAt(s: Setup, k: Key): ManagedObject {
    match k.kind
    case Namespace => if k.cluster == s.cp then CpNamespace(s) else WorkloadNamespace(s)
    case ServiceAccount => CpServiceAccount(s)
    case ClusterRoleBinding => CpBinding(s)
    case ConfigMap => CaConfigMap(s, if s.ca.Some? then s.ca.value else CaRef("", ""))
    case Secret =>
      if k.cluster == s.platform then ChartPullSecret(s, if s.chart.Some? then s.chart.value else ChartSecret("", ""))
      else if k.name == TOKEN_SECRET then TokenSecret(s)
      else PullSecret(s, k.name)
    case OCIRepository => ChartRepository(s)
    case HelmRelease => if k.name == s.name + "-crds" then CrdRelease(s) else WorkloadRelease(s)
  }

  lemma ObjectOfKey(s: Setup, o: ManagedObject)
    requires Separate(s) && TokenNameIsFree(s) && IsObject(s, o)
    ensures o == ObjectAt(s, o.key)
  {
    assert |s.name + "-crds"| != |s.name + "-workload"|;
  }

  /** Managed objects have distinct keys exactly when no pull secret has the token secret's name. */
  lemma GraphIsKeyedApartIff(s: Setup)
    requires Separate(s)
    ensures KeyedApart(Objects(s)) <==> TokenNameIsFree(s)
  {
    hide Objects, IsObject, ObjectAt;
    if TokenNameIsFree(s) {
      forall x, y | x in Objects(s) && y in Objects(s) && x.key == y.key ensures x == y {
        Members(s, x);
        Members(s, y);
        ObjectOfKey(s, x);
        ObjectOfKey(s, y);
      }
    } else {
      TokenNameClashes(s);
    }
  }

  lemma TokenNameClashes(s: Setup)
    requires TOKEN_SECRET in s.pulls
    ensures !KeyedApart(Objects(s))
  {
    hide Objects;
    var x, y := TokenSecret(s), PullSecret(s, TOKEN_SECRET);
    assert IsCopy(s, y);
    Members(s, x);
    Members(s, y);
    assert x.key == y.key && x.recipe != y.recipe;
  }

  /** No cleaner removes a managed object. */
  lemma GraphIsSpared(s: Setup, c: Cleaner, o: ManagedObject)
    requires Separate(s) && c in Cleaners(s) && IsObject(s, o)
    ensures !c.Removes(o.key)
  {
    hide IsCopy;
    if IsCopy(s, o) {
      CopyIsSpared(s, c, o);
    }
  }

  lemma CopyIsSpared(s: Setup, c: Cleaner, o: ManagedObject)
    requires Separate(s) && c in Cleaners(s) && IsCopy(s, o)
    ensures !c.Removes(o.key)
  {
  }

  lemma GraphIsWellPosed(s: Setup)
    requires Separate(s) && TokenNameIsFree(s)
    ensures WellPosed(Objects(s), Cleaners(s))
  {
    GraphIsDependencyFirst(s);
    GraphIsKeyedApartIff(s);
    hide Objects, IsObject, Cleaners;
    forall c, o | c in Cleaners(s) && o in Objects(s) ensures !c.Removes(o.key) {
      Members(s, o);
      GraphIsSpared(s, c, o);
    }
  }

  /** What a cleaner keeps is what is managed in its namespace. */
  lemma GraphKeepsManaged(s: Setup)
    ensures TeardownProgress.KeepsManaged(Cleaners(s), Objects(s))
  {
    hide Objects;
    forall c, k | c in Cleaners(s) && c.Covers(k) && k.name in c.keep
      ensures exists o :: o in Objects(s) && o.key == k && o.policy != Orphan
    {
      if k.kind == ConfigMap {
        var o := CaConfigMap(s, s.ca.value);
        Members(s, o);
        assert o.key == k;
      } else if c == Cleaners(s)[1] && k.name in s.pulls {
        var o := PullSecret(s, k.name);
        Members(s, o);
        assert o.key == k;
      } else if c == Cleaners(s)[1] {
        var o := TokenSecret(s);
        Members(s, o);
        assert o.key == k;
      } else {
        var o := ChartPullSecret(s, s.chart.value);
        Members(s, o);
        assert o.key == k;
      }
    }
  }

  lemma GraphIsDeletable(s: Setup)
    ensures forall o :: o in Objects(s) ==> o.policy == DeleteIt
  {
    hide Objects;
    forall o | o in Objects(s) ensures o.policy == DeleteIt {
      Members(s, o);
    }
  }

  lemma DepthOfOne(o: ManagedObject, d: ManagedObject)
    requires o.deps == [d]
    ensures Depth(o) == 1 + Depth(d)
  {
    assert o.deps[1..] == [];
    assert DepthOfAll(o, []) == 0;
  }

  lemma FixedDepths(s: Setup)
    ensures Depth(CpNamespace(s)) == Depth(CpBinding(s)) == Depth(WorkloadNamespace(s)) == Depth(ChartRepository(s)) == 0
    ensures Depth(CpServiceAccount(s)) == Depth(CrdRelease(s)) == 1
    ensures Depth(TokenSecret(s)) == Depth(WorkloadRelease(s)) == 2
  {
    DepthOfOne(CpServiceAccount(s), CpNamespace(s));
    DepthOfOne(TokenSecret(s), CpServiceAccount(s));
    DepthOfOne(CrdRelease(s), ChartRepository(s));
    var w := WorkloadRelease(s);
    assert w.deps[1..] == [CrdRelease(s)] && w.deps[1..][1..] == [];
    assert DepthOfAll(w, []) == 0;
    assert DepthOfAll(w, [CrdRelease(s)]) == 2;
  }

  /** The longest dependency chain has two edges, whatever is configured. */
  lemma GraphHasDepthTwo(s: Setup)
    ensures LongestChain(Objects(s), |Objects(s)|) == 2
  {
    FixedDepths(s);
    var objs := Objects(s);
    LongestChainBounds(objs, |objs|);
    hide Depth, Objects, LongestChain;
    assert objs[..|objs|] == objs;
    Members(s, TokenSecret(s));
    forall o | o in objs ensures Depth(o) <= 2 {
      Members(s, o);
      if IsCopy(s, o) {
        CopiesHaveNoDependencies(s, o);
        LeavesHaveDepthZero(o);
      }
    }
    var deepest :| deepest in objs && Depth(deepest) == LongestChain(objs, |objs|);
  }

  lemma LeavesHaveDepthZero(o: ManagedObject)
    requires o.deps == []
    ensures Depth(o) == 0
  {
  }

  // ----- Consequences -----

  /** With everything installed, calls served and finalizers completing before the next pass,
      teardown reports completion on the fourth pass and not before, for every configuration. */
  lemma TeardownTakesFourPasses(s: Setup, w: World, steps: History, k: nat)
    requires Separate(s) && TokenNameIsFree(s)
    requires QuietRun(steps) && Prompt(Objects(s), Cleaners(s), w, steps) && Installed(Objects(s), w.store)
    ensures AllDeleted(OutcomeOf(w, steps, Objects(s), Cleaners(s), k).reports) <==> k + 1 >= 4
  {
    hide Objects, Cleaners, OutcomeOf, KeyedApart, LongestChain, Installed, QuietRun, Prompt;
    GraphIsWellPosed(s);
    GraphIsDependencyFirst(s);
    GraphIsDeletable(s);
    GraphHasDepthTwo(s);
    Members(s, CpNamespace(s));
    ExactNumberOfPasses(Objects(s), Cleaners(s), w, steps, k);
  }

  /** Every fair teardown completes, for every configuration and from every store. */
  lemma FairTeardownCompletes(s: Setup, w: World, steps: History)
    requires Separate(s)
    requires TeardownProgress.Hostile(Objects(s), steps) && TeardownProgress.Fair(Objects(s), Cleaners(s), w, steps)
    ensures exists m: nat :: TeardownProgress.CompleteFrom(Objects(s), Cleaners(s), w, steps, m)
  {
    hide Objects, Cleaners, TeardownProgress.Hostile, TeardownProgress.Fair, TeardownProgress.CompleteFrom;
    GraphIsDependencyFirst(s);
    GraphIsDeletable(s);
    TeardownProgress.FairRunsReportCompletion(Objects(s), Cleaners(s), w, steps);
  }

  /** When a Delete pass reports completion, nothing of this configuration is left, and no
      labelled Secret or ConfigMap of any configuration is left in the instance and tenant
      namespaces, provided such copies carry no finalizers. */
  lemma CompletedTeardownLeavesNothing(s: Setup, w: World, script: Script)
    requires TeardownProgress.OnlyWanes(script, Objects(s), Cleaners(s)) && ListsFaithfully(script)
    requires forall c, k :: c in Cleaners(s) && c.Covers(k) && k in w.store ==> !w.store[k].held
    requires AllDeleted(Pass(w, script, Objects(s), Cleaners(s), true).reports)
    requires !Pass(w, script, Objects(s), Cleaners(s), true).cleanerFailed
    ensures var left := Pass(w, script, Objects(s), Cleaners(s), true).world.store;
            && (forall o :: o in Objects(s) ==> o.key !in left)
            && (forall c, k :: c in Cleaners(s) && c.Covers(k) && k in left ==> !Labelled(left[k]))
  {
    hide Objects, Cleaners, Pass, TeardownProgress.OnlyWanes, ListsFaithfully;
    GraphKeepsManaged(s);
    GraphIsDeletable(s);
    TeardownProgress.CompletionMeansClean(Objects(s), Cleaners(s), w, script);
  }

  lemma GraphSourcesApart(s: Setup)
    requires Separate(s) && s.podNamespace != s.tenantNamespace
    ensures ApplyConvergence.SourcesApart(Objects(s), Cleaners(s))
  {
    hide Objects;
    forall o | o in Objects(s) && o.recipe.CopyOf?
      ensures forall x :: x in Objects(s) ==> x.key != o.recipe.source
      ensures forall c :: c in Cleaners(s) ==> !c.Removes(o.recipe.source)
    {
      Members(s, o);
      CopiesReadTheProvider(s, o);
      forall x | x in Objects(s) ensures x.key != o.recipe.source {
        Members(s, x);
        WritesStayAway(s, x);
      }
    }
  }

  lemma CopiesReadTheProvider(s: Setup, o: ManagedObject)
    requires IsObject(s, o) && o.recipe.CopyOf?
    ensures o.recipe.source.cluster == s.platform && o.recipe.source.namespace == s.podNamespace
  {
  }

  /** Managed objects of the platform cluster live in the tenant namespace. */
  lemma WritesStayAway(s: Setup, x: ManagedObject)
    requires Separate(s) && IsObject(s, x)
    ensures x.key.cluster == s.platform ==> x.key.namespace == s.tenantNamespace
  {
  }

  /** After an error-free Apply, the labelled objects of each swept kind and namespace are
      exactly the wanted ones; anything else still there is held and terminating. */
  lemma ApplyLeavesExactlyTheWanted(s: Setup, w: World, script: Script, c: Cleaner, k: Key)
    requires Separate(s) && TokenNameIsFree(s) && s.podNamespace != s.tenantNamespace
    requires Silent(script) && ListsFaithfully(script)
    requires Pass(w, script, Objects(s), Cleaners(s), false).Clean()
    requires c in Cleaners(s) && c.Covers(k)
    ensures var after := Pass(w, script, Objects(s), Cleaners(s), false).world.store;
            && (k.name in c.keep ==> k in after && Labelled(after[k]))
            && (k.name !in c.keep && k in after && Labelled(after[k]) ==> after[k].held && after[k].terminating)
  {
    hide Objects, Cleaners, Pass, Silent, ListsFaithfully, KeyedApart, ApplyConvergence.SourcesApart;
    GraphIsWellPosed(s);
    GraphSourcesApart(s);
    GraphKeepsManaged(s);
    ApplyConvergence.ConvergedIsStable(Objects(s), Cleaners(s), w, script);
    if k.name !in c.keep {
      assert c.Removes(k);
    }
  }
}
