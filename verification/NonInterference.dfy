/** Instances do not interfere call by call: whatever happens between two calls of a pass, the
    pass does the same to its own keys, and reports the same, as long as the keys it reads are
    left alone. */
module NonInterference {
  import opened Cluster
  import opened Managed
  import opened Manager
  import opened Graph
  import opened GraphTheorems
  import opened ApplyConvergence
  import opened Isolation
  import TeardownProgress

  ghost predicate Agree(scope: Scope, a: Store, b: Store) {
    forall k :: scope(k) ==> SameAt(a, b, k)
  }

  /** Two scripts that treat the keys in scope alike, and the calls. Elsewhere the environment
      may do one thing in one of them and something else in the other. */
  ghost predicate Alike(scope: Scope, s: Script, t: Script) {
    && (forall n: nat :: s(n).fate == t(n).fate && s(n).listing == t(n).listing
                         && s(n).now == t(n).now && s(n).granted == t(n).granted)
    && (forall n: nat, a: Store, b: Store :: Agree(scope, a, b) ==> Agree(scope, s(n).drift(a), t(n).drift(b)))
  }

  /** Two worlds that cannot be told apart within the scope. */
  ghost predicate Twin(scope: Scope, v: World, w: World) {
    v.tick == w.tick && Agree(scope, v.store, w.store)
  }

  // ----- One call -----

  lemma AwaitTwin(scope: Scope, v: World, w: World, s: Script, t: Script)
    requires Twin(scope, v, w) && Alike(scope, s, t)
    ensures Twin(scope, Await(v, s), Await(w, t))
  {
  }

  lemma GetTwin(scope: Scope, v: World, w: World, s: Script, t: Script, key: Key)
    requires Twin(scope, v, w) && Alike(scope, s, t) && scope(key)
    ensures Twin(scope, Get(v, s, key).0, Get(w, t, key).0) && Get(v, s, key).1 == Get(w, t, key).1
  {
    AwaitTwin(scope, v, w, s, t);
    assert SameAt(Await(v, s).store, Await(w, t).store, key);
  }

  lemma DeleteTwin(scope: Scope, v: World, w: World, s: Script, t: Script, key: Key)
    requires Twin(scope, v, w) && Alike(scope, s, t) && scope(key)
    ensures Twin(scope, Delete(v, s, key).0, Delete(w, t, key).0) && Delete(v, s, key).1 == Delete(w, t, key).1
  {
    AwaitTwin(scope, v, w, s, t);
    var a, b := Await(v, s).store, Await(w, t).store;
    assert SameAt(a, b, key);
    assert Agree(scope, Erased(a, key), Erased(b, key));
  }

  lemma CreateTwin(scope: Scope, v: World, w: World, s: Script, t: Script, key: Key, stored: Stored)
    requires Twin(scope, v, w) && Alike(scope, s, t) && scope(key)
    ensures Twin(scope, Create(v, s, key, stored).0, Create(w, t, key, stored).0)
    ensures Create(v, s, key, stored).1 == Create(w, t, key, stored).1
  {
    AwaitTwin(scope, v, w, s, t);
    assert SameAt(Await(v, s).store, Await(w, t).store, key);
  }

  lemma UpdateTwin(scope: Scope, v: World, w: World, s: Script, t: Script, key: Key, read: Stored, stored: Stored)
    requires Twin(scope, v, w) && Alike(scope, s, t) && scope(key)
    ensures Twin(scope, Update(v, s, key, read, stored).0, Update(w, t, key, read, stored).0)
    ensures Update(v, s, key, read, stored).1 == Update(w, t, key, read, stored).1
  {
    AwaitTwin(scope, v, w, s, t);
    assert SameAt(Await(v, s).store, Await(w, t).store, key);
  }

  lemma ListTwin(scope: Scope, v: World, w: World, s: Script, t: Script, c: Cleaner)
    requires Twin(scope, v, w) && Alike(scope, s, t) && forall k :: c.Covers(k) ==> scope(k)
    ensures var l, m := List(v, s, c.cluster, c.kind, c.namespace), List(w, t, c.cluster, c.kind, c.namespace);
            Twin(scope, l.0, m.0) && l.1 == m.1
  {
    AwaitTwin(scope, v, w, s, t);
    var a, b := Await(v, s).store, Await(w, t).store;
    forall k | c.Covers(k)
      ensures k in Matching(a, c.cluster, c.kind, c.namespace) <==> k in Matching(b, c.cluster, c.kind, c.namespace)
    {
      assert SameAt(a, b, k);
    }
    assert Matching(a, c.cluster, c.kind, c.namespace) == Matching(b, c.cluster, c.kind, c.namespace);
  }

  // ----- One visit -----

  lemma {:induction false} CheckTwin(scope: Scope, v: World, w: World, s: Script, t: Script, ds: seq<ManagedObject>, n: nat)
    requires n <= |ds| && Twin(scope, v, w) && Alike(scope, s, t) && forall d :: d in ds ==> scope(d.key)
    ensures Twin(scope, CheckForDependents(v, s, ds, n).0, CheckForDependents(w, t, ds, n).0)
    ensures CheckForDependents(v, s, ds, n).1 == CheckForDependents(w, t, ds, n).1
  {
    hide Twin, Alike, Get;
    if n > 0 {
      CheckTwin(scope, v, w, s, t, ds, n - 1);
      GetTwin(scope, CheckForDependents(v, s, ds, n - 1).0, CheckForDependents(w, t, ds, n - 1).0, s, t, ds[n - 1].key);
    }
  }

  lemma DeleteVisitTwin(scope: Scope, v: World, w: World, s: Script, t: Script, o: ManagedObject, ds: seq<ManagedObject>)
    requires Twin(scope, v, w) && Alike(scope, s, t) && scope(o.key) && forall d :: d in ds ==> scope(d.key)
    ensures Twin(scope, DeleteVisit(v, s, o, ds).0, DeleteVisit(w, t, o, ds).0)
    ensures DeleteVisit(v, s, o, ds).1 == DeleteVisit(w, t, o, ds).1
  {
    hide Twin, Alike, Delete, CheckForDependents;
    CheckTwin(scope, v, w, s, t, ds, |ds|);
    DeleteTwin(scope, CheckForDependents(v, s, ds, |ds|).0, CheckForDependents(w, t, ds, |ds|).0, s, t, o.key);
  }

  /** What a recipe reads is in scope. */
  ghost predicate ReadsWithin(recipe: Recipe, scope: Scope) {
    match recipe
    case CopyOf(source, _) => scope(source)
    case RefreshToken(account, _, _, _) => scope(account)
    case _ => true
  }

  lemma ReconcileTwin(scope: Scope, v: World, w: World, s: Script, t: Script, recipe: Recipe, current: Payload)
    requires Twin(scope, v, w) && Alike(scope, s, t) && ReadsWithin(recipe, scope)
    ensures Twin(scope, Reconcile(v, s, recipe, current).0, Reconcile(w, t, recipe, current).0)
    ensures Reconcile(v, s, recipe, current).1 == Reconcile(w, t, recipe, current).1
  {
    match recipe
    case CopyOf(source, _) => GetTwin(scope, v, w, s, t, source);
    case RefreshToken(account, _, _, _) =>
      GetTwin(scope, v, w, s, t, account);
      AwaitTwin(scope, Get(v, s, account).0, Get(w, t, account).0, s, t);
    case _ =>
  }

  lemma ApplyVisitTwin(scope: Scope, v: World, w: World, s: Script, t: Script, o: ManagedObject)
    requires Twin(scope, v, w) && Alike(scope, s, t) && scope(o.key) && ReadsWithin(o.recipe, scope)
    ensures Twin(scope, ApplyVisit(v, s, o).0, ApplyVisit(w, t, o).0)
    ensures ApplyVisit(v, s, o).1 == ApplyVisit(w, t, o).1
  {
    hide Twin, Alike, Get, Create, Update, Reconcile, ReadsWithin;
    GetTwin(scope, v, w, s, t, o.key);
    var (v1, reply) := Get(v, s, o.key);
    var w1 := Get(w, t, o.key).0;
    var current := if reply.Found? then reply.stored.payload else Blank;
    ReconcileTwin(scope, v1, w1, s, t, o.recipe, current);
    var (v2, content) := Reconcile(v1, s, o.recipe, current);
    var w2 := Reconcile(w1, t, o.recipe, current).0;
    if content.Ok? && reply.NotFound? {
      CreateTwin(scope, v2, w2, s, t, o.key, SetManagedBy(FRESH).(payload := content.value));
    } else if content.Ok? && reply.Found? {
      UpdateTwin(scope, v2, w2, s, t, o.key, reply.stored, SetManagedBy(reply.stored).(payload := content.value));
    }
  }

  /** Everything a pass reads or writes is in scope. */
  ghost predicate Contained(objs: seq<ManagedObject>, cleaners: seq<Cleaner>, scope: Scope) {
    && (forall o :: o in objs ==> scope(o.key) && ReadsWithin(o.recipe, scope))
    && (forall c, k :: c in cleaners && c.Covers(k) ==> scope(k))
  }

  lemma VisitTwin(scope: Scope, v: World, w: World, s: Script, t: Script, o: ManagedObject, objs: seq<ManagedObject>,
                  isDeletion: bool)
    requires Twin(scope, v, w) && Alike(scope, s, t) && Contained(objs, [], scope) && o in objs
    ensures Twin(scope, Visit(v, s, o, objs, isDeletion).0, Visit(w, t, o, objs, isDeletion).0)
    ensures Visit(v, s, o, objs, isDeletion).1 == Visit(w, t, o, objs, isDeletion).1
  {
    hide Twin, Alike, ApplyVisit, DeleteVisit;
    if isDeletion {
      var ds := DependentsOf(objs, o, |objs|);
      DependentsAreReverseEdges(objs, o, |objs|);
      assert objs[..|objs|] == objs;
      DeleteVisitTwin(scope, v, w, s, t, o, ds);
    } else {
      ApplyVisitTwin(scope, v, w, s, t, o);
    }
  }

  lemma {:induction false} VisitsTwin(scope: Scope, v: World, w: World, s: Script, t: Script, objs: seq<ManagedObject>,
                                      isDeletion: bool, n: nat)
    requires n <= |objs| && Twin(scope, v, w) && Alike(scope, s, t) && Contained(objs, [], scope)
    ensures Twin(scope, Visits(v, s, objs, isDeletion, n).0, Visits(w, t, objs, isDeletion, n).0)
    ensures Visits(v, s, objs, isDeletion, n).1 == Visits(w, t, objs, isDeletion, n).1
  {
    hide Twin, Alike, Contained, Visit;
    if n > 0 {
      VisitsTwin(scope, v, w, s, t, objs, isDeletion, n - 1);
      VisitTwin(scope, Visits(v, s, objs, isDeletion, n - 1).0, Visits(w, t, objs, isDeletion, n - 1).0, s, t,
                objs[n - 1], objs, isDeletion);
    }
  }

  lemma {:induction false} SightedTwin(scope: Scope, v: World, w: World, s: Script, t: Script, ds: seq<ManagedObject>, n: nat,
                                       known: Sightings)
    requires n <= |ds| && Twin(scope, v, w) && Alike(scope, s, t) && forall d :: d in ds ==> scope(d.key)
    ensures Sighted(v, s, ds, n, known) == Sighted(w, t, ds, n, known)
  {
    hide Twin, Alike, Get, CheckForDependents;
    if n > 0 {
      SightedTwin(scope, v, w, s, t, ds, n - 1, known);
      CheckTwin(scope, v, w, s, t, ds, n - 1);
      GetTwin(scope, CheckForDependents(v, s, ds, n - 1).0, CheckForDependents(w, t, ds, n - 1).0, s, t, ds[n - 1].key);
    }
  }

  lemma {:induction false} SightedByTwin(scope: Scope, v: World, w: World, s: Script, t: Script, objs: seq<ManagedObject>,
                                         isDeletion: bool, n: nat, known: Sightings)
    requires n <= |objs| && Twin(scope, v, w) && Alike(scope, s, t) && Contained(objs, [], scope)
    ensures SightedBy(v, s, objs, isDeletion, n, known) == SightedBy(w, t, objs, isDeletion, n, known)
  {
    hide Twin, Alike, Visits, Sighted;
    if n > 0 && isDeletion {
      var ds := DependentsOf(objs, objs[n - 1], |objs|);
      DependentsAreReverseEdges(objs, objs[n - 1], |objs|);
      assert objs[..|objs|] == objs;
      SightedByTwin(scope, v, w, s, t, objs, isDeletion, n - 1, known);
      VisitsTwin(scope, v, w, s, t, objs, isDeletion, n - 1);
      SightedTwin(scope, Visits(v, s, objs, isDeletion, n - 1).0, Visits(w, t, objs, isDeletion, n - 1).0, s, t, ds, |ds|,
                  SightedBy(v, s, objs, isDeletion, n - 1, known));
    }
  }

  // ----- The cleaners -----

  lemma {:induction false} SweepTwin(scope: Scope, v: World, w: World, s: Script, t: Script, c: Cleaner, items: seq<Key>,
                                     n: nat)
    requires n <= |items| && Twin(scope, v, w) && Alike(scope, s, t) && forall k :: k in items ==> scope(k)
    ensures Twin(scope, SweepItems(v, s, c, items, n).0, SweepItems(w, t, c, items, n).0)
    ensures SweepItems(v, s, c, items, n).1 == SweepItems(w, t, c, items, n).1
  {
    hide Twin, Alike, Delete;
    if n > 0 {
      SweepTwin(scope, v, w, s, t, c, items, n - 1);
      DeleteTwin(scope, SweepItems(v, s, c, items, n - 1).0, SweepItems(w, t, c, items, n - 1).0, s, t, items[n - 1]);
    }
  }

  lemma CleanupTwin(scope: Scope, v: World, w: World, s: Script, t: Script, c: Cleaner)
    requires Twin(scope, v, w) && Alike(scope, s, t) && ListsFaithfully(s) && forall k :: c.Covers(k) ==> scope(k)
    ensures Twin(scope, Cleanup(v, s, c).0, Cleanup(w, t, c).0)
    ensures Cleanup(v, s, c).1 == Cleanup(w, t, c).1 && Cleanup(v, s, c).2 == Cleanup(w, t, c).2
  {
    hide Twin, Alike, List, SweepItems, ListsFaithfully;
    ListTwin(scope, v, w, s, t, c);
    var (v1, reply) := List(v, s, c.cluster, c.kind, c.namespace);
    if reply.Listed? {
      TeardownSafety.ListedAreCovered(v, s, c);
      SweepTwin(scope, v1, List(w, t, c.cluster, c.kind, c.namespace).0, s, t, c, reply.keys, |reply.keys|);
    }
  }

  lemma {:induction false} CleanupsTwin(scope: Scope, v: World, w: World, s: Script, t: Script, cleaners: seq<Cleaner>,
                                        n: nat)
    requires n <= |cleaners| && Twin(scope, v, w) && Alike(scope, s, t) && ListsFaithfully(s)
    requires Contained([], cleaners, scope)
    ensures Twin(scope, Cleanups(v, s, cleaners, n).0, Cleanups(w, t, cleaners, n).0)
    ensures Cleanups(v, s, cleaners, n).1 == Cleanups(w, t, cleaners, n).1
    ensures Cleanups(v, s, cleaners, n).2 == Cleanups(w, t, cleaners, n).2
  {
    hide Twin, Alike, Cleanup, ListsFaithfully;
    if n > 0 {
      CleanupsTwin(scope, v, w, s, t, cleaners, n - 1);
      assert cleaners[n - 1] in cleaners;
      CleanupTwin(scope, Cleanups(v, s, cleaners, n - 1).0, Cleanups(w, t, cleaners, n - 1).0, s, t, cleaners[n - 1]);
    }
  }

  // ----- A pass -----

  /** A pass depends on nothing outside its scope: alike scripts and stores that agree within it
      give the same reports, and stores that agree within it again. */
  lemma PassSeesOnlyItsScope(scope: Scope, v: World, w: World, s: Script, t: Script, objs: seq<ManagedObject>,
                             cleaners: seq<Cleaner>, isDeletion: bool)
    requires Twin(scope, v, w) && Alike(scope, s, t) && ListsFaithfully(s) && Contained(objs, cleaners, scope)
    ensures var p, q := Pass(v, s, objs, cleaners, isDeletion), Pass(w, t, objs, cleaners, isDeletion);
            p.reports == q.reports && p.cleanerFailed == q.cleanerFailed && Twin(scope, p.world, q.world)
  {
    hide Twin, Alike, Visits, Cleanups, ListsFaithfully;
    VisitsTwin(scope, v, w, s, t, objs, isDeletion, |objs|);
    CleanupsTwin(scope, Visits(v, s, objs, isDeletion, |objs|).0, Visits(w, t, objs, isDeletion, |objs|).0, s, t,
                 cleaners, |cleaners|);
  }

  // ----- Instances -----

  /** What an instance's passes read or write: its footprint, and the provider's own namespace,
      from which copies are made. */
  ghost predicate InView(s: Setup, k: Key) {
    InFootprint(s, k) || (k.cluster == s.platform && k.namespace == s.podNamespace && k.kind != Namespace)
  }

  ghost function View(s: Setup): Scope {
    k => InView(s, k)
  }

  lemma GraphIsContained(s: Setup)
    ensures Contained(Objects(s), Cleaners(s), View(s))
  {
    hide Objects, Cleaners, IsObject;
    forall o | o in Objects(s) ensures InView(s, o.key) && ReadsWithin(o.recipe, View(s)) {
      Members(s, o);
      ObjectReadsWithin(s, o);
    }
    forall c, k | c in Cleaners(s) && c.Covers(k) ensures InView(s, k) {
      CoveredIsFootprint(s, c, k);
    }
  }

  lemma ObjectReadsWithin(s: Setup, o: ManagedObject)
    requires IsObject(s, o)
    ensures ReadsWithin(o.recipe, View(s))
  {
    if o == TokenSecret(s) {
      assert IsObject(s, CpServiceAccount(s));
    }
  }

  /** The same script with the environment doing nothing. */
  function Alone(script: Script): Script {
    (t: nat) => script(t).(drift := (store: Store) => store)
  }

  lemma AloneIsAlike(script: Script, others: Scope, scope: Scope)
    requires ActsOnlyOn(script, others) && forall k :: scope(k) ==> !others(k)
    ensures Alike(scope, script, Alone(script))
  {
    forall n: nat, a: Store, b: Store | Agree(scope, a, b)
      ensures Agree(scope, script(n).drift(a), Alone(script)(n).drift(b))
    {
      forall k | scope(k) ensures SameAt(script(n).drift(a), b, k) {
        assert SameAt(a, script(n).drift(a), k) && SameAt(a, b, k);
      }
    }
  }

  /** Passes of other instances, or anyone else, running between the calls of this instance's
      pass and keeping to keys it does not look at, make no difference: the pass reports what it
      would have reported alone, and leaves its own keys as it would have left them alone. */
  lemma SameAsAlone(s: Setup, w: World, script: Script, others: Scope, isDeletion: bool)
    requires ListsFaithfully(script) && ActsOnlyOn(script, others) && forall k :: others(k) ==> !InView(s, k)
    ensures var together := Pass(w, script, Objects(s), Cleaners(s), isDeletion);
            var alone := Pass(w, Alone(script), Objects(s), Cleaners(s), isDeletion);
            && together.reports == alone.reports && together.cleanerFailed == alone.cleanerFailed
            && SightedBy(w, script, Objects(s), isDeletion, |Objects(s)|, map[])
               == SightedBy(w, Alone(script), Objects(s), isDeletion, |Objects(s)|, map[])
            && forall k :: InFootprint(s, k) ==> SameAt(together.world.store, alone.world.store, k)
  {
    hide Pass, SightedBy, Objects, Cleaners, Contained, InFootprint, ListsFaithfully, ActsOnlyOn;
    GraphIsContained(s);
    AloneIsAlike(script, others, View(s));
    PassSeesOnlyItsScope(View(s), w, w, script, Alone(script), Objects(s), Cleaners(s), isDeletion);
    ContainedObjects(Objects(s), Cleaners(s), View(s));
    SightedByTwin(View(s), w, w, script, Alone(script), Objects(s), isDeletion, |Objects(s)|, map[]);
  }

  lemma ContainedObjects(objs: seq<ManagedObject>, cleaners: seq<Cleaner>, scope: Scope)
    requires Contained(objs, cleaners, scope)
    ensures Contained(objs, [], scope)
  {
  }

  /** So an error-free Apply leaves exactly the wanted copies also amid other instances. */
  lemma WantedAmidOthers(s: Setup, w: World, script: Script, others: Scope, c: Cleaner, k: Key)
    requires Separate(s) && TokenNameIsFree(s) && s.podNamespace != s.tenantNamespace
    requires ListsFaithfully(script) && ActsOnlyOn(script, others) && forall x :: others(x) ==> !InView(s, x)
    requires Pass(w, script, Objects(s), Cleaners(s), false).Clean()
    requires c in Cleaners(s) && c.Covers(k)
    ensures var after := Pass(w, script, Objects(s), Cleaners(s), false).world.store;
            && (k.name in c.keep ==> k in after && Labelled(after[k]))
            && (k.name !in c.keep && k in after && Labelled(after[k]) ==> after[k].held && after[k].terminating)
  {
    hide Pass, Objects, Cleaners, InFootprint, ActsOnlyOn;
    SameAsAlone(s, w, script, others, false);
    assert ListsFaithfully(Alone(script)) && Silent(Alone(script));
    hide ListsFaithfully, Silent;
    ApplyLeavesExactlyTheWanted(s, w, Alone(script), c, k);
    CoveredIsFootprint(s, c, k);
    assert SameAt(Pass(w, script, Objects(s), Cleaners(s), false).world.store,
                  Pass(w, Alone(script), Objects(s), Cleaners(s), false).world.store, k);
  }

  /** What another instance writes, this one does not look at, if they do not share a namespace:
      so whatever calls of the other instance's passes fall between its own, they make no
      difference. */
  lemma FootprintIsOutOfView(a: Setup, b: Setup, k: Key)
    requires OwnControlPlanes(a, b) && OwnTenants(a, b)
    requires !(a.workload == b.workload && a.workloadNamespace == b.workloadNamespace)
    requires a.platform != b.platform || b.tenantNamespace != a.podNamespace
    ensures InFootprint(b, k) ==> !InView(a, k)
  {
    hide InFootprint;
    FootprintsAreDisjointIff(a, b);
    if InFootprint(b, k) {
      FootprintBounds(b, k);
    }
  }

  /** Others who keep to keys this instance does not look at leave its teardown to wane. */
  lemma OthersOnlyWane(s: Setup, script: Script, others: Scope)
    requires ActsOnlyOn(script, others) && forall k :: others(k) ==> !InView(s, k)
    ensures TeardownProgress.OnlyWanes(script, Objects(s), Cleaners(s))
  {
    hide Objects, Cleaners, InFootprint;
    GraphIsContained(s);
    forall t: nat, store: Store ensures TeardownProgress.Waned(Objects(s), Cleaners(s), store, script(t).drift(store)) {
      forall k | InView(s, k) ensures SameAt(store, script(t).drift(store), k) {
      }
      assert forall o :: o in Objects(s) ==> View(s)(o.key);
      assert forall c, k :: c in Cleaners(s) && c.Covers(k) ==> View(s)(k);
    }
  }

  /** They never make its objects heavier: every run amid others is one a fair teardown can bear. */
  lemma OthersAddNoWeight(s: Setup, script: Script, others: Scope)
    requires ListsFaithfully(script) && ActsOnlyOn(script, others) && forall k :: others(k) ==> !InView(s, k)
    ensures TeardownProgress.Adversary(script, KeysOf(Objects(s)))
  {
    hide Objects, Cleaners, InFootprint;
    GraphIsContained(s);
    forall t: nat, store: Store
      ensures TeardownProgress.Lighter(KeysOf(Objects(s)), store, script(t).drift(store))
    {
      forall k | KeysOf(Objects(s))(k)
        ensures TeardownProgress.Weight(script(t).drift(store), k) <= TeardownProgress.Weight(store, k)
      {
        assert View(s)(k);
        assert SameAt(store, script(t).drift(store), k);
      }
    }
  }

  /** So a completed teardown leaves nothing also amid other instances. */
  lemma NothingLeftAmidOthers(s: Setup, w: World, script: Script, others: Scope)
    requires ListsFaithfully(script) && ActsOnlyOn(script, others) && forall k :: others(k) ==> !InView(s, k)
    requires forall c, k :: c in Cleaners(s) && c.Covers(k) && k in w.store ==> !w.store[k].held
    requires AllDeleted(Pass(w, script, Objects(s), Cleaners(s), true).reports)
    requires !Pass(w, script, Objects(s), Cleaners(s), true).cleanerFailed
    ensures var left := Pass(w, script, Objects(s), Cleaners(s), true).world.store;
            && (forall o :: o in Objects(s) ==> o.key !in left)
            && (forall c, k :: c in Cleaners(s) && c.Covers(k) && k in left ==> !Labelled(left[k]))
  {
    hide Pass, Objects, Cleaners, InView, ActsOnlyOn, ListsFaithfully, TeardownProgress.OnlyWanes;
    OthersOnlyWane(s, script, others);
    CompletedTeardownLeavesNothing(s, w, script);
  }
}
