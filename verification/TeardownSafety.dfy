/** Safety of teardown: whatever fails and whatever the environment does, at every moment of
    every run of Delete passes, nothing is deleted while something that depends on it exists. */
module TeardownSafety {
  import opened Cluster
  import opened Managed
  import opened Manager

  /** No delete call has been issued on a dependency of an existing object. When nobody else
      deletes (`strict`), such a dependency also still exists. */
  ghost predicate Good(objs: seq<ManagedObject>, strict: bool, i: Instant) {
    && (forall x, y :: x in objs && y in x.deps && x.key in i.store ==>
          y.key !in i.requested && (strict ==> y.key in i.store))
    && (strict ==> forall y :: y in objs && y.key in i.store && i.store[y.key].terminating ==> y.key in i.requested)
  }

  ghost predicate Always(objs: seq<ManagedObject>, strict: bool, w: World) {
    Good(objs, strict, w.Present()) && forall i :: 0 <= i < |w.trail| ==> Good(objs, strict, w.trail[i])
  }

  /** Nobody else creates managed objects, or deletes them in the strict case. Elsewhere anyone may
      do anything. */
  ghost predicate Environment(objs: seq<ManagedObject>, script: Script, strict: bool) {
    && NeverCreates(script, KeysOf(objs)) && ListsFaithfully(script)
    && (strict ==> NoForeignDeletes(script, KeysOf(objs)))
  }

  /** No managed object has come into being. */
  ghost predicate NoneAdded(objs: seq<ManagedObject>, before: Store, after: Store) {
    forall o :: o in objs && o.key in after ==> o.key in before
  }

  /** Cleaners leave managed objects alone. */
  ghost predicate Spares(cleaners: seq<Cleaner>, objs: seq<ManagedObject>) {
    forall c, o :: c in cleaners && o in objs ==> !c.Removes(o.key)
  }

  ghost predicate WellPosed(objs: seq<ManagedObject>, cleaners: seq<Cleaner>) {
    Closed(objs) && KeyedApart(objs) && Spares(cleaners, objs)
  }

  /** Every object that depends on one stored under `key` is gone. */
  ghost predicate NothingDependsOn(objs: seq<ManagedObject>, key: Key, store: Store) {
    forall x, y :: x in objs && y in x.deps && y.key == key ==> x.key !in store
  }

  // ----- One call -----

  lemma AwaitKeeps(objs: seq<ManagedObject>, strict: bool, w: World, script: Script)
    requires Closed(objs) && Environment(objs, script, strict) && Always(objs, strict, w)
    ensures Always(objs, strict, Await(w, script))
    ensures NoneAdded(objs, w.store, Await(w, script).store)
  {
    var after := script(w.tick).drift(w.store);
    forall o | o in objs && o.key in after ensures o.key in w.store {
      assert KeysOf(objs)(o.key);
    }
    forall o | strict && o in objs && o.key in w.store && !w.store[o.key].terminating
      ensures o.key in after && !after[o.key].terminating
    {
      assert KeysOf(objs)(o.key);
    }
    assert Good(objs, strict, Instant(after, w.requested));
  }

  lemma DeleteKeeps(objs: seq<ManagedObject>, strict: bool, w: World, script: Script, key: Key)
    requires Closed(objs) && Environment(objs, script, strict) && Always(objs, strict, w)
    requires NothingDependsOn(objs, key, w.store)
    ensures var w' := Delete(w, script, key).0;
            Always(objs, strict, w') && NoneAdded(objs, w.store, w'.store)
  {
    AwaitKeeps(objs, strict, w, script);
    var w' := Delete(w, script, key).0;
    assert Good(objs, strict, w'.Present());
  }

  lemma GetKeeps(objs: seq<ManagedObject>, strict: bool, w: World, script: Script, key: Key)
    requires Closed(objs) && Environment(objs, script, strict) && Always(objs, strict, w)
    ensures var (w', reply) := Get(w, script, key);
            && Always(objs, strict, w') && NoneAdded(objs, w.store, w'.store)
            && (reply.NotFound? ==> key !in w'.store)
  {
    AwaitKeeps(objs, strict, w, script);
  }

  // ----- One visit -----

  lemma {:induction false} CheckKeeps(objs: seq<ManagedObject>, strict: bool, w: World, script: Script,
                                      ds: seq<ManagedObject>, n: nat)
    requires n <= |ds| && forall d :: d in ds ==> d in objs
    requires Closed(objs) && Environment(objs, script, strict) && Always(objs, strict, w)
    ensures var (w', errors) := CheckForDependents(w, script, ds, n);
            && Always(objs, strict, w')
            && NoneAdded(objs, w.store, w'.store)
            && (errors == [] ==> forall j :: 0 <= j < n ==> ds[j].key !in w'.store)
  {
    hide Good, Always, Environment, Closed, Get, DependentErrors;
    if n > 0 {
      CheckKeeps(objs, strict, w, script, ds, n - 1);
      var (w1, errors) := CheckForDependents(w, script, ds, n - 1);
      GetKeeps(objs, strict, w1, script, ds[n - 1].key);
      NoErrorsYet(errors, Get(w1, script, ds[n - 1].key).1, ds[n - 1]);
    }
  }

  lemma VisitKeeps(objs: seq<ManagedObject>, strict: bool, w: World, script: Script, o: ManagedObject)
    requires Closed(objs) && KeyedApart(objs) && o in objs
    requires Environment(objs, script, strict) && Always(objs, strict, w)
    ensures var w' := Visit(w, script, o, objs, true).0;
            Always(objs, strict, w') && NoneAdded(objs, w.store, w'.store)
  {
    var ds := DependentsOf(objs, o, |objs|);
    DependentsAreReverseEdges(objs, o, |objs|);
    assert objs[..|objs|] == objs;
    CheckKeeps(objs, strict, w, script, ds, |ds|);
    var (w1, errors) := CheckForDependents(w, script, ds, |ds|);
    if errors == [] && o.policy != Orphan {
      assert NothingDependsOn(objs, o.key, w1.store);
      DeleteKeeps(objs, strict, w1, script, o.key);
    }
  }

  lemma {:induction false} VisitsKeep(objs: seq<ManagedObject>, strict: bool, w: World, script: Script, n: nat)
    requires n <= |objs|
    requires Closed(objs) && KeyedApart(objs) && Environment(objs, script, strict) && Always(objs, strict, w)
    ensures var w' := Visits(w, script, objs, true, n).0;
            Always(objs, strict, w') && NoneAdded(objs, w.store, w'.store)
  {
    hide Visit;
    if n > 0 {
      VisitsKeep(objs, strict, w, script, n - 1);
      VisitKeeps(objs, strict, Visits(w, script, objs, true, n - 1).0, script, objs[n - 1]);
    }
  }

  // ----- The cleaners -----

  lemma {:induction false} SweepKeeps(objs: seq<ManagedObject>, strict: bool, w: World, script: Script, c: Cleaner,
                                      items: seq<Key>, n: nat)
    requires n <= |items|
    requires Closed(objs) && Environment(objs, script, strict) && Always(objs, strict, w)
    requires forall k :: k in items ==> c.Covers(k)
    requires forall o :: o in objs ==> !c.Removes(o.key)
    ensures var w' := SweepItems(w, script, c, items, n).0;
            Always(objs, strict, w') && NoneAdded(objs, w.store, w'.store)
  {
    hide Always, Environment, Closed, Delete;
    if n > 0 {
      SweepKeeps(objs, strict, w, script, c, items, n - 1);
      var w1 := SweepItems(w, script, c, items, n - 1).0;
      var key := items[n - 1];
      if key.name !in c.keep {
        NothingManagedThere(objs, c, key, w1.store);
        DeleteKeeps(objs, strict, w1, script, key);
      }
    }
  }

  lemma NothingManagedThere(objs: seq<ManagedObject>, c: Cleaner, key: Key, store: Store)
    requires Closed(objs) && c.Removes(key) && forall o :: o in objs ==> !c.Removes(o.key)
    ensures NothingDependsOn(objs, key, store)
  {
  }

  lemma ListedAreCovered(w: World, script: Script, c: Cleaner)
    requires ListsFaithfully(script)
    ensures var (w1, reply) := List(w, script, c.cluster, c.kind, c.namespace);
            reply.Listed? ==> forall k :: k in reply.keys <==>
              c.Covers(k) && k in w1.store && Labelled(w1.store[k])
  {
    var (w1, reply) := List(w, script, c.cluster, c.kind, c.namespace);
    if reply.Listed? {
      var matching := Matching(w1.store, c.cluster, c.kind, c.namespace);
      assert reply.keys == script(w.tick).listing(matching);
      assert forall k :: k in reply.keys <==> k in matching;
    }
  }

  lemma CleanupKeeps(objs: seq<ManagedObject>, strict: bool, w: World, script: Script, c: Cleaner)
    requires Closed(objs) && Environment(objs, script, strict) && Always(objs, strict, w)
    requires forall o :: o in objs ==> !c.Removes(o.key)
    ensures var w' := Cleanup(w, script, c).0;
            Always(objs, strict, w') && NoneAdded(objs, w.store, w'.store)
  {
    AwaitKeeps(objs, strict, w, script);
    var (w1, reply) := List(w, script, c.cluster, c.kind, c.namespace);
    if reply.Listed? {
      ListedAreCovered(w, script, c);
      SweepKeeps(objs, strict, w1, script, c, reply.keys, |reply.keys|);
    }
  }

  lemma {:induction false} CleanupsKeep(objs: seq<ManagedObject>, strict: bool, w: World, script: Script,
                                        cleaners: seq<Cleaner>, n: nat)
    requires n <= |cleaners|
    requires Closed(objs) && Spares(cleaners, objs) && Environment(objs, script, strict) && Always(objs, strict, w)
    ensures var w' := Cleanups(w, script, cleaners, n).0;
            Always(objs, strict, w') && NoneAdded(objs, w.store, w'.store)
  {
    hide Cleanup;
    if n > 0 {
      CleanupsKeep(objs, strict, w, script, cleaners, n - 1);
      assert cleaners[n - 1] in cleaners;
      CleanupKeeps(objs, strict, Cleanups(w, script, cleaners, n - 1).0, script, cleaners[n - 1]);
    }
  }

  // ----- Runs -----

  lemma PassKeeps(objs: seq<ManagedObject>, cleaners: seq<Cleaner>, strict: bool, w: World, script: Script)
    requires WellPosed(objs, cleaners) && Environment(objs, script, strict) && Always(objs, strict, w)
    ensures var w' := Pass(w, script, objs, cleaners, true).world;
            Always(objs, strict, w') && NoneAdded(objs, w.store, w'.store)
  {
    hide Visits, Cleanups;
    VisitsKeep(objs, strict, w, script, |objs|);
    CleanupsKeep(objs, strict, Visits(w, script, objs, true, |objs|).0, script, cleaners, |cleaners|);
  }

  /** The world after `k` Delete passes. */
  function DeletePasses(w: World, script: Script, objs: seq<ManagedObject>, cleaners: seq<Cleaner>, k: nat): World {
    if k == 0 then w else Pass(DeletePasses(w, script, objs, cleaners, k - 1), script, objs, cleaners, true).world
  }

  lemma {:induction false} PassesKeep(objs: seq<ManagedObject>, cleaners: seq<Cleaner>, strict: bool, w: World,
                                      script: Script, k: nat)
    requires WellPosed(objs, cleaners) && Environment(objs, script, strict) && Always(objs, strict, w)
    ensures Always(objs, strict, DeletePasses(w, script, objs, cleaners, k))
  {
    hide Pass;
    if k > 0 {
      PassesKeep(objs, cleaners, strict, w, script, k - 1);
      PassKeeps(objs, cleaners, strict, DeletePasses(w, script, objs, cleaners, k - 1), script);
    }
  }

  /** From any store, with third parties deleting what they like, and creating what is not managed: at no moment of any run does
      an object exist on whose direct dependency a delete call has been issued. */
  lemma NoDeleteUnderDependents(objs: seq<ManagedObject>, cleaners: seq<Cleaner>, store: Store, script: Script, k: nat)
    requires WellPosed(objs, cleaners) && NeverCreates(script, KeysOf(objs)) && ListsFaithfully(script)
    ensures var w := DeletePasses(World(store, 0, {}, []), script, objs, cleaners, k);
            forall i, x, y :: i in w.trail && x in objs && y in x.deps && x.key in i.store ==> y.key !in i.requested
  {
    hide DeletePasses;
    PassesKeep(objs, cleaners, false, World(store, 0, {}, []), script, k);
    var w := DeletePasses(World(store, 0, {}, []), script, objs, cleaners, k);
    assert forall i :: i in w.trail ==> Good(objs, false, i);
  }

  lemma {:induction false} GoodReachesDown(objs: seq<ManagedObject>, i: Instant, x: ManagedObject, y: ManagedObject)
    requires Closed(objs) && Good(objs, true, i)
    requires x in objs && x.key in i.store && DependsOn(x, y)
    ensures y.key in i.store && y.key !in i.requested
    decreases x
  {
    if y !in x.deps {
      var d :| d in x.deps && DependsOn(d, y);
      GoodReachesDown(objs, i, d, y);
    }
  }

  /** When everything is installed and live at the start and nobody else deletes managed objects: at
      every moment of every run, all transitive dependencies of an existing object exist and
      none of them has received a delete call. */
  lemma DependenciesOutlive(objs: seq<ManagedObject>, cleaners: seq<Cleaner>, store: Store, script: Script, k: nat)
    requires WellPosed(objs, cleaners)
    requires NeverCreates(script, KeysOf(objs)) && NoForeignDeletes(script, KeysOf(objs)) && ListsFaithfully(script)
    requires forall o :: o in objs ==> o.key in store && !store[o.key].terminating
    ensures var w := DeletePasses(World(store, 0, {}, []), script, objs, cleaners, k);
            forall i, x, y :: i in w.trail && x in objs && x.key in i.store && DependsOn(x, y) ==>
              y.key in i.store && y.key !in i.requested
  {
    hide DeletePasses;
    PassesKeep(objs, cleaners, true, World(store, 0, {}, []), script, k);
    var w := DeletePasses(World(store, 0, {}, []), script, objs, cleaners, k);
    assert forall i :: i in w.trail ==> Good(objs, true, i);
    forall i, x, y | i in w.trail && x in objs && x.key in i.store && DependsOn(x, y)
      ensures y.key in i.store && y.key !in i.requested
    {
      GoodReachesDown(objs, i, x, y);
    }
  }
}
