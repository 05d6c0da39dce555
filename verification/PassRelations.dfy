/** A pass is made of single calls: what holds across every call holds across the pass. */
module PassRelations {
  import opened Cluster
  import opened Managed
  import opened Manager
  import TeardownSafety

  type Relation = (World, World) -> bool

  /** `R` is a preorder that contains every call a pass may make on keys in `scope`. Only
      an Apply pass creates and updates. */
  ghost predicate Admits(R: Relation, script: Script, scope: Key -> bool, isDeletion: bool) {
    && (forall w :: R(w, w))
    && (forall a, b, c :: R(a, b) && R(b, c) ==> R(a, c))
    && (forall w :: R(w, Await(w, script)))
    && (forall w, k :: scope(k) ==> R(w, Delete(w, script, k).0))
    && (!isDeletion ==>
          && (forall w, k, s :: scope(k) ==> R(w, Create(w, script, k, s).0))
          && (forall w, k, r, s :: scope(k) ==> R(w, Update(w, script, k, r, s).0)))
  }

  /** Everything the objects and cleaners may write is in `scope`. */
  ghost predicate Within(objs: seq<ManagedObject>, cleaners: seq<Cleaner>, scope: Key -> bool) {
    && (forall o :: o in objs ==> scope(o.key))
    && (forall c, k :: c in cleaners && c.Removes(k) ==> scope(k))
  }

  lemma {:induction false} CheckAdmits(R: Relation, script: Script, scope: Key -> bool, isDeletion: bool,
                                       w: World, ds: seq<ManagedObject>, n: nat)
    requires n <= |ds| && Admits(R, script, scope, isDeletion)
    ensures R(w, CheckForDependents(w, script, ds, n).0)
  {
    hide Await;
    if n > 0 {
      CheckAdmits(R, script, scope, isDeletion, w, ds, n - 1);
    }
  }

  lemma ReconcileAdmits(R: Relation, script: Script, scope: Key -> bool, isDeletion: bool, w: World, recipe: Recipe,
                        current: Payload)
    requires Admits(R, script, scope, isDeletion)
    ensures R(w, Reconcile(w, script, recipe, current).0)
  {
    hide Await;
  }

  lemma ApplyVisitAdmits(R: Relation, script: Script, scope: Key -> bool, w: World, o: ManagedObject)
    requires Admits(R, script, scope, false) && scope(o.key)
    ensures R(w, ApplyVisit(w, script, o).0)
  {
    hide Await, Reconcile, Create, Update;
    var (w1, reply) := Get(w, script, o.key);
    assert R(w, w1);
    if !reply.GetFailed? {
      ReconcileAdmits(R, script, scope, false, w1, o.recipe, if reply.Found? then reply.stored.payload else Blank);
    }
  }

  lemma VisitAdmits(R: Relation, script: Script, scope: Key -> bool, w: World, o: ManagedObject,
                    objs: seq<ManagedObject>, isDeletion: bool)
    requires Admits(R, script, scope, isDeletion) && scope(o.key)
    ensures R(w, Visit(w, script, o, objs, isDeletion).0)
  {
    hide CheckForDependents, DependentsOf, Delete, ApplyVisit;
    if isDeletion {
      var ds := DependentsOf(objs, o, |objs|);
      CheckAdmits(R, script, scope, isDeletion, w, ds, |ds|);
    } else {
      ApplyVisitAdmits(R, script, scope, w, o);
    }
  }

  lemma {:induction false} VisitsAdmit(R: Relation, script: Script, scope: Key -> bool, w: World,
                                       objs: seq<ManagedObject>, isDeletion: bool, m: nat, n: nat)
    requires m <= n <= |objs| && Admits(R, script, scope, isDeletion) && Within(objs, [], scope)
    ensures R(Visits(w, script, objs, isDeletion, m).0, Visits(w, script, objs, isDeletion, n).0)
    decreases n
  {
    hide Visit;
    if m < n {
      VisitsAdmit(R, script, scope, w, objs, isDeletion, m, n - 1);
      VisitAdmits(R, script, scope, Visits(w, script, objs, isDeletion, n - 1).0, objs[n - 1], objs, isDeletion);
    }
  }

  lemma {:induction false} SweepAdmits(R: Relation, script: Script, scope: Key -> bool, isDeletion: bool, w: World,
                                       c: Cleaner, items: seq<Key>, m: nat, n: nat)
    requires m <= n <= |items| && Admits(R, script, scope, isDeletion)
    requires forall k :: k in items && k.name !in c.keep ==> scope(k)
    ensures R(SweepItems(w, script, c, items, m).0, SweepItems(w, script, c, items, n).0)
    decreases n
  {
    hide Delete;
    if m < n {
      SweepAdmits(R, script, scope, isDeletion, w, c, items, m, n - 1);
    }
  }

  lemma CleanupAdmits(R: Relation, script: Script, scope: Key -> bool, isDeletion: bool, w: World, c: Cleaner)
    requires Admits(R, script, scope, isDeletion) && ListsFaithfully(script)
    requires forall k :: c.Removes(k) ==> scope(k)
    ensures R(w, Cleanup(w, script, c).0)
  {
    hide SweepItems, ListsFaithfully;
    TeardownSafety.ListedAreCovered(w, script, c);
    var (w1, reply) := List(w, script, c.cluster, c.kind, c.namespace);
    assert w1 == Await(w, script);
    if reply.Listed? {
      SweepAdmits(R, script, scope, isDeletion, w1, c, reply.keys, 0, |reply.keys|);
      SweepsNothing(w1, script, c, reply.keys);
    }
  }

  lemma SweepsNothing(w: World, script: Script, c: Cleaner, items: seq<Key>)
    ensures SweepItems(w, script, c, items, 0) == (w, [])
  {
  }

  lemma {:induction false} CleanupsAdmit(R: Relation, script: Script, scope: Key -> bool, isDeletion: bool, w: World,
                                         cleaners: seq<Cleaner>, m: nat, n: nat)
    requires m <= n <= |cleaners| && Admits(R, script, scope, isDeletion) && ListsFaithfully(script)
    requires Within([], cleaners, scope)
    ensures R(Cleanups(w, script, cleaners, m).0, Cleanups(w, script, cleaners, n).0)
    decreases n
  {
    hide Cleanup;
    if m < n {
      CleanupsAdmit(R, script, scope, isDeletion, w, cleaners, m, n - 1);
      assert cleaners[n - 1] in cleaners;
      CleanupAdmits(R, script, scope, isDeletion, Cleanups(w, script, cleaners, n - 1).0, cleaners[n - 1]);
    }
  }

  /** What holds across every call holds across the pass. */
  lemma PassAdmits(R: Relation, script: Script, scope: Key -> bool, w: World, objs: seq<ManagedObject>,
                   cleaners: seq<Cleaner>, isDeletion: bool)
    requires Admits(R, script, scope, isDeletion) && Within(objs, cleaners, scope) && ListsFaithfully(script)
    ensures R(w, Pass(w, script, objs, cleaners, isDeletion).world)
  {
    hide Visit, Cleanup;
    VisitsAdmit(R, script, scope, w, objs, isDeletion, 0, |objs|);
    var w1 := Visits(w, script, objs, isDeletion, |objs|).0;
    CleanupsAdmit(R, script, scope, isDeletion, w1, cleaners, 0, |cleaners|);
    assert Visits(w, script, objs, isDeletion, 0).0 == w && Cleanups(w1, script, cleaners, 0).0 == w1;
  }
}
