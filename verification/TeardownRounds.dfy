/** How many Delete passes a teardown takes, when calls succeed and finalizers complete before the
    next pass, and when it can end at all. */
module TeardownRounds {
  import opened Cluster
  import opened Managed
  import opened Manager
  import opened TeardownSafety
  import opened TeardownRuns
  import opened PassRelations

  /** `o` is still there after `k` passes: there is a chain of `k` dependents above it, or the
      chain ends earlier in an object that is never deleted. */
  ghost predicate Survives(objs: seq<ManagedObject>, o: ManagedObject, k: nat)
    decreases k, 0
  {
    k == 0 || o.policy == Orphan || HeldUp(objs, o, k - 1)
  }

  /** Some dependent of `o` survives `k` passes. */
  ghost predicate HeldUp(objs: seq<ManagedObject>, o: ManagedObject, k: nat)
    decreases k, 1
  {
    exists d :: d in objs && o in d.deps && Survives(objs, d, k)
  }

  lemma {:induction false} SurvivorsSurvivedBefore(objs: seq<ManagedObject>, o: ManagedObject, k: nat)
    requires Survives(objs, o, k + 1)
    ensures Survives(objs, o, k)
    decreases k
  {
    if k > 0 && o.policy != Orphan {
      var d :| d in objs && o in d.deps && Survives(objs, d, k);
      SurvivorsSurvivedBefore(objs, d, k - 1);
    }
  }

  // ----- One pass without faults -----

  /** A dependent of `o` exists. */
  ghost predicate Blocked(objs: seq<ManagedObject>, o: ManagedObject, store: Store) {
    exists d :: d in objs && o in d.deps && d.key in store
  }

  lemma QuietGet(w: World, script: Script, key: Key)
    requires Quiet(script)
    ensures var (w', reply) := Get(w, script, key);
            w'.store == w.store && reply == if key in w.store then Found(w.store[key]) else NotFound
  {
  }

  lemma QuietDelete(w: World, script: Script, key: Key)
    requires Quiet(script)
    ensures var (w', reply) := Delete(w, script, key);
            w'.store == Erased(w.store, key) && reply == if key in w.store then Accepted else Gone
  {
  }

  lemma {:induction false} QuietCheck(w: World, script: Script, ds: seq<ManagedObject>, n: nat)
    requires n <= |ds| && Quiet(script)
    ensures var (w', errors) := CheckForDependents(w, script, ds, n);
            && w'.store == w.store
            && (errors == [] <==> forall j :: 0 <= j < n ==> ds[j].key !in w.store)
  {
    hide Get, Quiet, DependentErrors;
    if n > 0 {
      var d := ds[n - 1];
      QuietCheck(w, script, ds, n - 1);
      var (w1, errors) := CheckForDependents(w, script, ds, n - 1);
      QuietGet(w1, script, d.key);
      NoErrorsYet(errors, Get(w1, script, d.key).1, d);
    }
  }

  /** What a visit does when nothing goes wrong. */
  lemma QuietVisit(w: World, script: Script, objs: seq<ManagedObject>, o: ManagedObject)
    requires Quiet(script) && o in objs
    ensures var (w', report) := Visit(w, script, o, objs, true);
            && w'.store == (if Blocked(objs, o, w.store) || o.policy == Orphan then w.store else Erased(w.store, o.key))
            && (report.operation == Deleted <==>
                 !Blocked(objs, o, w.store) && (o.policy == Orphan || o.key !in w.store))
  {
    hide CheckForDependents, DependentsOf, Delete, Quiet;
    var ds := DependentsOf(objs, o, |objs|);
    DependentsAreReverseEdges(objs, o, |objs|);
    assert objs[..|objs|] == objs;
    QuietDelete(CheckForDependents(w, script, ds, |ds|).0, script, o.key);
    QuietCheck(w, script, ds, |ds|);
    assert Blocked(objs, o, w.store) <==> exists j :: 0 <= j < |ds| && ds[j].key in w.store;
  }

  lemma {:induction false} QuietSweep(w: World, script: Script, c: Cleaner, items: seq<Key>, n: nat)
    requires n <= |items| && Quiet(script)
    ensures var (w', reports) := SweepItems(w, script, c, items, n);
            && reports == []
            && w'.store.Keys <= w.store.Keys
            && forall k :: k in w.store && (k !in items || k.name in c.keep) ==> k in w'.store && w'.store[k] == w.store[k]
  {
    hide Delete;
    if n > 0 {
      QuietSweep(w, script, c, items, n - 1);
      QuietDelete(SweepItems(w, script, c, items, n - 1).0, script, items[n - 1]);
    }
  }

  lemma QuietCleanup(w: World, script: Script, objs: seq<ManagedObject>, c: Cleaner)
    requires Quiet(script) && Spares([c], objs)
    ensures var (w', reports, failed) := Cleanup(w, script, c);
            && reports == [] && !failed
            && w'.store.Keys <= w.store.Keys
            && forall o :: o in objs && o.key in w.store ==> o.key in w'.store && w'.store[o.key] == w.store[o.key]
  {
    hide SweepItems;
    assert c in [c];
    ListedAreCovered(w, script, c);
    var (w1, reply) := List(w, script, c.cluster, c.kind, c.namespace);
    QuietSweep(w1, script, c, reply.keys, |reply.keys|);
    forall o | o in objs ensures o.key !in reply.keys || o.key.name in c.keep {
      assert !c.Removes(o.key);
    }
  }

  lemma {:induction false} QuietCleanups(w: World, script: Script, objs: seq<ManagedObject>, cleaners: seq<Cleaner>, n: nat)
    requires n <= |cleaners| && Quiet(script) && Spares(cleaners, objs)
    ensures var (w', reports, failed) := Cleanups(w, script, cleaners, n);
            && reports == [] && !failed
            && w'.store.Keys <= w.store.Keys
            && forall o :: o in objs && o.key in w.store ==> o.key in w'.store && w'.store[o.key] == w.store[o.key]
  {
    hide Cleanup;
    if n > 0 {
      QuietCleanups(w, script, objs, cleaners, n - 1);
      assert cleaners[n - 1] in cleaners;
      QuietCleanup(Cleanups(w, script, cleaners, n - 1).0, script, objs, cleaners[n - 1]);
    }
  }

  // ----- What a pass leaves -----

  /** The object is stored and has not been deleted. */
  predicate Stands(store: Store, key: Key) {
    key in store && !Lingering(store[key])
  }

  /** After `n` visits of pass `k + 1`, for every order of the objects. */
  ghost predicate AtMost(objs: seq<ManagedObject>, store: Store, k: nat, n: nat)
    requires n <= |objs|
  {
    && (forall o :: o in objs && o.key in store ==> Survives(objs, o, k))
    && (forall o :: o in objs[..n] && Stands(store, o.key) ==> Survives(objs, o, k + 1))
  }

  /** After `n` visits of pass `k + 1`, for a list with dependencies first. */
  ghost predicate AtLeast(objs: seq<ManagedObject>, store: Store, k: nat, n: nat)
    requires n <= |objs|
  {
    && (forall o :: o in objs && o !in objs[..n] && Survives(objs, o, k) ==> Stands(store, o.key))
    && (forall o :: o in objs[..n] && Survives(objs, o, k + 1) ==> Stands(store, o.key))
  }

  lemma AtMostStep(objs: seq<ManagedObject>, w: World, script: Script, k: nat, n: nat)
    requires n < |objs| && Quiet(script) && AtMost(objs, w.store, k, n)
    ensures AtMost(objs, Visit(w, script, objs[n], objs, true).0.store, k, n + 1)
  {
    hide Visit;
    var o := objs[n];
    QuietVisit(w, script, objs, o);
    assert objs[..n + 1] == objs[..n] + [o];
    if Blocked(objs, o, w.store) {
      var d :| d in objs && o in d.deps && d.key in w.store;
      assert HeldUp(objs, o, k);
    }
  }

  lemma HeldUpIsBlocked(objs: seq<ManagedObject>, store: Store, k: nat, n: nat)
    requires n < |objs| && DependencyFirst(objs) && AtLeast(objs, store, k, n)
    requires HeldUp(objs, objs[n], k)
    ensures Blocked(objs, objs[n], store)
  {
    var o := objs[n];
    var d :| d in objs && o in d.deps && Survives(objs, d, k);
    NotYetVisited(objs, n, d);
    assert objs[..n + 1] == objs[..n] + [o];
    assert d.key in store;
  }

  lemma AtLeastStep(objs: seq<ManagedObject>, w: World, script: Script, k: nat, n: nat)
    requires n < |objs| && Quiet(script) && DependencyFirst(objs) && KeyedApart(objs)
    requires AtLeast(objs, w.store, k, n)
    ensures AtLeast(objs, Visit(w, script, objs[n], objs, true).0.store, k, n + 1)
  {
    hide Visit;
    var o := objs[n];
    QuietVisit(w, script, objs, o);
    assert objs[..n + 1] == objs[..n] + [o];
    if Survives(objs, o, k + 1) {
      SurvivorsSurvivedBefore(objs, o, k);
      assert Stands(w.store, o.key);
      if o.policy != Orphan {
        HeldUpIsBlocked(objs, w.store, k, n);
      }
    }
  }

  lemma NotYetVisited(objs: seq<ManagedObject>, n: nat, d: ManagedObject)
    requires DependencyFirst(objs) && n < |objs| && objs[n] in d.deps
    ensures d !in objs[..n + 1]
  {
    forall j | 0 <= j < |objs| && objs[j] == d ensures n < j {
    }
  }

  lemma {:induction false} VisitsLeaveAtMost(objs: seq<ManagedObject>, w: World, script: Script, k: nat, n: nat)
    requires n <= |objs| && Quiet(script) && AtMost(objs, w.store, k, 0)
    ensures AtMost(objs, Visits(w, script, objs, true, n).0.store, k, n)
  {
    hide Visit, AtMost, Quiet;
    if n > 0 {
      VisitsLeaveAtMost(objs, w, script, k, n - 1);
      AtMostStep(objs, Visits(w, script, objs, true, n - 1).0, script, k, n - 1);
    }
  }

  lemma {:induction false} VisitsLeaveAtLeast(objs: seq<ManagedObject>, w: World, script: Script, k: nat, n: nat)
    requires n <= |objs| && Quiet(script) && DependencyFirst(objs) && KeyedApart(objs)
    requires AtLeast(objs, w.store, k, 0)
    ensures AtLeast(objs, Visits(w, script, objs, true, n).0.store, k, n)
  {
    hide Visit, AtLeast, DependencyFirst, KeyedApart, Quiet;
    if n > 0 {
      VisitsLeaveAtLeast(objs, w, script, k, n - 1);
      AtLeastStep(objs, Visits(w, script, objs, true, n - 1).0, script, k, n - 1);
    }
  }

  /** Exactly the survivors of `k` passes are in the store. */
  ghost predicate Left(objs: seq<ManagedObject>, store: Store, k: nat) {
    forall o :: o in objs ==> (o.key in store <==> Survives(objs, o, k))
  }

  ghost predicate LeftAtMost(objs: seq<ManagedObject>, store: Store, k: nat) {
    forall o :: o in objs && o.key in store ==> Survives(objs, o, k)
  }

  lemma LeftStarts(objs: seq<ManagedObject>, store: Store, k: nat)
    requires Left(objs, store, k) && NoneLingers(objs, store)
    ensures AtLeast(objs, store, k, 0)
  {
  }

  lemma PassLeaves(objs: seq<ManagedObject>, cleaners: seq<Cleaner>, w: World, script: Script, k: nat)
    requires Quiet(script) && WellPosed(objs, cleaners) && LeftAtMost(objs, w.store, k)
    ensures var after := Pass(w, script, objs, cleaners, true).world.store;
            && (forall o :: o in objs && Stands(after, o.key) ==> Survives(objs, o, k + 1))
            && (DependencyFirst(objs) && Left(objs, w.store, k) && NoneLingers(objs, w.store) ==>
                  forall o :: o in objs && Survives(objs, o, k + 1) ==> Stands(after, o.key))
  {
    hide Visits, Cleanups, Survives, HeldUp, Quiet, Lingering;
    assert AtMost(objs, w.store, k, 0);
    VisitsLeaveAtMost(objs, w, script, k, |objs|);
    var w1 := Visits(w, script, objs, true, |objs|).0;
    QuietCleanups(w1, script, objs, cleaners, |cleaners|);
    assert objs[..|objs|] == objs;
    if DependencyFirst(objs) && Left(objs, w.store, k) && NoneLingers(objs, w.store) {
      LeftStarts(objs, w.store, k);
      VisitsLeaveAtLeast(objs, w, script, k, |objs|);
    }
  }

  /** When pass `k + 1` starts, at most the objects with a chain of `k` dependents remain, in
      whatever order they are visited; with dependencies first, exactly those remain. */
  lemma {:induction false} RemainingAfter(objs: seq<ManagedObject>, cleaners: seq<Cleaner>, w: World, steps: History, k: nat)
    requires QuietRun(steps) && WellPosed(objs, cleaners) && Prompt(objs, cleaners, w, steps)
    ensures var left := Start(w, steps, objs, cleaners, k).store;
            && LeftAtMost(objs, left, k) && NoneLingers(objs, left)
            && (DependencyFirst(objs) && Installed(objs, w.store) ==> Left(objs, left, k))
  {
    hide Pass, Quiet, WellPosed, DependencyFirst;
    if k > 0 {
      RemainingAfter(objs, cleaners, w, steps, k - 1);
      PassLeaves(objs, cleaners, Start(w, steps, objs, cleaners, k - 1), steps(k - 1).script, k - 1);
    }
  }

  // ----- What a pass reports -----

  /** Pass `k + 1` has nothing left to delete and nothing that holds anything up. */
  ghost predicate Done(objs: seq<ManagedObject>, k: nat) {
    forall o :: o in objs ==> DoneWith(objs, o, k)
  }

  lemma {:induction false} ReportsWhenDone(objs: seq<ManagedObject>, w: World, script: Script, k: nat, n: nat)
    requires n <= |objs| && Quiet(script) && LeftAtMost(objs, w.store, k) && Done(objs, k)
    ensures AllDeleted(Visits(w, script, objs, true, n).1)
  {
    hide Visit;
    if n > 0 {
      ReportsWhenDone(objs, w, script, k, n - 1);
      VisitsLeaveAtMost(objs, w, script, k, n - 1);
      var (w1, reports) := Visits(w, script, objs, true, n - 1);
      var o := objs[n - 1];
      QuietVisit(w1, script, objs, o);
      assert Blocked(objs, o, w1.store) ==> HeldUp(objs, o, k);
    }
  }

  ghost predicate DoneWith(objs: seq<ManagedObject>, o: ManagedObject, k: nat) {
    (o.policy == Orphan || !Survives(objs, o, k)) && !HeldUp(objs, o, k)
  }

  lemma DoneWhenReportedAt(objs: seq<ManagedObject>, w: World, script: Script, k: nat, n: nat)
    requires n < |objs| && Quiet(script) && DependencyFirst(objs) && AtLeast(objs, w.store, k, n)
    requires Visit(w, script, objs[n], objs, true).1.operation == Deleted
    ensures objs[n] in objs[..n] || DoneWith(objs, objs[n], k)
  {
    hide Visit;
    QuietVisit(w, script, objs, objs[n]);
    if HeldUp(objs, objs[n], k) {
      HeldUpIsBlocked(objs, w.store, k, n);
    }
  }

  lemma {:induction false} DoneWhenReported(objs: seq<ManagedObject>, w: World, script: Script, k: nat, n: nat)
    requires n <= |objs| && Quiet(script) && DependencyFirst(objs) && KeyedApart(objs)
    requires Left(objs, w.store, k) && NoneLingers(objs, w.store)
    requires AllDeleted(Visits(w, script, objs, true, n).1)
    ensures forall o :: o in objs[..n] ==> DoneWith(objs, o, k)
  {
    hide Visit, DoneWith, Left, AtLeast, DependencyFirst, KeyedApart, Survives, HeldUp, Quiet, NoneLingers;
    if n > 0 {
      LeftStarts(objs, w.store, k);
      var (w1, reports) := Visits(w, script, objs, true, n - 1);
      var (w2, report) := Visit(w1, script, objs[n - 1], objs, true);
      assert Visits(w, script, objs, true, n).1 == reports + [report];
      AllDeletedSplits(reports, report);
      DoneWhenReported(objs, w, script, k, n - 1);
      VisitsLeaveAtLeast(objs, w, script, k, n - 1);
      DoneWhenReportedAt(objs, w1, script, k, n - 1);
      assert objs[..n] == objs[..n - 1] + [objs[n - 1]];
    }
  }

  lemma AllDeletedSplits(reports: seq<Report>, report: Report)
    ensures AllDeleted(reports + [report]) <==> AllDeleted(reports) && report.operation == Deleted
  {
    forall r | r in reports ensures r in reports + [report] {
    }
    assert report in reports + [report];
  }

  /** Pass `k + 1` reports everything deleted if nothing holds out after `k` passes; with
      dependencies first and everything installed at the start, only then. */
  lemma CompletionReport(objs: seq<ManagedObject>, cleaners: seq<Cleaner>, w: World, steps: History, k: nat)
    requires QuietRun(steps) && WellPosed(objs, cleaners) && Prompt(objs, cleaners, w, steps)
    ensures Done(objs, k) ==> AllDeleted(OutcomeOf(w, steps, objs, cleaners, k).reports)
    ensures DependencyFirst(objs) && Installed(objs, w.store) ==>
              (AllDeleted(OutcomeOf(w, steps, objs, cleaners, k).reports) <==> Done(objs, k))
  {
    hide Visits, Cleanups, Start, Quiet, Prompt, DoneWith, AllDeleted, DependencyFirst;
    RemainingAfter(objs, cleaners, w, steps, k);
    var start, script := Start(w, steps, objs, cleaners, k), steps(k).script;
    var (w1, reports) := Visits(start, script, objs, true, |objs|);
    QuietCleanups(w1, script, objs, cleaners, |cleaners|);
    assert OutcomeOf(w, steps, objs, cleaners, k).reports == reports + [] == reports;
    assert objs[..|objs|] == objs;
    if Done(objs, k) {
      ReportsWhenDone(objs, start, script, k, |objs|);
    }
    if DependencyFirst(objs) && Installed(objs, w.store) && AllDeleted(reports) {
      DoneWhenReported(objs, start, script, k, |objs|);
    }
  }

  /** Without finalizers on managed objects every run without faults is prompt. */
  lemma {:induction false} UnheldStays(objs: seq<ManagedObject>, cleaners: seq<Cleaner>, w: World, steps: History, n: nat)
    requires QuietRun(steps) && forall o :: o in objs && o.key in w.store ==> !w.store[o.key].held
    ensures forall o :: o in objs && o.key in Run(w, steps, objs, cleaners, n).store ==>
              !Run(w, steps, objs, cleaners, n).store[o.key].held
  {
    hide Pass, Quiet;
    if n > 0 {
      UnheldStays(objs, cleaners, w, steps, n - 1);
      var start := Start(w, steps, objs, cleaners, n - 1);
      assert Quiet(steps(n - 1).script);
      NeverHeldAdmits(objs, steps(n - 1).script);
      PassAdmits(NeverHeldRelation(objs), steps(n - 1).script, k => true, start, objs, cleaners, true);
      assert NeverHeldRelation(objs)(start, Run(w, steps, objs, cleaners, n));
    }
  }

  ghost predicate NeverHeld(objs: seq<ManagedObject>, store: Store) {
    forall o :: o in objs && o.key in store ==> !store[o.key].held
  }

  ghost function NeverHeldRelation(objs: seq<ManagedObject>): Relation {
    (a: World, b: World) => NeverHeld(objs, a.store) ==> NeverHeld(objs, b.store)
  }

  lemma NeverHeldAdmits(objs: seq<ManagedObject>, script: Script)
    requires Quiet(script)
    ensures Admits(NeverHeldRelation(objs), script, k => true, true)
    ensures ListsFaithfully(script)
  {
    var R := NeverHeldRelation(objs);
    forall w ensures R(w, Await(w, script)) && R(w, w) {
      assert Await(w, script).store == w.store;
    }
    forall w, k ensures R(w, Delete(w, script, k).0) {
      QuietDelete(w, script, k);
      assert NeverHeld(objs, w.store) ==> NeverHeld(objs, Erased(w.store, k));
    }
    forall a, b, c | R(a, b) && R(b, c) ensures R(a, c) {
    }
  }

  lemma UnheldIsPrompt(objs: seq<ManagedObject>, cleaners: seq<Cleaner>, w: World, steps: History)
    requires QuietRun(steps) && forall o :: o in objs && o.key in w.store ==> !w.store[o.key].held
    ensures Prompt(objs, cleaners, w, steps)
  {
    hide QuietRun;
    forall n: nat ensures NoneLingers(objs, Start(w, steps, objs, cleaners, n).store) {
      UnheldStays(objs, cleaners, w, steps, n);
    }
  }

  // ----- The number of passes -----

  /** Every pass climbs one dependent: survivors lie that much below the deepest object. */
  lemma {:induction false} SurvivorsLieDeep(objs: seq<ManagedObject>, o: ManagedObject, k: nat)
    requires o in objs && o.policy != Orphan && OrphansAreFree(objs)
    requires Survives(objs, o, k)
    ensures Depth(o) + k <= LongestChain(objs, |objs|)
    decreases k
  {
    LongestChainBounds(objs, |objs|);
    assert objs[..|objs|] == objs;
    if k > 0 {
      var d :| d in objs && o in d.deps && Survives(objs, d, k - 1);
      DependenciesAreShallower(d);
      SurvivorsLieDeep(objs, d, k - 1);
    }
  }

  /** Below an object that survives `k` passes lies one that survives longer by its depth. */
  lemma {:induction false} ChainBelow(objs: seq<ManagedObject>, x: ManagedObject, k: nat) returns (o: ManagedObject)
    requires Closed(objs) && x in objs && Survives(objs, x, k)
    ensures o in objs && Survives(objs, o, k + Depth(x))
    decreases Depth(x)
  {
    if x.deps == [] {
      o := x;
    } else {
      DepthIsAttained(x, x.deps);
      var d :| d in x.deps && 1 + Depth(d) == Depth(x);
      assert HeldUp(objs, d, k);
      o := ChainBelow(objs, d, k + 1);
    }
  }

  // ----- When teardown can end -----

  predicate Live(store: Store, key: Key) {
    key in store && !store[key].terminating
  }

  function Only(key: Key): Scope {
    k => k == key
  }

  ghost function StaysLive(key: Key): Relation {
    (a: World, b: World) => Live(a.store, key) ==> Live(b.store, key)
  }

  ghost function Except(key: Key): Key -> bool {
    k => k != key
  }

  lemma StaysLiveAdmits(key: Key, script: Script)
    requires NoForeignDeletes(script, Only(key))
    ensures Admits(StaysLive(key), script, Except(key), true)
  {
    var R := StaysLive(key);
    forall w ensures R(w, Await(w, script)) && R(w, w) {
      LiveAwait(w, script, key);
    }
    forall w, k | Except(key)(k) ensures R(w, Delete(w, script, k).0) {
      LiveAwait(w, script, key);
      LiveErased(Await(w, script).store, k, key);
    }
    forall a, b, c | R(a, b) && R(b, c) ensures R(a, c) {
    }
  }

  lemma LiveErased(store: Store, erased: Key, key: Key)
    requires erased != key
    ensures Live(Erased(store, erased), key) <==> Live(store, key)
  {
  }

  lemma LiveAwait(w: World, script: Script, key: Key)
    requires NoForeignDeletes(script, Only(key))
    ensures Live(w.store, key) ==> Live(Await(w, script).store, key)
  {
    if Live(w.store, key) {
      var after := script(w.tick).drift(w.store);
      assert Only(key)(key);
      assert key in after && !after[key].terminating;
    }
  }

  /** A check of dependents that include a live object finds an error, one way or the other. */
  lemma {:induction false} LiveIsNoticed(w: World, script: Script, ds: seq<ManagedObject>, x: ManagedObject, n: nat)
    requires n <= |ds| && NoForeignDeletes(script, Only(x.key)) && Live(w.store, x.key)
    ensures Live(CheckForDependents(w, script, ds, n).0.store, x.key)
    ensures x in ds[..n] ==> CheckForDependents(w, script, ds, n).1 != []
  {
    if n > 0 {
      LiveIsNoticed(w, script, ds, x, n - 1);
      LiveAwait(CheckForDependents(w, script, ds, n - 1).0, script, x.key);
      assert ds[..n] == ds[..n - 1] + [ds[n - 1]];
    }
  }

  /** An orphaned object stays, and what it depends on is not deleted. */
  lemma OrphanVisit(objs: seq<ManagedObject>, w: World, script: Script, x: ManagedObject, o: ManagedObject)
    requires KeyedApart(objs) && NoForeignDeletes(script, Only(x.key))
    requires x in objs && o in objs && x.policy == Orphan && Live(w.store, x.key)
    ensures var (w', report) := Visit(w, script, o, objs, true);
            Live(w'.store, x.key) && (o in x.deps ==> report.operation != Deleted)
  {
    hide CheckForDependents, DependentsOf, Delete, NoForeignDeletes;
    var ds := DependentsOf(objs, o, |objs|);
    DependentsAreReverseEdges(objs, o, |objs|);
    assert objs[..|objs|] == objs && ds[..|ds|] == ds;
    LiveIsNoticed(w, script, ds, x, |ds|);
    if o.key != x.key {
      StaysLiveAdmits(x.key, script);
      VisitAdmits(StaysLive(x.key), script, Except(x.key), w, o, objs, true);
      assert StaysLive(x.key)(w, Visit(w, script, o, objs, true).0);
    }
  }

  lemma {:induction false} OrphanVisits(objs: seq<ManagedObject>, w: World, script: Script, x: ManagedObject, y: ManagedObject,
                                        n: nat)
    requires n <= |objs| && KeyedApart(objs) && NoForeignDeletes(script, Only(x.key))
    requires x in objs && x.policy == Orphan && y in x.deps && Live(w.store, x.key)
    ensures var (w', reports) := Visits(w, script, objs, true, n);
            Live(w'.store, x.key) && (y in objs[..n] ==> !AllDeleted(reports))
  {
    hide Visit, KeyedApart, NoForeignDeletes, Live, AllDeleted;
    if n > 0 {
      var (w1, reports) := Visits(w, script, objs, true, n - 1);
      OrphanVisits(objs, w, script, x, y, n - 1);
      OrphanVisit(objs, w1, script, x, objs[n - 1]);
      AllDeletedSplits(reports, Visit(w1, script, objs[n - 1], objs, true).1);
      assert objs[..n] == objs[..n - 1] + [objs[n - 1]];
    }
  }

  lemma OrphanPass(objs: seq<ManagedObject>, cleaners: seq<Cleaner>, w: World, script: Script, x: ManagedObject,
                   y: ManagedObject)
    requires WellPosed(objs, cleaners) && NoForeignDeletes(script, Only(x.key)) && ListsFaithfully(script)
    requires x in objs && x.policy == Orphan && y in x.deps && Live(w.store, x.key)
    ensures var outcome := Pass(w, script, objs, cleaners, true);
            Live(outcome.world.store, x.key) && !AllDeleted(outcome.reports)
  {
    hide Visits, Cleanups, NoForeignDeletes, ListsFaithfully, Live;
    OrphanVisits(objs, w, script, x, y, |objs|);
    var (w1, reports) := Visits(w, script, objs, true, |objs|);
    assert objs[..|objs|] == objs;
    StaysLiveAdmits(x.key, script);
    assert Within([], cleaners, Except(x.key));
    CleanupsAdmit(StaysLive(x.key), script, Except(x.key), true, w1, cleaners, 0, |cleaners|);
    NoCleanups(w1, script, cleaners);
    assert StaysLive(x.key)(w1, Cleanups(w1, script, cleaners, |cleaners|).0);
    var late :| late in reports && late.operation != Deleted;
    assert late in reports + Cleanups(w1, script, cleaners, |cleaners|).1;
  }

  lemma NoCleanups(w: World, script: Script, cleaners: seq<Cleaner>)
    ensures Cleanups(w, script, cleaners, 0).0 == w
  {
  }

  /** An orphaned object that depends on another one blocks teardown for good: no pass of any
      run ever reports completion, in whatever order objects are visited and whatever calls
      fail, as long as nobody else deletes the orphan. */
  lemma {:induction false} OrphanBlocksForever(objs: seq<ManagedObject>, cleaners: seq<Cleaner>, w: World, steps: History,
                                               x: ManagedObject, n: nat)
    requires WellPosed(objs, cleaners)
    requires forall m: nat :: NoForeignDeletes(steps(m).script, Only(x.key)) && ListsFaithfully(steps(m).script)
    requires x in objs && x.policy == Orphan && x.deps != [] && Live(w.store, x.key)
    ensures Live(Run(w, steps, objs, cleaners, n).store, x.key)
    ensures !AllDeleted(OutcomeOf(w, steps, objs, cleaners, n).reports)
  {
    hide Pass, NoForeignDeletes, ListsFaithfully, WellPosed, AllDeleted;
    if n > 0 {
      OrphanBlocksForever(objs, cleaners, w, steps, x, n - 1);
      OrphanPass(objs, cleaners, Start(w, steps, objs, cleaners, n - 1), steps(n - 1).script, x, x.deps[0]);
    }
    assert Live(Run(w, steps, objs, cleaners, n).store, x.key);
    assert Live(Start(w, steps, objs, cleaners, n).store, x.key);
    OrphanPass(objs, cleaners, Start(w, steps, objs, cleaners, n), steps(n).script, x, x.deps[0]);
  }

  /** A teardown can finish if and only if no orphaned object depends on another. It is then
      finished, whatever the order, two passes after the longest dependency chain. */
  lemma TeardownFinishesIff(objs: seq<ManagedObject>, cleaners: seq<Cleaner>, w: World, steps: History)
    requires QuietRun(steps) && WellPosed(objs, cleaners) && Prompt(objs, cleaners, w, steps)
    ensures OrphansAreFree(objs) ==> AllDeleted(OutcomeOf(w, steps, objs, cleaners, LongestChain(objs, |objs|) + 1).reports)
    ensures Installed(objs, w.store) ==>
              (OrphansAreFree(objs) <==> exists k: nat :: AllDeleted(OutcomeOf(w, steps, objs, cleaners, k).reports))
  {
    hide OutcomeOf, Done, WellPosed, AllDeleted, LongestChain, Quiet, Prompt;
    var h := LongestChain(objs, |objs|);
    if OrphansAreFree(objs) {
      NothingSurvives(objs, h + 1);
      CompletionReport(objs, cleaners, w, steps, h + 1);
    } else if Installed(objs, w.store) {
      var x :| x in objs && x.policy == Orphan && x.deps != [];
      forall k: nat ensures !AllDeleted(OutcomeOf(w, steps, objs, cleaners, k).reports) {
        QuietRunsDeleteNothingElse(steps, x);
        OrphanBlocksForever(objs, cleaners, w, steps, x, k);
      }
    }
  }

  lemma QuietRunsDeleteNothingElse(steps: History, x: ManagedObject)
    requires QuietRun(steps)
    ensures forall m: nat :: NoForeignDeletes(steps(m).script, Only(x.key)) && ListsFaithfully(steps(m).script)
  {
    forall m: nat ensures NoForeignDeletes(steps(m).script, Only(x.key)) && ListsFaithfully(steps(m).script) {
      assert Quiet(steps(m).script);
    }
  }

  lemma NothingSurvives(objs: seq<ManagedObject>, k: nat)
    requires OrphansAreFree(objs) && k > LongestChain(objs, |objs|)
    ensures Done(objs, k)
  {
    forall d | d in objs && d.policy != Orphan ensures !Survives(objs, d, k) {
      if Survives(objs, d, k) {
        SurvivorsLieDeep(objs, d, k);
      }
    }
  }

  /** With nothing to orphan and dependencies first, everything is reported deleted for the
      first time on pass H + 2, where H is the length of the longest dependency chain. */
  lemma ExactNumberOfPasses(objs: seq<ManagedObject>, cleaners: seq<Cleaner>, w: World, steps: History, k: nat)
    requires QuietRun(steps) && WellPosed(objs, cleaners) && Prompt(objs, cleaners, w, steps) && Installed(objs, w.store)
    requires DependencyFirst(objs) && objs != [] && forall o :: o in objs ==> o.policy == DeleteIt
    ensures AllDeleted(OutcomeOf(w, steps, objs, cleaners, k).reports) <==> k >= LongestChain(objs, |objs|) + 1
  {
    hide OutcomeOf, Done, Prompt, Installed, KeyedApart, Spares, QuietRun;
    CompletionReport(objs, cleaners, w, steps, k);
    if k >= LongestChain(objs, |objs|) + 1 {
      NothingSurvives(objs, k);
    } else {
      LongestChainSurvives(objs, k);
    }
  }

  lemma DeepSurvivor(objs: seq<ManagedObject>) returns (o: ManagedObject)
    requires Closed(objs) && objs != []
    ensures o in objs && Survives(objs, o, LongestChain(objs, |objs|))
  {
    LongestChainBounds(objs, |objs|);
    hide Depth, LongestChain, HeldUp;
    assert objs[..|objs|] == objs;
    var x :| x in objs && Depth(x) == LongestChain(objs, |objs|);
    o := ChainBelow(objs, x, 0);
  }

  lemma LongestChainSurvives(objs: seq<ManagedObject>, k: nat)
    requires Closed(objs) && objs != [] && forall o :: o in objs ==> o.policy == DeleteIt
    requires k <= LongestChain(objs, |objs|)
    ensures !Done(objs, k)
  {
    hide LongestChain, HeldUp, Survives;
    var o := DeepSurvivor(objs);
    SurvivesEarlier(objs, o, k, LongestChain(objs, |objs|));
    assert !DoneWith(objs, o, k);
  }

  lemma {:induction false} SurvivesEarlier(objs: seq<ManagedObject>, o: ManagedObject, k: nat, m: nat)
    requires k <= m && Survives(objs, o, m)
    ensures Survives(objs, o, k)
    decreases m
  {
    if k < m {
      SurvivorsSurvivedBefore(objs, o, m - 1);
      SurvivesEarlier(objs, o, k, m - 1);
    }
  }
}
