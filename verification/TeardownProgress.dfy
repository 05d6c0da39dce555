/** Teardown ends: no pass undoes progress, some step always makes progress, and a pass that
    reports completion leaves nothing behind. */
module TeardownProgress {
  import opened Wrappers
  import opened Cluster
  import opened Managed
  import opened Manager
  import opened TeardownSafety
  import opened PassRelations
  import opened TeardownRuns
  import TeardownRounds

  // ----- A measure of what is left -----

  /** Live objects weigh two, terminating ones one. */
  function Weight(store: Store, key: Key): nat {
    if key !in store then 0 else if store[key].terminating then 1 else 2
  }

  /** The weight of the first `n` objects that are to be deleted. */
  function Rank(objs: seq<ManagedObject>, store: Store, n: nat): nat
    requires n <= |objs|
  {
    if n == 0 then 0
    else
      var o := objs[n - 1];
      Rank(objs, store, n - 1) + if o.policy == Orphan then 0 else Weight(store, o.key)
  }

  /** Nothing in scope has become heavier. */
  ghost predicate Lighter(scope: Scope, before: Store, after: Store) {
    forall k :: scope(k) ==> Weight(after, k) <= Weight(before, k)
  }

  lemma {:induction false} LighterRank(objs: seq<ManagedObject>, before: Store, after: Store, n: nat)
    requires n <= |objs| && Lighter(KeysOf(objs), before, after)
    ensures Rank(objs, after, n) <= Rank(objs, before, n)
    ensures forall o :: o in objs[..n] && o.policy != Orphan && Weight(after, o.key) < Weight(before, o.key) ==>
              Rank(objs, after, n) < Rank(objs, before, n)
  {
    if n > 0 {
      LighterRank(objs, before, after, n - 1);
      assert KeysOf(objs)(objs[n - 1].key);
      assert objs[..n] == objs[..n - 1] + [objs[n - 1]];
    }
  }

  lemma {:induction false} RankZero(objs: seq<ManagedObject>, store: Store, n: nat)
    requires n <= |objs|
    ensures Rank(objs, store, n) == 0 <==> forall o :: o in objs[..n] && o.policy != Orphan ==> o.key !in store
  {
    if n > 0 {
      RankZero(objs, store, n - 1);
      assert objs[..n] == objs[..n - 1] + [objs[n - 1]];
    }
  }

  // ----- Nothing undoes progress -----

  /** Nobody else creates or revives objects in scope. Otherwise anyone may do anything, and any
      call may fail. */
  ghost predicate Adversary(script: Script, scope: Scope) {
    ListsFaithfully(script)
    && forall t: nat, store: Store :: Lighter(scope, store, script(t).drift(store))
  }

  lemma AdversaryDelete(w: World, script: Script, scope: Scope, key: Key)
    requires Adversary(script, scope)
    ensures Lighter(scope, w.store, Delete(w, script, key).0.store)
  {
    var w1 := Await(w, script);
    assert Lighter(scope, w.store, w1.store);
    assert Lighter(scope, w1.store, Erased(w1.store, key));
    LighterTransitive(scope, w.store, w1.store, Erased(w1.store, key));
  }

  ghost function LighterRelation(scope: Scope): Relation {
    (a: World, b: World) => Lighter(scope, a.store, b.store)
  }

  ghost function Everywhere(): Scope {
    k => true
  }

  lemma LighterAdmits(script: Script, scope: Scope)
    requires Adversary(script, scope)
    ensures Admits(LighterRelation(scope), script, Everywhere(), true)
  {
    var R := LighterRelation(scope);
    hide Delete;
    forall a, b, c | R(a, b) && R(b, c) ensures R(a, c) {
      LighterTransitive(scope, a.store, b.store, c.store);
    }
    forall w ensures R(w, Await(w, script)) {
      assert Lighter(scope, w.store, script(w.tick).drift(w.store));
    }
    forall w, k ensures R(w, Delete(w, script, k).0) {
      AdversaryDelete(w, script, scope, k);
    }
    forall w ensures R(w, w) {
    }
  }

  lemma LighterTransitive(scope: Scope, a: Store, b: Store, c: Store)
    requires Lighter(scope, a, b) && Lighter(scope, b, c)
    ensures Lighter(scope, a, c)
  {
    forall k | scope(k) ensures Weight(c, k) <= Weight(a, k) {
      assert Weight(c, k) <= Weight(b, k) <= Weight(a, k);
    }
  }

  /** No Delete pass adds weight anywhere in scope, whatever fails and whatever else is deleted. */
  lemma PassNeverAddsWeight(objs: seq<ManagedObject>, cleaners: seq<Cleaner>, w: World, script: Script, scope: Scope)
    requires Adversary(script, scope)
    ensures Lighter(scope, w.store, Pass(w, script, objs, cleaners, true).world.store)
  {
    hide Pass;
    LighterAdmits(script, scope);
    PassAdmits(LighterRelation(scope), script, Everywhere(), w, objs, cleaners, true);
    assert LighterRelation(scope)(w, Pass(w, script, objs, cleaners, true).world);
  }

  // ----- Something always makes progress -----

  /** Above an object that is still there stands one with nothing above it. */
  lemma {:induction false} Unblocked(objs: seq<ManagedObject>, store: Store, x: ManagedObject) returns (o: ManagedObject)
    requires Closed(objs) && OrphansAreFree(objs)
    requires x in objs && x.policy != Orphan && x.key in store
    ensures o in objs && o.policy != Orphan && o.key in store && !TeardownRounds.Blocked(objs, o, store)
    decreases LongestChain(objs, |objs|) - Depth(x)
  {
    if !TeardownRounds.Blocked(objs, x, store) {
      return x;
    }
    var d :| d in objs && x in d.deps && d.key in store;
    DependenciesAreShallower(d);
    LongestChainBounds(objs, |objs|);
    assert objs[..|objs|] == objs;
    o := Unblocked(objs, store, d);
  }

  lemma LighterManaged(objs: seq<ManagedObject>, before: Store, after: Store)
    requires Lighter(KeysOf(objs), before, after)
    ensures NoneAdded(objs, before, after)
    ensures forall o :: o in objs && !TeardownRounds.Blocked(objs, o, before) ==> !TeardownRounds.Blocked(objs, o, after)
  {
    forall o | o in objs ensures Weight(after, o.key) <= Weight(before, o.key) {
      assert KeysOf(objs)(o.key);
    }
  }

  /** Without faults, a check of dependents that are all gone finds no error. */
  lemma {:induction false} FaultFreeCheck(objs: seq<ManagedObject>, w: World, script: Script, ds: seq<ManagedObject>, n: nat)
    requires n <= |ds| && FaultFree(script) && Adversary(script, KeysOf(objs))
    requires forall d :: d in ds ==> d in objs && d.key !in w.store
    ensures var (w', errors) := CheckForDependents(w, script, ds, n);
            errors == [] && Lighter(KeysOf(objs), w.store, w'.store)
  {
    hide DependentErrors;
    if n > 0 {
      FaultFreeCheck(objs, w, script, ds, n - 1);
      var (w1, errors) := CheckForDependents(w, script, ds, n - 1);
      FaultFreeMiss(objs, w, w1, script, ds[n - 1]);
      NoErrorsYet(errors, Get(w1, script, ds[n - 1].key).1, ds[n - 1]);
    }
  }

  lemma FaultFreeMiss(objs: seq<ManagedObject>, w: World, w1: World, script: Script, d: ManagedObject)
    requires FaultFree(script) && Adversary(script, KeysOf(objs)) && Lighter(KeysOf(objs), w.store, w1.store)
    requires d in objs && d.key !in w.store
    ensures var (w2, reply) := Get(w1, script, d.key);
            reply.NotFound? && Lighter(KeysOf(objs), w.store, w2.store)
  {
    var w2 := Await(w1, script);
    assert Lighter(KeysOf(objs), w1.store, w2.store);
    LighterTransitive(KeysOf(objs), w.store, w1.store, w2.store);
    assert KeysOf(objs)(d.key);
  }

  /** Without faults, a visit to an object that nothing depends on deletes it, and reports it
      deleted, without an error, if it was gone or is orphaned. */
  lemma FaultFreeVisit(objs: seq<ManagedObject>, w: World, script: Script, o: ManagedObject)
    requires FaultFree(script) && Adversary(script, KeysOf(objs)) && o in objs
    requires !TeardownRounds.Blocked(objs, o, w.store)
    ensures var (w', report) := Visit(w, script, o, objs, true);
            && (o.policy != Orphan ==> Weight(w'.store, o.key) <= 1)
            && (o.policy == Orphan || o.key !in w.store ==> report.operation == Deleted && report.error == None)
  {
    hide CheckForDependents, DependentsOf, Adversary;
    var ds := DependentsOf(objs, o, |objs|);
    DependentsAreReverseEdges(objs, o, |objs|);
    assert objs[..|objs|] == objs;
    FaultFreeCheck(objs, w, script, ds, |ds|);
    var w1 := CheckForDependents(w, script, ds, |ds|).0;
    FaultFreeDelete(objs, w, w1, script, o);
  }

  lemma FaultFreeDelete(objs: seq<ManagedObject>, w: World, w1: World, script: Script, o: ManagedObject)
    requires FaultFree(script) && Adversary(script, KeysOf(objs)) && o in objs && Lighter(KeysOf(objs), w.store, w1.store)
    ensures var (w2, reply) := Delete(w1, script, o.key);
            Weight(w2.store, o.key) <= 1 && (o.key !in w.store ==> reply.Gone?)
  {
    var middle := Await(w1, script).store;
    assert Lighter(KeysOf(objs), w1.store, middle);
    assert KeysOf(objs)(o.key);
  }

  /** A pass whose calls succeed deletes every object that nothing depends on, whatever others do
      meanwhile. */
  lemma PassDeletesUnblocked(objs: seq<ManagedObject>, cleaners: seq<Cleaner>, w: World, script: Script, o: ManagedObject)
    requires FaultFree(script) && Adversary(script, KeysOf(objs))
    requires o in objs && o.policy != Orphan && !TeardownRounds.Blocked(objs, o, w.store)
    ensures Weight(Pass(w, script, objs, cleaners, true).world.store, o.key) <= 1
  {
    hide Visit, Cleanup, Adversary, FaultFree, TeardownRounds.Blocked;
    var R, scope := LighterRelation(KeysOf(objs)), Everywhere();
    assert ListsFaithfully(script) by {
      AdversaryLists(script, KeysOf(objs));
    }
    LighterAdmits(script, KeysOf(objs));
    var n :| 0 <= n < |objs| && objs[n] == o;
    var w1 := Visits(w, script, objs, true, n).0;
    VisitsAdmit(R, script, scope, w, objs, true, 0, n);
    assert Lighter(KeysOf(objs), w.store, w1.store);
    LighterManaged(objs, w.store, w1.store);
    FaultFreeVisit(objs, w1, script, o);
    var w2 := Visits(w, script, objs, true, n + 1).0;
    assert Weight(w2.store, o.key) <= 1;
    VisitsAdmit(R, script, scope, w, objs, true, n + 1, |objs|);
    var w3 := Visits(w, script, objs, true, |objs|).0;
    CleanupsAdmit(R, script, scope, true, w3, cleaners, 0, |cleaners|);
    assert Lighter(KeysOf(objs), w2.store, w3.store);
    assert Lighter(KeysOf(objs), w3.store, Cleanups(w3, script, cleaners, |cleaners|).0.store);
    assert KeysOf(objs)(o.key);
  }

  lemma AdversaryLists(script: Script, scope: Scope)
    requires Adversary(script, scope)
    ensures ListsFaithfully(script)
  {
  }

  /** Teardown is never stuck: while something that is to be deleted remains, the next pass whose
      calls succeed lowers the rank, whatever others do meanwhile, unless a remaining object is
      waiting for its finalizer, whose completion lowers it. */
  lemma TeardownNeverStuck(objs: seq<ManagedObject>, cleaners: seq<Cleaner>, w: World, script: Script)
    requires Closed(objs) && OrphansAreFree(objs) && FaultFree(script) && Adversary(script, KeysOf(objs))
    requires Rank(objs, w.store, |objs|) > 0
    ensures Rank(objs, Pass(w, script, objs, cleaners, true).world.store, |objs|) < Rank(objs, w.store, |objs|)
         || exists o :: o in objs && o.policy != Orphan && o.key in w.store && w.store[o.key].terminating
                     && Rank(objs, w.store - {o.key}, |objs|) < Rank(objs, w.store, |objs|)
  {
    hide Pass, Adversary, FaultFree, TeardownRounds.Blocked;
    RankZero(objs, w.store, |objs|);
    assert objs[..|objs|] == objs;
    var x :| x in objs && x.policy != Orphan && x.key in w.store;
    var o := Unblocked(objs, w.store, x);
    if w.store[o.key].terminating {
      assert Lighter(KeysOf(objs), w.store, w.store - {o.key});
      LighterRank(objs, w.store, w.store - {o.key}, |objs|);
    } else {
      var after := Pass(w, script, objs, cleaners, true).world.store;
      PassNeverAddsWeight(objs, cleaners, w, script, KeysOf(objs));
      PassDeletesUnblocked(objs, cleaners, w, script, o);
      LighterRank(objs, w.store, after, |objs|);
    }
  }

  // ----- Runs end -----

  /** From pass `n + 1` on, another pass whose calls succeed will come. */
  ghost predicate FaultFreeFrom(steps: History, n: nat) {
    exists m :: n <= m && FaultFree(steps(m).script)
  }

  /** After `n` passes or later, the object is gone. */
  ghost predicate GoneFrom(objs: seq<ManagedObject>, cleaners: seq<Cleaner>, w: World, steps: History, n: nat, key: Key) {
    exists m :: n <= m && key !in Run(w, steps, objs, cleaners, m).store
  }

  /** Passes whose calls succeed keep coming, and a finalizer that is waited for completes some
      time, however many passes later. */
  ghost predicate Fair(objs: seq<ManagedObject>, cleaners: seq<Cleaner>, w: World, steps: History) {
    && (forall n: nat :: FaultFreeFrom(steps, n))
    && (forall n: nat, o :: o in objs && o.policy != Orphan ==>
          var store := Run(w, steps, objs, cleaners, n).store;
          o.key in store && store[o.key].terminating ==> GoneFrom(objs, cleaners, w, steps, n, o.key))
  }

  /** In every pass anything may fail, anyone may delete, and elsewhere anything may happen. */
  ghost predicate Hostile(objs: seq<ManagedObject>, steps: History) {
    forall n: nat :: Adversary(steps(n).script, KeysOf(objs))
  }

  lemma StepLightens(objs: seq<ManagedObject>, cleaners: seq<Cleaner>, w: World, steps: History, n: nat)
    requires Hostile(objs, steps)
    ensures Lighter(KeysOf(objs), Run(w, steps, objs, cleaners, n).store, Start(w, steps, objs, cleaners, n).store)
    ensures Lighter(KeysOf(objs), Start(w, steps, objs, cleaners, n).store, Run(w, steps, objs, cleaners, n + 1).store)
  {
    hide Pass, Adversary;
    PassNeverAddsWeight(objs, cleaners, Start(w, steps, objs, cleaners, n), steps(n).script, KeysOf(objs));
  }

  lemma {:induction false} RunLightens(objs: seq<ManagedObject>, cleaners: seq<Cleaner>, w: World, steps: History,
                                       n: nat, m: nat)
    requires Hostile(objs, steps) && n <= m
    ensures Lighter(KeysOf(objs), Run(w, steps, objs, cleaners, n).store, Run(w, steps, objs, cleaners, m).store)
    decreases m
  {
    hide Run, Start, Hostile, Weight;
    if n < m {
      var before, middle := Run(w, steps, objs, cleaners, n).store, Run(w, steps, objs, cleaners, m - 1).store;
      RunLightens(objs, cleaners, w, steps, n, m - 1);
      StepLightens(objs, cleaners, w, steps, m - 1);
      LighterTransitive(KeysOf(objs), before, middle, Start(w, steps, objs, cleaners, m - 1).store);
      LighterTransitive(KeysOf(objs), before, Start(w, steps, objs, cleaners, m - 1).store,
                        Run(w, steps, objs, cleaners, m).store);
    }
  }

  /** An unblocked object is deleted by the next pass whose calls succeed. */
  lemma NextPassLightens(objs: seq<ManagedObject>, cleaners: seq<Cleaner>, w: World, steps: History, n: nat, m: nat,
                         o: ManagedObject)
    requires Hostile(objs, steps) && n <= m && FaultFree(steps(m).script)
    requires var store := Run(w, steps, objs, cleaners, n).store;
             o in objs && o.policy != Orphan && !TeardownRounds.Blocked(objs, o, store)
    ensures Weight(Run(w, steps, objs, cleaners, m + 1).store, o.key) <= 1
  {
    hide Pass, FaultFree, Adversary;
    RunLightens(objs, cleaners, w, steps, n, m);
    StepLightens(objs, cleaners, w, steps, m);
    var before, start := Run(w, steps, objs, cleaners, n).store, Start(w, steps, objs, cleaners, m);
    LighterTransitive(KeysOf(objs), before, Run(w, steps, objs, cleaners, m).store, start.store);
    LighterManaged(objs, before, start.store);
    PassDeletesUnblocked(objs, cleaners, start, steps(m).script, o);
  }

  lemma LowerRank(objs: seq<ManagedObject>, before: Store, after: Store, o: ManagedObject)
    requires Lighter(KeysOf(objs), before, after)
    requires o in objs && o.policy != Orphan && Weight(after, o.key) < Weight(before, o.key)
    ensures Rank(objs, after, |objs|) < Rank(objs, before, |objs|)
  {
    hide Lighter, Weight;
    LighterRank(objs, before, after, |objs|);
    assert objs[..|objs|] == objs;
  }

  /** An unblocked object that is still there gets lighter some time later. */
  lemma ObjectLightens(objs: seq<ManagedObject>, cleaners: seq<Cleaner>, w: World, steps: History, n: nat, o: ManagedObject)
    returns (m: nat)
    requires Hostile(objs, steps) && Fair(objs, cleaners, w, steps)
    requires var store := Run(w, steps, objs, cleaners, n).store;
             o in objs && o.policy != Orphan && o.key in store && !TeardownRounds.Blocked(objs, o, store)
    ensures n <= m
    ensures Weight(Run(w, steps, objs, cleaners, m).store, o.key) < Weight(Run(w, steps, objs, cleaners, n).store, o.key)
  {
    hide Run, Hostile, FaultFree, TeardownRounds.Blocked;
    if Run(w, steps, objs, cleaners, n).store[o.key].terminating {
      assert GoneFrom(objs, cleaners, w, steps, n, o.key);
      m :| n <= m && o.key !in Run(w, steps, objs, cleaners, m).store;
    } else {
      assert FaultFreeFrom(steps, n);
      var next :| n <= next && FaultFree(steps(next).script);
      NextPassLightens(objs, cleaners, w, steps, n, next, o);
      m := next + 1;
    }
  }

  lemma SomethingLeft(objs: seq<ManagedObject>, store: Store) returns (o: ManagedObject)
    requires Closed(objs) && OrphansAreFree(objs) && Rank(objs, store, |objs|) > 0
    ensures o in objs && o.policy != Orphan && o.key in store && !TeardownRounds.Blocked(objs, o, store)
  {
    hide Rank, Closed, OrphansAreFree, TeardownRounds.Blocked;
    RankZero(objs, store, |objs|);
    assert objs[..|objs|] == objs;
    var x :| x in objs && x.policy != Orphan && x.key in store;
    o := Unblocked(objs, store, x);
  }

  /** While something deletable is left, the rank falls some time later. */
  lemma RankFalls(objs: seq<ManagedObject>, cleaners: seq<Cleaner>, w: World, steps: History, n: nat) returns (m: nat)
    requires Closed(objs) && OrphansAreFree(objs) && Hostile(objs, steps) && Fair(objs, cleaners, w, steps)
    requires Rank(objs, Run(w, steps, objs, cleaners, n).store, |objs|) > 0
    ensures n <= m
    ensures Rank(objs, Run(w, steps, objs, cleaners, m).store, |objs|)
          < Rank(objs, Run(w, steps, objs, cleaners, n).store, |objs|)
  {
    hide Run, Hostile, Fair, Closed, OrphansAreFree, TeardownRounds.Blocked, Rank, Weight, Lighter;
    var o := SomethingLeft(objs, Run(w, steps, objs, cleaners, n).store);
    m := ObjectLightens(objs, cleaners, w, steps, n, o);
    RunLightens(objs, cleaners, w, steps, n, m);
    LowerRank(objs, Run(w, steps, objs, cleaners, n).store, Run(w, steps, objs, cleaners, m).store, o);
  }

  /** Nothing that is to be deleted is left. */
  ghost predicate NothingLeft(objs: seq<ManagedObject>, store: Store) {
    forall o :: o in objs && o.policy != Orphan ==> o.key !in store
  }

  /** After `m` passes and ever after nothing that is to be deleted is left. */
  ghost predicate NothingLeftFrom(objs: seq<ManagedObject>, cleaners: seq<Cleaner>, w: World, steps: History, m: nat) {
    forall n: nat :: m <= n ==> NothingLeft(objs, Run(w, steps, objs, cleaners, n).store)
  }

  lemma {:induction false} Finishes(objs: seq<ManagedObject>, cleaners: seq<Cleaner>, w: World, steps: History, n: nat)
    returns (m: nat)
    requires Closed(objs) && OrphansAreFree(objs) && Hostile(objs, steps) && Fair(objs, cleaners, w, steps)
    ensures NothingLeft(objs, Run(w, steps, objs, cleaners, m).store)
    decreases Rank(objs, Run(w, steps, objs, cleaners, n).store, |objs|)
  {
    hide Run, Fair, Hostile, Closed, OrphansAreFree;
    RankZero(objs, Run(w, steps, objs, cleaners, n).store, |objs|);
    assert objs[..|objs|] == objs;
    if Rank(objs, Run(w, steps, objs, cleaners, n).store, |objs|) == 0 {
      m := n;
    } else {
      var later := RankFalls(objs, cleaners, w, steps, n);
      m := Finishes(objs, cleaners, w, steps, later);
    }
  }

  /** Every fair run removes all objects that are to be deleted, for good: whatever fails in
      between, whoever else deletes, whatever happens elsewhere, and however long finalizers keep
      objects terminating. */
  lemma FairRunsFinish(objs: seq<ManagedObject>, cleaners: seq<Cleaner>, w: World, steps: History)
    requires Closed(objs) && OrphansAreFree(objs) && Hostile(objs, steps) && Fair(objs, cleaners, w, steps)
    ensures exists m: nat :: NothingLeftFrom(objs, cleaners, w, steps, m)
  {
    hide Run, Fair, Hostile, Closed, OrphansAreFree;
    var m := Finishes(objs, cleaners, w, steps, 0);
    forall n: nat | m <= n ensures NothingLeft(objs, Run(w, steps, objs, cleaners, n).store) {
      RunLightens(objs, cleaners, w, steps, m, n);
      LighterManaged(objs, Run(w, steps, objs, cleaners, m).store, Run(w, steps, objs, cleaners, n).store);
    }
    assert NothingLeftFrom(objs, cleaners, w, steps, m);
  }

  // ----- Completion is real -----

  /** What a later store may have over an earlier one: no managed object that was not there,
      and in the swept namespaces nothing new, nothing newly labelled or held, nothing revived. */
  ghost predicate Waned(objs: seq<ManagedObject>, cleaners: seq<Cleaner>, before: Store, after: Store) {
    && (forall o :: o in objs && o.key in after ==> o.key in before)
    && (forall c, k :: c in cleaners && c.Covers(k) && k in after ==> k in before && WanedAt(before[k], after[k]))
  }

  predicate WanedAt(before: Stored, after: Stored) {
    && (Labelled(after) ==> Labelled(before))
    && (after.held ==> before.held)
    && (before.terminating ==> after.terminating)
  }

  /** The environment may delete, finalize and update as it likes, and do anything at all
      elsewhere; it does not bring back what teardown removes. */
  ghost predicate OnlyWanes(script: Script, objs: seq<ManagedObject>, cleaners: seq<Cleaner>) {
    forall t: nat, store: Store :: Waned(objs, cleaners, store, script(t).drift(store))
  }

  ghost function WanedRelation(objs: seq<ManagedObject>, cleaners: seq<Cleaner>): Relation {
    (a: World, b: World) => Waned(objs, cleaners, a.store, b.store)
  }

  lemma WanedAdmits(script: Script, objs: seq<ManagedObject>, cleaners: seq<Cleaner>)
    requires OnlyWanes(script, objs, cleaners)
    ensures Admits(WanedRelation(objs, cleaners), script, Everywhere(), true)
  {
    hide Waned;
    var R := WanedRelation(objs, cleaners);
    forall w ensures R(w, Await(w, script)) && R(w, w) {
      WanedRefl(objs, cleaners, w.store);
    }
    forall w, k ensures R(w, Delete(w, script, k).0) {
      WanedDelete(w, script, objs, cleaners, k);
    }
    forall a, b, c | R(a, b) && R(b, c) ensures R(a, c) {
      WanedTransitive(objs, cleaners, a.store, b.store, c.store);
    }
  }

  lemma WanedRefl(objs: seq<ManagedObject>, cleaners: seq<Cleaner>, store: Store)
    ensures Waned(objs, cleaners, store, store)
  {
  }

  lemma WanedTransitive(objs: seq<ManagedObject>, cleaners: seq<Cleaner>, a: Store, b: Store, c: Store)
    requires Waned(objs, cleaners, a, b) && Waned(objs, cleaners, b, c)
    ensures Waned(objs, cleaners, a, c)
  {
  }

  /** A delete call leaves nothing under its key but a held, terminating object. */
  lemma WanedDelete(w: World, script: Script, objs: seq<ManagedObject>, cleaners: seq<Cleaner>, key: Key)
    requires OnlyWanes(script, objs, cleaners)
    ensures var (w', reply) := Delete(w, script, key);
            && Waned(objs, cleaners, w.store, w'.store)
            && (!reply.WriteFailed? && key in w'.store ==> Lingering(w'.store[key]))
  {
    var middle := Await(w, script).store;
    assert Waned(objs, cleaners, w.store, middle);
    assert Waned(objs, cleaners, middle, Erased(middle, key));
    WanedTransitive(objs, cleaners, w.store, middle, Erased(middle, key));
  }

  /** A visit reports a deletable object deleted only when it is gone. */
  lemma DeletedMeansGone(w: World, script: Script, objs: seq<ManagedObject>, o: ManagedObject)
    ensures var (w', report) := Visit(w, script, o, objs, true);
            report.operation == Deleted && o.policy != Orphan ==> o.key !in w'.store
  {
    hide CheckForDependents, DependentsOf;
  }

  lemma {:induction false} AllVisitsDeleted(objs: seq<ManagedObject>, cleaners: seq<Cleaner>, w: World, script: Script, n: nat)
    requires n <= |objs| && OnlyWanes(script, objs, cleaners)
    requires AllDeleted(Visits(w, script, objs, true, n).1)
    ensures forall o :: o in objs[..n] && o.policy != Orphan ==> o.key !in Visits(w, script, objs, true, n).0.store
  {
    hide Visit, AllDeleted, OnlyWanes;
    if n > 0 {
      var (w1, reports) := Visits(w, script, objs, true, n - 1);
      var o := objs[n - 1];
      var (w2, report) := Visit(w1, script, o, objs, true);
      TeardownRounds.AllDeletedSplits(reports, report);
      AllVisitsDeleted(objs, cleaners, w, script, n - 1);
      DeletedMeansGone(w1, script, objs, o);
      WanedAdmits(script, objs, cleaners);
      VisitAdmits(WanedRelation(objs, cleaners), script, Everywhere(), w1, o, objs, true);
      assert WanedRelation(objs, cleaners)(w1, w2);
      assert objs[..n] == objs[..n - 1] + [o];
    }
  }

  /** What a sweep without failures leaves of the listed objects. */
  lemma {:induction false} SweepRemoves(objs: seq<ManagedObject>, cleaners: seq<Cleaner>, w: World, script: Script,
                                        c: Cleaner, items: seq<Key>, n: nat)
    requires n <= |items| && OnlyWanes(script, objs, cleaners) && c in cleaners && forall k :: k in items ==> c.Covers(k)
    requires SweepItems(w, script, c, items, n).1 == []
    ensures var left := SweepItems(w, script, c, items, n).0.store;
            && Waned(objs, cleaners, w.store, left)
            && forall k :: k in items[..n] && k.name !in c.keep && k in left ==> w.store[k].held && left[k].terminating
  {
    hide Delete, OnlyWanes;
    if n > 0 {
      SweepRemoves(objs, cleaners, w, script, c, items, n - 1);
      var w1 := SweepItems(w, script, c, items, n - 1).0;
      var key := items[n - 1];
      WanedDelete(w1, script, objs, cleaners, key);
      assert items[..n] == items[..n - 1] + [key];
      if key.name !in c.keep {
        WanedTransitive(objs, cleaners, w.store, w1.store, Delete(w1, script, key).0.store);
      }
    } else {
      WanedRefl(objs, cleaners, w.store);
    }
  }

  /** Labelled objects a cleaner should have removed. */
  ghost predicate LeftBehind(c: Cleaner, store: Store, k: Key) {
    c.Removes(k) && k in store && Labelled(store[k])
  }

  lemma CleanupRemoves(objs: seq<ManagedObject>, cleaners: seq<Cleaner>, w: World, script: Script, c: Cleaner)
    requires OnlyWanes(script, objs, cleaners) && ListsFaithfully(script) && c in cleaners
    requires Cleanup(w, script, c).1 == [] && !Cleanup(w, script, c).2
    ensures var left := Cleanup(w, script, c).0.store;
            && Waned(objs, cleaners, w.store, left)
            && forall k :: LeftBehind(c, left, k) ==> k in w.store && w.store[k].held && left[k].terminating
  {
    hide SweepItems, OnlyWanes, ListsFaithfully;
    ListedAreCovered(w, script, c);
    var (w1, reply) := List(w, script, c.cluster, c.kind, c.namespace);
    var keys := reply.keys;
    SweepRemoves(objs, cleaners, w1, script, c, keys, |keys|);
    WanedAdmits(script, objs, cleaners);
    assert WanedRelation(objs, cleaners)(w, w1);
    WanedTransitive(objs, cleaners, w.store, w1.store, SweepItems(w1, script, c, keys, |keys|).0.store);
    assert keys[..|keys|] == keys;
  }

  lemma {:induction false} CleanupsRemove(objs: seq<ManagedObject>, cleaners: seq<Cleaner>, w: World, script: Script, n: nat)
    requires n <= |cleaners| && OnlyWanes(script, objs, cleaners) && ListsFaithfully(script)
    requires Cleanups(w, script, cleaners, n).1 == [] && !Cleanups(w, script, cleaners, n).2
    ensures var left := Cleanups(w, script, cleaners, n).0.store;
            && Waned(objs, cleaners, w.store, left)
            && forall c, k :: c in cleaners[..n] && LeftBehind(c, left, k) ==>
                 k in w.store && w.store[k].held && left[k].terminating
  {
    hide Cleanup, OnlyWanes, ListsFaithfully;
    if n > 0 {
      CleanupsRemove(objs, cleaners, w, script, n - 1);
      var w1 := Cleanups(w, script, cleaners, n - 1).0;
      var c := cleaners[n - 1];
      assert c in cleaners;
      CleanupRemoves(objs, cleaners, w1, script, c);
      WanedTransitive(objs, cleaners, w.store, w1.store, Cleanup(w1, script, c).0.store);
      assert cleaners[..n] == cleaners[..n - 1] + [c];
      assert forall d :: d in cleaners[..n] ==> d in cleaners;
    } else {
      WanedRefl(objs, cleaners, w.store);
    }
  }

  lemma {:induction false} CleanersReportFailures(w: World, script: Script, cleaners: seq<Cleaner>, n: nat)
    requires n <= |cleaners|
    ensures forall r :: r in Cleanups(w, script, cleaners, n).1 ==> r.operation == DeletionFailed
  {
    hide SweepItems;
    if n > 0 {
      CleanersReportFailures(w, script, cleaners, n - 1);
      var c := cleaners[n - 1];
      var (w1, reply) := List(Cleanups(w, script, cleaners, n - 1).0, script, c.cluster, c.kind, c.namespace);
      if reply.Listed? {
        SweepReportsFailures(w1, script, c, reply.keys, |reply.keys|);
      }
    }
  }

  lemma {:induction false} SweepReportsFailures(w: World, script: Script, c: Cleaner, items: seq<Key>, n: nat)
    requires n <= |items|
    ensures forall r :: r in SweepItems(w, script, c, items, n).1 ==> r.operation == DeletionFailed
  {
    hide Delete;
    if n > 0 {
      SweepReportsFailures(w, script, c, items, n - 1);
    }
  }

  lemma FailuresShow(reports: seq<Report>, more: seq<Report>)
    requires more != [] && forall r :: r in more ==> r.operation == DeletionFailed
    ensures !AllDeleted(reports + more)
  {
    assert more[0] in reports + more;
  }

  /** The names a cleaner keeps are names of managed objects that teardown deletes. */
  ghost predicate KeepsManaged(cleaners: seq<Cleaner>, objs: seq<ManagedObject>) {
    forall c, k :: c in cleaners && c.Covers(k) && k.name in c.keep ==>
      exists o :: o in objs && o.key == k && o.policy != Orphan
  }

  /** When a Delete pass reports everything deleted and no cleaner failed, every object that is
      to be deleted is gone, and of the labelled objects in the swept namespaces, whatever
      configuration they stem from, only held ones remain, and those are terminating. */
  lemma CompletionMeansClean(objs: seq<ManagedObject>, cleaners: seq<Cleaner>, w: World, script: Script)
    requires OnlyWanes(script, objs, cleaners) && ListsFaithfully(script) && KeepsManaged(cleaners, objs)
    requires AllDeleted(Pass(w, script, objs, cleaners, true).reports)
    requires !Pass(w, script, objs, cleaners, true).cleanerFailed
    ensures var left := Pass(w, script, objs, cleaners, true).world.store;
            && NothingLeft(objs, left)
            && (forall c, k :: c in cleaners && c.Covers(k) && k in left && Labelled(left[k]) ==>
                  k in w.store && w.store[k].held && left[k].terminating)
  {
    hide Visits, Cleanups, OnlyWanes, ListsFaithfully;
    var (w1, reports) := Visits(w, script, objs, true, |objs|);
    var (w2, more, failed) := Cleanups(w1, script, cleaners, |cleaners|);
    CleanersReportFailures(w1, script, cleaners, |cleaners|);
    assert forall r :: r in reports ==> r in reports + more;
    if more != [] {
      FailuresShow(reports, more);
    }
    AllVisitsDeleted(objs, cleaners, w, script, |objs|);
    CleanupsRemove(objs, cleaners, w1, script, |cleaners|);
    assert objs[..|objs|] == objs && cleaners[..|cleaners|] == cleaners;
    WanedByVisits(objs, cleaners, w, script);
    forall c, k | c in cleaners && c.Covers(k) && k in w2.store && Labelled(w2.store[k])
      ensures k in w.store && w.store[k].held && w2.store[k].terminating
    {
      if k.name !in c.keep {
        assert LeftBehind(c, w2.store, k);
      }
    }
  }

  lemma WanedByVisits(objs: seq<ManagedObject>, cleaners: seq<Cleaner>, w: World, script: Script)
    requires OnlyWanes(script, objs, cleaners)
    ensures Waned(objs, cleaners, w.store, Visits(w, script, objs, true, |objs|).0.store)
  {
    hide Visit, OnlyWanes, Waned;
    WanedAdmits(script, objs, cleaners);
    VisitsAdmit(WanedRelation(objs, cleaners), script, Everywhere(), w, objs, true, 0, |objs|);
    assert Visits(w, script, objs, true, 0).0 == w;
    assert WanedRelation(objs, cleaners)(w, Visits(w, script, objs, true, |objs|).0);
  }

  // ----- Completion is reported -----

  lemma NothingLeftBlocks(objs: seq<ManagedObject>, o: ManagedObject, store: Store)
    requires OrphansAreFree(objs) && NothingLeft(objs, store)
    ensures !TeardownRounds.Blocked(objs, o, store)
  {
  }

  /** An undisturbed visit that reports an object deleted has not changed anything. */
  lemma DeletedChangesNothing(objs: seq<ManagedObject>, w: World, script: Script, o: ManagedObject)
    requires Quiet(script) && o in objs
    ensures var (w', report) := Visit(w, script, o, objs, true);
            report.operation == Deleted ==> w'.store == w.store && (o.policy != Orphan ==> o.key !in w.store)
  {
    hide Visit;
    TeardownRounds.QuietVisit(w, script, objs, o);
  }

  lemma {:induction false} NothingLeftIsReported(objs: seq<ManagedObject>, w: World, script: Script, n: nat)
    requires n <= |objs| && Quiet(script) && OrphansAreFree(objs) && NothingLeft(objs, w.store)
    ensures var (w', reports) := Visits(w, script, objs, true, n);
            AllDeleted(reports) && w'.store == w.store
  {
    hide Visit, Quiet, NothingLeft, OrphansAreFree, TeardownRounds.Blocked;
    if n > 0 {
      hide AllDeleted;
      NothingLeftIsReported(objs, w, script, n - 1);
      var (w1, reports) := Visits(w, script, objs, true, n - 1);
      var o := objs[n - 1];
      TeardownRounds.AllDeletedSplits(reports, Visit(w1, script, o, objs, true).1);
      DeletedChangesNothing(objs, w1, script, o);
      NothingLeftBlocks(objs, o, w.store);
      if o.policy != Orphan {
        NothingLeftOf(objs, w.store, o);
      }
      TeardownRounds.QuietVisit(w1, script, objs, o);
    }
  }

  lemma {:induction false} ReportedMeansNothingLeft(objs: seq<ManagedObject>, w: World, script: Script, n: nat)
    requires n <= |objs| && Quiet(script) && AllDeleted(Visits(w, script, objs, true, n).1)
    ensures Visits(w, script, objs, true, n).0.store == w.store
    ensures forall o :: o in objs[..n] && o.policy != Orphan ==> o.key !in w.store
  {
    hide Visit, AllDeleted, Quiet;
    if n > 0 {
      var (w1, reports) := Visits(w, script, objs, true, n - 1);
      var o := objs[n - 1];
      TeardownRounds.AllDeletedSplits(reports, Visit(w1, script, o, objs, true).1);
      ReportedMeansNothingLeft(objs, w, script, n - 1);
      DeletedChangesNothing(objs, w1, script, o);
      assert objs[..n] == objs[..n - 1] + [o];
    }
  }

  lemma NothingLeftOf(objs: seq<ManagedObject>, store: Store, o: ManagedObject)
    requires NothingLeft(objs, store) && o in objs && o.policy != Orphan
    ensures o.key !in store
  {
  }

  lemma DeletedWithoutError(w: World, script: Script, objs: seq<ManagedObject>, o: ManagedObject)
    ensures var report := Visit(w, script, o, objs, true).1;
            report.operation == Deleted ==> report.error == None
  {
    hide CheckForDependents, DependentsOf, Delete;
  }

  lemma {:induction false} VisitsDeletedWithoutError(objs: seq<ManagedObject>, w: World, script: Script, n: nat)
    requires n <= |objs|
    ensures forall r :: r in Visits(w, script, objs, true, n).1 && r.operation == Deleted ==> r.error == None
  {
    hide Visit;
    if n > 0 {
      VisitsDeletedWithoutError(objs, w, script, n - 1);
      DeletedWithoutError(Visits(w, script, objs, true, n - 1).0, script, objs, objs[n - 1]);
    }
  }

  /** Whatever goes wrong, a pass that reports everything deleted reports no error. */
  lemma AllDeletedIsErrorFree(objs: seq<ManagedObject>, cleaners: seq<Cleaner>, w: World, script: Script)
    requires AllDeleted(Pass(w, script, objs, cleaners, true).reports)
    ensures ErrorFree(Pass(w, script, objs, cleaners, true).reports)
  {
    hide Visits, Cleanups;
    VisitsDeletedWithoutError(objs, w, script, |objs|);
    var w1 := Visits(w, script, objs, true, |objs|).0;
    CleanersReportFailures(w1, script, cleaners, |cleaners|);
  }

  /** When calls succeed and nobody interferes, a pass reports completion, without any error,
      exactly when nothing that is to be deleted is left. */
  lemma CompletionReportedIff(objs: seq<ManagedObject>, cleaners: seq<Cleaner>, w: World, script: Script)
    requires Quiet(script) && OrphansAreFree(objs)
    ensures var outcome := Pass(w, script, objs, cleaners, true);
            outcome.Clean() && AllDeleted(outcome.reports) <==> NothingLeft(objs, w.store)
  {
    hide Visits, Cleanups, AllDeleted, ErrorFree, Quiet, FaultFree, OrphansAreFree;
    QuietIsFaultFree(script);
    var (w1, reports) := Visits(w, script, objs, true, |objs|);
    CleanersReportNothing(w1, script, cleaners, |cleaners|);
    assert objs[..|objs|] == objs && reports + [] == reports;
    if NothingLeft(objs, w.store) {
      NothingLeftIsReported(objs, w, script, |objs|);
      AllDeletedIsErrorFree(objs, cleaners, w, script);
    } else if AllDeleted(reports) {
      ReportedMeansNothingLeft(objs, w, script, |objs|);
    }
  }

  lemma QuietIsFaultFree(script: Script)
    requires Quiet(script)
    ensures FaultFree(script)
  {
  }

  lemma FaultFreeAnswers(w: World, script: Script, key: Key)
    requires FaultFree(script)
    ensures !Delete(w, script, key).1.WriteFailed?
  {
  }

  lemma {:induction false} FaultFreeSweep(w: World, script: Script, c: Cleaner, items: seq<Key>, n: nat)
    requires n <= |items| && FaultFree(script)
    ensures SweepItems(w, script, c, items, n).1 == []
  {
    hide Delete, FaultFree;
    if n > 0 {
      FaultFreeSweep(w, script, c, items, n - 1);
      FaultFreeAnswers(SweepItems(w, script, c, items, n - 1).0, script, items[n - 1]);
    }
  }

  lemma {:induction false} CleanersReportNothing(w: World, script: Script, cleaners: seq<Cleaner>, n: nat)
    requires n <= |cleaners| && FaultFree(script)
    ensures Cleanups(w, script, cleaners, n).1 == [] && !Cleanups(w, script, cleaners, n).2
  {
    hide SweepItems;
    if n > 0 {
      CleanersReportNothing(w, script, cleaners, n - 1);
      var c := cleaners[n - 1];
      var (w1, reply) := List(Cleanups(w, script, cleaners, n - 1).0, script, c.cluster, c.kind, c.namespace);
      FaultFreeSweep(w1, script, c, reply.keys, |reply.keys|);
    }
  }

  /** When nothing that is to be deleted is left, the visits of a pass whose calls succeed report
      everything deleted. */
  lemma {:induction false} NothingLeftVisits(objs: seq<ManagedObject>, w: World, script: Script, n: nat)
    requires n <= |objs| && OrphansAreFree(objs) && NothingLeft(objs, w.store)
    requires FaultFree(script) && Adversary(script, KeysOf(objs))
    ensures AllDeleted(Visits(w, script, objs, true, n).1)
  {
    if n > 0 {
      hide Visit, AllDeleted, Adversary, FaultFree, OrphansAreFree, TeardownRounds.Blocked;
      NothingLeftVisits(objs, w, script, n - 1);
      var (w1, reports) := Visits(w, script, objs, true, n - 1);
      var o := objs[n - 1];
      LighterAdmits(script, KeysOf(objs));
      VisitsAdmit(LighterRelation(KeysOf(objs)), script, Everywhere(), w, objs, true, 0, n - 1);
      assert Visits(w, script, objs, true, 0).0 == w;
      assert LighterRelation(KeysOf(objs))(w, w1);
      LighterManaged(objs, w.store, w1.store);
      NothingLeftBlocks(objs, o, w1.store);
      FaultFreeVisit(objs, w1, script, o);
      TeardownRounds.AllDeletedSplits(reports, Visit(w1, script, o, objs, true).1);
    }
  }

  /** Then the pass reports completion, without any error. */
  lemma NothingLeftCompletes(objs: seq<ManagedObject>, cleaners: seq<Cleaner>, w: World, script: Script)
    requires OrphansAreFree(objs) && NothingLeft(objs, w.store) && FaultFree(script) && Adversary(script, KeysOf(objs))
    ensures Completes(Pass(w, script, objs, cleaners, true))
  {
    hide Visits, Cleanups, AllDeleted, ErrorFree, FaultFree, Adversary, OrphansAreFree;
    NothingLeftVisits(objs, w, script, |objs|);
    var (w1, reports) := Visits(w, script, objs, true, |objs|);
    CleanersReportNothing(w1, script, cleaners, |cleaners|);
    assert reports + [] == reports;
    AllDeletedIsErrorFree(objs, cleaners, w, script);
  }

  /** So in every fair run, from some pass on, every pass whose calls succeed reports completion,
      and such a pass comes. */
  lemma FairRunsReportCompletion(objs: seq<ManagedObject>, cleaners: seq<Cleaner>, w: World, steps: History)
    requires Closed(objs) && OrphansAreFree(objs) && Hostile(objs, steps) && Fair(objs, cleaners, w, steps)
    ensures exists m: nat :: CompleteFrom(objs, cleaners, w, steps, m)
  {
    hide Pass, AllDeleted, Run, Start, Fair, Hostile, Closed, OrphansAreFree, FaultFree, FaultFreeFrom;
    FairRunsFinish(objs, cleaners, w, steps);
    var m: nat :| NothingLeftFrom(objs, cleaners, w, steps, m);
    forall n: nat | m <= n && FaultFree(steps(n).script) ensures Completes(OutcomeOf(w, steps, objs, cleaners, n)) {
      CompletesWhenNothingLeft(objs, cleaners, w, steps, n);
    }
    FairIsFaultFreeFrom(objs, cleaners, w, steps, m);
    assert CompleteFrom(objs, cleaners, w, steps, m);
  }

  lemma CompletesWhenNothingLeft(objs: seq<ManagedObject>, cleaners: seq<Cleaner>, w: World, steps: History, n: nat)
    requires OrphansAreFree(objs) && Hostile(objs, steps) && FaultFree(steps(n).script)
    requires NothingLeft(objs, Run(w, steps, objs, cleaners, n).store)
    ensures Completes(OutcomeOf(w, steps, objs, cleaners, n))
  {
    hide Pass, AllDeleted, Run, Start, OrphansAreFree, FaultFree, Adversary;
    StartLosesOnly(objs, cleaners, w, steps, n);
    NothingLeftCompletes(objs, cleaners, Start(w, steps, objs, cleaners, n), steps(n).script);
  }

  predicate Completes(outcome: Outcome) {
    outcome.Clean() && AllDeleted(outcome.reports)
  }

  ghost predicate CompleteFrom(objs: seq<ManagedObject>, cleaners: seq<Cleaner>, w: World, steps: History, m: nat) {
    FaultFreeFrom(steps, m)
    && forall n: nat :: m <= n && FaultFree(steps(n).script) ==> Completes(OutcomeOf(w, steps, objs, cleaners, n))
  }

  lemma FairIsFaultFreeFrom(objs: seq<ManagedObject>, cleaners: seq<Cleaner>, w: World, steps: History, m: nat)
    requires Fair(objs, cleaners, w, steps)
    ensures FaultFreeFrom(steps, m)
  {
  }

  lemma StartLosesOnly(objs: seq<ManagedObject>, cleaners: seq<Cleaner>, w: World, steps: History, n: nat)
    ensures Start(w, steps, objs, cleaners, n).store.Keys <= Run(w, steps, objs, cleaners, n).store.Keys
  {
    hide Run;
  }
}
