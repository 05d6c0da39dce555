/** What a Delete pass comes to know of the state of objects: it never reads the object it deletes,
    only those that depend on it. */
module TeardownSightings {
  import opened Wrappers
  import opened Cluster
  import opened Managed
  import opened Manager
  import opened TeardownRounds
  import opened ApplyConvergence

  /** One of the first `n` checks is of `d`, which is stored. */
  ghost predicate CheckedAndFound(ds: seq<ManagedObject>, n: nat, store: Store, d: ManagedObject)
    requires n <= |ds|
  {
    d.key in store && exists j :: 0 <= j < n && ds[j] == d
  }

  lemma {:induction false} ChecksSight(w: World, script: Script, ds: seq<ManagedObject>, n: nat, known: Sightings, d: ManagedObject)
    requires n <= |ds| && Quiet(script)
    ensures var after := Sighted(w, script, ds, n, known);
            if CheckedAndFound(ds, n, w.store, d) then d in after && after[d] == w.store[d.key]
            else (d in after <==> d in known) && (d in known ==> after[d] == known[d])
  {
    hide CheckForDependents, Get, Quiet;
    if n > 0 {
      ChecksSight(w, script, ds, n - 1, known, d);
      var w1 := CheckForDependents(w, script, ds, n - 1).0;
      QuietCheck(w, script, ds, n - 1);
      QuietGet(w1, script, ds[n - 1].key);
    }
  }

  lemma {:induction false} VisitsEraseTheirOwn(objs: seq<ManagedObject>, w: World, script: Script, n: nat, k: Key)
    requires n <= |objs| && Quiet(script) && forall i :: 0 <= i < n ==> objs[i].key != k
    ensures SameAt(w.store, Visits(w, script, objs, true, n).0.store, k)
  {
    hide Visit, Quiet, Blocked;
    if n > 0 {
      VisitsEraseTheirOwn(objs, w, script, n - 1, k);
      QuietVisit(Visits(w, script, objs, true, n - 1).0, script, objs, objs[n - 1]);
    }
  }

  /** A dependent is checked before its own turn to be deleted comes. */
  lemma DependentsComeLater(objs: seq<ManagedObject>, n: nat, d: ManagedObject)
    requires n < |objs| && KeyedApart(objs) && DependencyFirst(objs) && d in objs && objs[n] in d.deps
    ensures forall i :: 0 <= i < n ==> objs[i].key != d.key
  {
    forall i | 0 <= i < n ensures objs[i].key != d.key {
      assert objs[i] in objs && objs[i] != d;
    }
  }

  /** After `n` visits. */
  lemma {:induction false} VisitsSight(objs: seq<ManagedObject>, w: World, script: Script, n: nat, d: ManagedObject)
    requires n <= |objs| && Quiet(script) && KeyedApart(objs) && DependencyFirst(objs)
    ensures var known := SightedBy(w, script, objs, true, n, map[]);
            && (d in known <==> d in objs && d.key in w.store && DependsOnOneOf(objs, d, n))
            && (d in known ==> known[d] == w.store[d.key])
  {
    hide Visits, Sighted, DependentsOf, Quiet, KeyedApart, DependencyFirst;
    if n > 0 {
      VisitsSight(objs, w, script, n - 1, d);
      var w1 := Visits(w, script, objs, true, n - 1).0;
      var ds := DependentsOf(objs, objs[n - 1], |objs|);
      ChecksSight(w1, script, ds, |ds|, SightedBy(w, script, objs, true, n - 1, map[]), d);
      DependentIff(objs, objs[n - 1], |objs|, d);
      if d in objs && objs[n - 1] in d.deps {
        DependentsComeLater(objs, n - 1, d);
        VisitsEraseTheirOwn(objs, w, script, n - 1, d.key);
      }
      assert DependsOnOneOf(objs, d, n) <==> DependsOnOneOf(objs, d, n - 1) || objs[n - 1] in d.deps;
    }
  }

  /** An undisturbed Delete pass knows the state of exactly the stored objects that depend on
      something, and knows it as it was before the pass. */
  lemma DeletionSees(objs: seq<ManagedObject>, w: World, script: Script, d: ManagedObject)
    requires Quiet(script) && KeyedApart(objs) && DependencyFirst(objs) && d in objs
    ensures var known := SightedBy(w, script, objs, true, |objs|, map[]);
            && (d in known <==> d.key in w.store && d.deps != [])
            && (d in known ==> known[d] == w.store[d.key])
  {
    hide SightedBy, Quiet, KeyedApart;
    VisitsSight(objs, w, script, |objs|, d);
    if d.deps != [] {
      assert d.deps[0] in objs;
      var i :| 0 <= i < |objs| && objs[i] == d.deps[0];
      assert objs[i] in d.deps;
    }
  }
}
