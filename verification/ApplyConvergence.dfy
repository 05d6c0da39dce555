/** Apply converges: an error-free pass brings every managed object to its wanted state and
    sweeps what is no longer wanted, and a second pass changes nothing. */
module ApplyConvergence {
  import opened Wrappers
  import opened Cluster
  import opened Managed
  import opened Manager
  import opened TeardownSafety
  import Token

  // ----- What is wanted -----

  /** A copy holds the data of its source, and none if the source has no such data. */
  ghost predicate HoldsCopy(copy: Payload, source: Payload, contentType: string) {
    match source
    case Content(data, _) => copy == Content(data, contentType)
    case _ => copy == Content(map[], contentType)
  }

  /** The content a recipe asks for, given the store before the pass. A token is either one
      that was not yet due, or one granted during the pass. */
  ghost predicate Fits(recipe: Recipe, script: Script, before: Store, current: Payload, payload: Payload) {
    match recipe
    case Leave => payload == current
    case Overwrite(wanted) => payload == wanted
    case Reject(_) => false
    case CopyOf(source, contentType) =>
      source in before && HoldsCopy(payload, before[source].payload, contentType)
    case RefreshToken(_, namespace, poll, server) =>
      exists t: nat :: (payload == current && !Token.RefreshDue(current, script(t).now, poll))
                    || (Token.EndpointOf(namespace, server).Some?
                        && payload == Token.Renewed(script(t).granted, Token.EndpointOf(namespace, server).value))
  }

  /** The state an object starts from: what is stored, or a fresh object, labelled. */
  function Base(before: Store, key: Key): Stored {
    SetManagedBy(if key in before then before[key] else FRESH)
  }

  /** The object is stored with the wanted content, and otherwise as it was. */
  ghost predicate Converged(o: ManagedObject, script: Script, before: Store, after: Store) {
    && o.key in after
    && after[o.key] == Base(before, o.key).(payload := after[o.key].payload)
    && Fits(o.recipe, script, before, Base(before, o.key).payload, after[o.key].payload)
  }

  ghost predicate SameAt(before: Store, after: Store, k: Key) {
    if k in before then k in after && after[k] == before[k] else k !in after
  }

  /** The sources of copies are neither managed nor swept. */
  ghost predicate SourcesApart(objs: seq<ManagedObject>, cleaners: seq<Cleaner>) {
    forall o :: o in objs && o.recipe.CopyOf? ==>
      && (forall x :: x in objs ==> x.key != o.recipe.source)
      && (forall c :: c in cleaners ==> !c.Removes(o.recipe.source))
  }

  /** A cleaner removes the object. */
  ghost predicate Swept(cleaners: seq<Cleaner>, store: Store, k: Key) {
    k in store && Labelled(store[k]) && exists c :: c in cleaners && c.Removes(k)
  }

  // ----- One visit -----

  lemma SilentAwait(w: World, script: Script)
    requires Silent(script)
    ensures Await(w, script).store == w.store
  {
  }

  lemma SilentReconcile(w: World, script: Script, recipe: Recipe, current: Payload)
    requires Silent(script)
    ensures var (w', content) := Reconcile(w, script, recipe, current);
            && w'.store == w.store
            && (content.Ok? ==> Fits(recipe, script, w.store, current, content.value))
  {
    SilentAwait(w, script);
    SilentAwait(Await(w, script), script);
    if recipe.RefreshToken? {
      var t, t' := w.tick, w.tick + 1;
      assert Token.RefreshDue(current, script(t).now, recipe.poll) || !Token.RefreshDue(current, script(t).now, recipe.poll);
      assert script(t').granted == script(t').granted;
    }
  }

  lemma SilentWrite(w: World, script: Script, key: Key, read: Stored, stored: Stored)
    requires Silent(script)
    ensures Create(w, script, key, stored).1.Accepted? ==> Create(w, script, key, stored).0.store == w.store[key := stored]
    ensures Update(w, script, key, read, stored).1.Accepted? ==>
              Update(w, script, key, read, stored).0.store == w.store[key := stored]
  {
    SilentAwait(w, script);
  }

  /** The effect of one error-free visit, relative to the store it finds. */
  lemma VisitWrites(w: World, script: Script, o: ManagedObject)
    requires Silent(script) && ApplyVisit(w, script, o).1.error == None
    ensures var after := ApplyVisit(w, script, o).0.store;
            && Converged(o, script, w.store, after)
            && after == w.store[o.key := after[o.key]]
            && ApplyVisit(w, script, o).1.seen == Some(after[o.key])
  {
    hide Await, Reconcile, Create, Update, Fits;
    SilentAwait(w, script);
    var (w1, reply) := Get(w, script, o.key);
    assert w1 == Await(w, script);
    var current := if reply.Found? then reply.stored.payload else Blank;
    SilentReconcile(w1, script, o.recipe, current);
    var (w2, content) := Reconcile(w1, script, o.recipe, current);
    var wanted := Base(w.store, o.key).(payload := content.value);
    SilentWrite(w2, script, o.key, if reply.Found? then reply.stored else FRESH, wanted);
  }

  lemma LabellingTwice(s: Stored)
    ensures SetManagedBy(SetManagedBy(s)) == SetManagedBy(s)
  {
    assert s.labels[MANAGED_BY := MANAGED_BY_VALUE][MANAGED_BY := MANAGED_BY_VALUE] == s.labels[MANAGED_BY := MANAGED_BY_VALUE];
  }

  function Keys(objs: seq<ManagedObject>, n: nat): set<Key>
    requires n <= |objs|
  {
    set o | o in objs[..n] :: o.key
  }

  /** After the first `n` visits: those objects converged, nothing else changed. */
  ghost predicate Progress(objs: seq<ManagedObject>, script: Script, before: Store, after: Store, n: nat)
    requires n <= |objs|
  {
    && (forall o :: o in objs[..n] ==> Converged(o, script, before, after))
    && (forall k :: k !in Keys(objs, n) ==> SameAt(before, after, k))
  }

  /** A visit converges relative to the store before the pass, whether the object was
      untouched so far or already visited. */
  lemma ConvergedFromStart(o: ManagedObject, script: Script, before: Store, middle: Store, after: Store)
    requires Converged(o, script, middle, after)
    requires SameAt(before, middle, o.key) || Converged(o, script, before, middle)
    requires o.recipe.CopyOf? ==> SameAt(before, middle, o.recipe.source)
    ensures Converged(o, script, before, after)
  {
    if !SameAt(before, middle, o.key) {
      LabellingTwice(if o.key in before then before[o.key] else FRESH);
      LabellingTwice(middle[o.key]);
    }
  }

  lemma {:induction false} VisitsProgress(objs: seq<ManagedObject>, cleaners: seq<Cleaner>, w: World, script: Script, n: nat)
    requires n <= |objs| && Silent(script) && KeyedApart(objs) && SourcesApart(objs, cleaners)
    requires ErrorFree(Visits(w, script, objs, false, n).1)
    ensures Progress(objs, script, w.store, Visits(w, script, objs, false, n).0.store, n)
  {
    hide ApplyVisit, Converged, ErrorFree, Silent;
    if n > 0 {
      var (w1, reports) := Visits(w, script, objs, false, n - 1);
      var o := objs[n - 1];
      var (w2, report) := ApplyVisit(w1, script, o);
      assert Visits(w, script, objs, false, n).1 == reports + [report];
      ErrorFreeSplits(reports, [report]);
      VisitsProgress(objs, cleaners, w, script, n - 1);
      ErrorFreeOne(report);
      VisitWrites(w1, script, o);
      ProgressStep(objs, cleaners, script, w.store, w1.store, w2.store, n - 1);
    }
  }

  lemma ErrorFreeSplits(a: seq<Report>, b: seq<Report>)
    ensures ErrorFree(a + b) <==> ErrorFree(a) && ErrorFree(b)
  {
    forall r | r in a ensures r in a + b {
    }
    forall r | r in b ensures r in a + b {
    }
  }

  lemma ErrorFreeOne(r: Report)
    ensures ErrorFree([r]) <==> r.error == None
  {
    assert r in [r];
  }

  lemma ProgressStep(objs: seq<ManagedObject>, cleaners: seq<Cleaner>, script: Script, before: Store, middle: Store,
                     after: Store, n: nat)
    requires n < |objs| && KeyedApart(objs) && SourcesApart(objs, cleaners)
    requires Progress(objs, script, before, middle, n)
    requires Converged(objs[n], script, middle, after) && after == middle[objs[n].key := after[objs[n].key]]
    ensures Progress(objs, script, before, after, n + 1)
  {
    var o := objs[n];
    assert objs[..n + 1] == objs[..n] + [o];
    if o in objs[..n] {
      assert Converged(o, script, before, middle);
    } else {
      assert o.key !in Keys(objs, n);
    }
    if o.recipe.CopyOf? {
      assert o.recipe.source !in Keys(objs, n);
    }
    assert Keys(objs, n + 1) == Keys(objs, n) + {o.key};
    ConvergedFromStart(o, script, before, middle, after);
    forall x | x in objs[..n] && x.key != o.key ensures Converged(x, script, before, after) {
      ConvergedElsewhere(x, script, before, middle, after);
    }
  }

  lemma ConvergedElsewhere(x: ManagedObject, script: Script, before: Store, middle: Store, after: Store)
    requires Converged(x, script, before, middle) && SameAt(middle, after, x.key)
    ensures Converged(x, script, before, after)
  {
  }

  // ----- The cleaners -----

  /** What a sweep may do to an object that is in the way. */
  ghost predicate Removed(before: Stored, after: Store, k: Key) {
    k in after ==> before.held && after[k] == before.(terminating := true)
  }

  /** `after` is `before` without the objects satisfying `gone`; held ones are terminating. */
  ghost predicate SweptStore(before: Store, after: Store, gone: Key -> bool) {
    && after.Keys <= before.Keys
    && forall k :: k in before ==> if gone(k) then Removed(before[k], after, k) else SameAt(before, after, k)
  }

  lemma SilentDelete(w: World, script: Script, key: Key)
    requires Silent(script)
    ensures var (w', reply) := Delete(w, script, key);
            !reply.WriteFailed? ==> w'.store == Erased(w.store, key)
  {
    SilentAwait(w, script);
  }

  ghost function Among(items: seq<Key>, n: nat, c: Cleaner): Key -> bool
    requires n <= |items|
  {
    k => k in items[..n] && k.name !in c.keep
  }

  lemma {:induction false} SweepDoes(w: World, script: Script, c: Cleaner, items: seq<Key>, n: nat)
    requires n <= |items| && Silent(script)
    requires SweepItems(w, script, c, items, n).1 == []
    ensures SweptStore(w.store, SweepItems(w, script, c, items, n).0.store, Among(items, n, c))
  {
    hide Delete, Silent;
    if n > 0 {
      SweepDoes(w, script, c, items, n - 1);
      SilentDelete(SweepItems(w, script, c, items, n - 1).0, script, items[n - 1]);
      assert items[..n] == items[..n - 1] + [items[n - 1]];
    }
  }

  ghost function Cleaned(cleaners: seq<Cleaner>, n: nat, store: Store): Key -> bool
    requires n <= |cleaners|
  {
    k => Swept(cleaners[..n], store, k)
  }

  lemma CleanupDoes(w: World, script: Script, c: Cleaner)
    requires Silent(script) && ListsFaithfully(script)
    requires Cleanup(w, script, c).1 == [] && !Cleanup(w, script, c).2
    ensures SweptStore(w.store, Cleanup(w, script, c).0.store, k => k in w.store && Labelled(w.store[k]) && c.Removes(k))
  {
    hide SweepItems, Silent, ListsFaithfully;
    SilentAwait(w, script);
    ListedAreCovered(w, script, c);
    var (w1, reply) := List(w, script, c.cluster, c.kind, c.namespace);
    var keys := reply.keys;
    SweepDoes(w1, script, c, keys, |keys|);
    assert keys[..|keys|] == keys;
  }

  lemma {:induction false} CleanupsDo(w: World, script: Script, cleaners: seq<Cleaner>, n: nat)
    requires n <= |cleaners| && Silent(script) && ListsFaithfully(script)
    requires Cleanups(w, script, cleaners, n).1 == [] && !Cleanups(w, script, cleaners, n).2
    ensures SweptStore(w.store, Cleanups(w, script, cleaners, n).0.store, Cleaned(cleaners, n, w.store))
  {
    hide Cleanup, Silent, ListsFaithfully;
    if n > 0 {
      CleanupsDo(w, script, cleaners, n - 1);
      var w1 := Cleanups(w, script, cleaners, n - 1).0;
      CleanupDoes(w1, script, cleaners[n - 1]);
      SweepTwice(w.store, w1.store, Cleanup(w1, script, cleaners[n - 1]).0.store, cleaners, n - 1);
    }
  }

  lemma SweepTwice(before: Store, middle: Store, after: Store, cleaners: seq<Cleaner>, n: nat)
    requires n < |cleaners|
    requires SweptStore(before, middle, Cleaned(cleaners, n, before))
    requires SweptStore(middle, after, k => k in middle && Labelled(middle[k]) && cleaners[n].Removes(k))
    ensures SweptStore(before, after, Cleaned(cleaners, n + 1, before))
  {
    var c := cleaners[n];
    assert cleaners[..n + 1] == cleaners[..n] + [c];
    forall k | k in before
      ensures if Cleaned(cleaners, n + 1, before)(k) then Removed(before[k], after, k) else SameAt(before, after, k)
    {
      assert Swept(cleaners[..n + 1], before, k) <==>
        Swept(cleaners[..n], before, k) || (Labelled(before[k]) && c.Removes(k));
    }
  }

  // ----- The pass -----

  /** An error-free Apply, from any store and undisturbed, leaves every managed object in its
      wanted state, removes the labelled objects that no cleaner keeps, and changes nothing
      else. */
  lemma ApplyConverges(objs: seq<ManagedObject>, cleaners: seq<Cleaner>, w: World, script: Script)
    requires Silent(script) && ListsFaithfully(script)
    requires KeyedApart(objs) && Spares(cleaners, objs) && SourcesApart(objs, cleaners)
    requires Pass(w, script, objs, cleaners, false).Clean()
    ensures var after := Pass(w, script, objs, cleaners, false).world.store;
            && (forall o :: o in objs ==> Converged(o, script, w.store, after))
            && (forall k :: k !in Keys(objs, |objs|) ==>
                  if Swept(cleaners, w.store, k) then Removed(w.store[k], after, k) else SameAt(w.store, after, k))
  {
    hide Visits, Cleanups, ListsFaithfully, Silent, ErrorFree, Converged;
    var (w1, reports) := Visits(w, script, objs, false, |objs|);
    var (w2, more, failed) := Cleanups(w1, script, cleaners, |cleaners|);
    ErrorFreeSplits(reports, more);
    VisitsProgress(objs, cleaners, w, script, |objs|);
    CleanersReportErrors(w1, script, cleaners, |cleaners|);
    CleanupsDo(w1, script, cleaners, |cleaners|);
    assert objs[..|objs|] == objs && cleaners[..|cleaners|] == cleaners;
    SweptThenSettled(objs, cleaners, script, w.store, w1.store, w2.store);
  }

  lemma SweptThenSettled(objs: seq<ManagedObject>, cleaners: seq<Cleaner>, script: Script, before: Store, middle: Store,
                         after: Store)
    requires Spares(cleaners, objs)
    requires Progress(objs, script, before, middle, |objs|)
    requires SweptStore(middle, after, Cleaned(cleaners, |cleaners|, middle))
    ensures forall o :: o in objs ==> Converged(o, script, before, after)
    ensures forall k :: k !in Keys(objs, |objs|) ==>
              if Swept(cleaners, before, k) then Removed(before[k], after, k) else SameAt(before, after, k)
  {
    hide Converged;
    assert objs[..|objs|] == objs && cleaners[..|cleaners|] == cleaners;
    forall o | o in objs ensures Converged(o, script, before, after) {
      assert Converged(o, script, before, middle);
      ConvergedIsStored(o, script, before, middle);
      assert !Swept(cleaners, middle, o.key);
      ConvergedElsewhere(o, script, before, middle, after);
    }
    forall k | k !in Keys(objs, |objs|)
      ensures if Swept(cleaners, before, k) then Removed(before[k], after, k) else SameAt(before, after, k)
    {
      assert SameAt(before, middle, k);
      assert Swept(cleaners, before, k) <==> Swept(cleaners, middle, k);
    }
  }

  lemma ConvergedIsStored(o: ManagedObject, script: Script, before: Store, after: Store)
    requires Converged(o, script, before, after)
    ensures o.key in after && Labelled(after[o.key])
  {
  }

  lemma {:induction false} CleanersReportErrors(w: World, script: Script, cleaners: seq<Cleaner>, n: nat)
    requires n <= |cleaners|
    ensures ErrorFree(Cleanups(w, script, cleaners, n).1) ==> Cleanups(w, script, cleaners, n).1 == []
  {
    hide SweepItems, ErrorFree;
    if n > 0 {
      var (w1, reports, failed) := Cleanups(w, script, cleaners, n - 1);
      var c := cleaners[n - 1];
      CleanersReportErrors(w, script, cleaners, n - 1);
      ErrorFreeSplits(reports, Cleanup(w1, script, c).1);
      var (w2, reply) := List(w1, script, c.cluster, c.kind, c.namespace);
      if reply.Listed? {
        SweepReportsErrors(w2, script, c, reply.keys, |reply.keys|);
      }
    }
  }

  lemma {:induction false} SweepReportsErrors(w: World, script: Script, c: Cleaner, items: seq<Key>, n: nat)
    requires n <= |items|
    ensures ErrorFree(SweepItems(w, script, c, items, n).1) ==> SweepItems(w, script, c, items, n).1 == []
  {
    hide Delete, ErrorFree;
    if n > 0 {
      SweepReportsErrors(w, script, c, items, n - 1);
      var reports := SweepItems(w, script, c, items, n - 1).1;
      assert reports + [] == reports;
      ErrorFreeSplits(reports, [c.FailureReport(items[n - 1])]);
      ErrorFreeOne(c.FailureReport(items[n - 1]));
    }
  }

  // ----- A second pass -----

  /** A pass over this store finds nothing to do. */
  ghost predicate Stable(objs: seq<ManagedObject>, cleaners: seq<Cleaner>, store: Store) {
    && (forall o :: o in objs ==> o.key in store && Labelled(store[o.key]))
    && (forall o :: o in objs ==>
          match o.recipe
          case Leave => true
          case Overwrite(wanted) => store[o.key].payload == wanted
          case Reject(_) => false
          case CopyOf(source, contentType) =>
            source in store && HoldsCopy(store[o.key].payload, store[source].payload, contentType)
          case RefreshToken(_, _, _, _) => true)
    && (forall k :: Swept(cleaners, store, k) ==> store[k].held && store[k].terminating)
  }

  /** No token falls due at any time the script shows. */
  ghost predicate TokensLast(objs: seq<ManagedObject>, store: Store, script: Script) {
    forall o, t: nat :: o in objs && o.recipe.RefreshToken? && o.key in store ==>
      !Token.RefreshDue(store[o.key].payload, script(t).now, o.recipe.poll)
  }

  lemma StableVisit(w: World, script: Script, objs: seq<ManagedObject>, cleaners: seq<Cleaner>, o: ManagedObject)
    requires Quiet(script) && Stable(objs, cleaners, w.store) && TokensLast(objs, w.store, script) && o in objs
    ensures var (w', report) := ApplyVisit(w, script, o);
            w'.store == w.store && report.operation == Nothing && report.error == None
  {
    hide Create, Update, Await;
    SilentAwait(w, script);
    SilentAwait(Await(w, script), script);
    var s := w.store[o.key];
    assert s.labels[MANAGED_BY := MANAGED_BY_VALUE] == s.labels;
  }

  lemma {:induction false} StableVisits(w: World, script: Script, objs: seq<ManagedObject>, cleaners: seq<Cleaner>, n: nat)
    requires n <= |objs|
    requires Quiet(script) && Stable(objs, cleaners, w.store) && TokensLast(objs, w.store, script)
    ensures var (w', reports) := Visits(w, script, objs, false, n);
            && w'.store == w.store
            && (forall r :: r in reports ==> r.operation == Nothing && r.error == None)
  {
    hide ApplyVisit, Stable, TokensLast, Quiet;
    if n > 0 {
      StableVisits(w, script, objs, cleaners, n - 1);
      StableVisit(Visits(w, script, objs, false, n - 1).0, script, objs, cleaners, objs[n - 1]);
    }
  }

  lemma {:induction false} StableSweep(w: World, script: Script, c: Cleaner, items: seq<Key>, n: nat)
    requires n <= |items| && Quiet(script)
    requires forall k :: k in items && k.name !in c.keep && k in w.store ==> w.store[k].held && w.store[k].terminating
    ensures var (w', reports) := SweepItems(w, script, c, items, n);
            w'.store == w.store && reports == []
  {
    hide Delete, Quiet;
    if n > 0 {
      StableSweep(w, script, c, items, n - 1);
      var w1 := SweepItems(w, script, c, items, n - 1).0;
      var key := items[n - 1];
      QuietErase(w1, script, key);
      if key.name !in c.keep && key in w.store {
        assert w.store[key].(terminating := true) == w.store[key];
        assert Erased(w.store, key) == w.store;
      }
    }
  }

  lemma QuietErase(w: World, script: Script, key: Key)
    requires Quiet(script)
    ensures Delete(w, script, key).0.store == Erased(w.store, key) && !Delete(w, script, key).1.WriteFailed?
  {
    SilentAwait(w, script);
  }

  lemma {:induction false} StableCleanups(w: World, script: Script, cleaners: seq<Cleaner>, n: nat)
    requires n <= |cleaners| && Quiet(script)
    requires forall k :: Swept(cleaners, w.store, k) ==> w.store[k].held && w.store[k].terminating
    ensures var (w', reports, failed) := Cleanups(w, script, cleaners, n);
            w'.store == w.store && reports == [] && !failed
  {
    hide SweepItems;
    if n > 0 {
      StableCleanups(w, script, cleaners, n - 1);
      var w1 := Cleanups(w, script, cleaners, n - 1).0;
      var c := cleaners[n - 1];
      assert c in cleaners;
      ListedAreCovered(w1, script, c);
      var (w2, reply) := List(w1, script, c.cluster, c.kind, c.namespace);
      assert forall k :: k in reply.keys && k.name !in c.keep ==> Swept(cleaners, w.store, k);
      StableSweep(w2, script, c, reply.keys, |reply.keys|);
    }
  }

  /** What the first pass leaves is stable. */
  lemma ConvergedIsStable(objs: seq<ManagedObject>, cleaners: seq<Cleaner>, w: World, script: Script)
    requires Silent(script) && ListsFaithfully(script)
    requires KeyedApart(objs) && Spares(cleaners, objs) && SourcesApart(objs, cleaners)
    requires Pass(w, script, objs, cleaners, false).Clean()
    ensures Stable(objs, cleaners, Pass(w, script, objs, cleaners, false).world.store)
  {
    hide Pass, Silent, ListsFaithfully;
    ApplyConverges(objs, cleaners, w, script);
    var after := Pass(w, script, objs, cleaners, false).world.store;
    forall o | o in objs && o.recipe.CopyOf? ensures SameAt(w.store, after, o.recipe.source) {
      assert o.recipe.source !in Keys(objs, |objs|);
      assert !Swept(cleaners, w.store, o.recipe.source);
    }
    forall k | Swept(cleaners, after, k) ensures after[k].held && after[k].terminating {
      assert k !in Keys(objs, |objs|) by {
        assert objs[..|objs|] == objs;
      }
      assert SameAt(w.store, after, k) || Swept(cleaners, w.store, k);
    }
    forall o | o in objs ensures o.key in after && Labelled(after[o.key]) {
      assert Converged(o, script, w.store, after);
      ConvergedIsStored(o, script, w.store, after);
    }
  }

  /** A second Apply changes nothing: every report is free of errors and operations, and the
      store stays as it is, provided calls succeed and no token falls due. */
  lemma ApplyIsIdempotent(objs: seq<ManagedObject>, cleaners: seq<Cleaner>, w: World, script: Script, script2: Script)
    requires Silent(script) && ListsFaithfully(script) && Quiet(script2)
    requires KeyedApart(objs) && Spares(cleaners, objs) && SourcesApart(objs, cleaners)
    requires Pass(w, script, objs, cleaners, false).Clean()
    requires TokensLast(objs, Pass(w, script, objs, cleaners, false).world.store, script2)
    ensures var first := Pass(w, script, objs, cleaners, false).world;
            var second := Pass(first, script2, objs, cleaners, false);
            && second.world.store == first.store && second.Clean()
            && forall r :: r in second.reports ==> r.operation == Nothing
  {
    hide Visits, Cleanups, Stable, TokensLast;
    ConvergedIsStable(objs, cleaners, w, script);
    var first := Pass(w, script, objs, cleaners, false).world;
    StableVisits(first, script2, objs, cleaners, |objs|);
    StableHasNoSwept(objs, cleaners, first.store);
    StableCleanups(Visits(first, script2, objs, false, |objs|).0, script2, cleaners, |cleaners|);
  }

  lemma StableHasNoSwept(objs: seq<ManagedObject>, cleaners: seq<Cleaner>, store: Store)
    requires Stable(objs, cleaners, store)
    ensures forall k :: Swept(cleaners, store, k) ==> store[k].held && store[k].terminating
  {
  }

  // ----- What the reports show -----

  /** The state shown by a report is the object's state after the pass, up to its content. */
  ghost predicate Shows(r: Report, o: ManagedObject, before: Store) {
    && r.managed == o && r.seen.Some?
    && r.seen.value.terminating == Base(before, o.key).terminating
    && r.seen.value.ready == Base(before, o.key).ready
  }

  lemma ShownFromStart(r: Report, o: ManagedObject, script: Script, before: Store, middle: Store, after: Store)
    requires Converged(o, script, middle, after) && r.managed == o && r.seen == Some(after[o.key])
    requires SameAt(before, middle, o.key) || Converged(o, script, before, middle)
    ensures Shows(r, o, before)
  {
  }

  lemma {:induction false} VisitsShow(objs: seq<ManagedObject>, cleaners: seq<Cleaner>, w: World, script: Script, n: nat)
    requires n <= |objs| && Silent(script) && KeyedApart(objs) && SourcesApart(objs, cleaners)
    requires ErrorFree(Visits(w, script, objs, false, n).1)
    ensures var reports := Visits(w, script, objs, false, n).1;
            |reports| == n && forall i :: 0 <= i < n ==> Shows(reports[i], objs[i], w.store)
  {
    hide ApplyVisit, Converged, ErrorFree, Silent, Shows, SourcesApart;
    if n > 0 {
      var (w1, reports) := Visits(w, script, objs, false, n - 1);
      var o := objs[n - 1];
      var (w2, report) := ApplyVisit(w1, script, o);
      assert Visits(w, script, objs, false, n).1 == reports + [report];
      ErrorFreeSplits(reports, [report]);
      VisitsShow(objs, cleaners, w, script, n - 1);
      ErrorFreeOne(report);
      VisitWrites(w1, script, o);
      VisitsProgress(objs, cleaners, w, script, n - 1);
      ApplyNamesObject(w1, script, o);
      UntouchedOrConverged(objs, script, w.store, w1.store, n - 1);
      ShownFromStart(report, o, script, w.store, w1.store, w2.store);
    }
  }

  lemma ApplyNamesObject(w: World, script: Script, o: ManagedObject)
    ensures ApplyVisit(w, script, o).1.managed == o
  {
    hide Reconcile, Create, Update, Get;
  }

  lemma UntouchedOrConverged(objs: seq<ManagedObject>, script: Script, before: Store, middle: Store, n: nat)
    requires n < |objs| && KeyedApart(objs) && Progress(objs, script, before, middle, n)
    ensures SameAt(before, middle, objs[n].key) || Converged(objs[n], script, before, middle)
  {
    hide Converged;
    if objs[n] !in objs[..n] {
      assert objs[n].key !in Keys(objs, n);
    }
  }

  /** In a clean pass the reports are those of the objects, in order, and each shows whether
      its object is terminating, and whether it is ready, after the pass. */
  lemma ReportsShowTheStore(objs: seq<ManagedObject>, cleaners: seq<Cleaner>, w: World, script: Script)
    requires Silent(script) && ListsFaithfully(script)
    requires KeyedApart(objs) && Spares(cleaners, objs) && SourcesApart(objs, cleaners)
    requires Pass(w, script, objs, cleaners, false).Clean()
    ensures var outcome := Pass(w, script, objs, cleaners, false);
            && |outcome.reports| == |objs|
            && forall i :: 0 <= i < |objs| ==>
                 var r, after := outcome.reports[i], outcome.world.store;
                 && r.managed == objs[i] && r.seen.Some? && objs[i].key in after
                 && r.seen.value.terminating == after[objs[i].key].terminating
                 && r.seen.value.ready == after[objs[i].key].ready
  {
    ApplyConverges(objs, cleaners, w, script);
    hide Visits, Cleanups, ListsFaithfully, Silent, ErrorFree;
    var (w1, reports) := Visits(w, script, objs, false, |objs|);
    var more := Cleanups(w1, script, cleaners, |cleaners|).1;
    ErrorFreeSplits(reports, more);
    VisitsShow(objs, cleaners, w, script, |objs|);
    CleanersReportErrors(w1, script, cleaners, |cleaners|);
    assert reports + [] == reports;
    hide Fits;
    forall i | 0 <= i < |objs|
      ensures Converged(objs[i], script, w.store, Pass(w, script, objs, cleaners, false).world.store)
    {
      assert objs[i] in objs;
    }
  }

  // ----- The order of creation -----

  lemma ErrorFreePrefix(objs: seq<ManagedObject>, w: World, script: Script, m: nat, n: nat)
    requires m <= n <= |objs| && ErrorFree(Visits(w, script, objs, false, n).1)
    ensures ErrorFree(Visits(w, script, objs, false, m).1)
    decreases n
  {
    hide Visit, ErrorFree;
    if m < n {
      var (w1, reports) := Visits(w, script, objs, false, n - 1);
      ErrorFreeSplits(reports, [Visit(w1, script, objs[n - 1], objs, false).1]);
      ErrorFreePrefix(objs, w, script, m, n - 1);
    }
  }

  /** In an error-free Apply over a list with dependencies first, everything an object depends
      on is stored before the object itself is visited. */
  lemma CreatedAfterDependencies(objs: seq<ManagedObject>, cleaners: seq<Cleaner>, w: World, script: Script, i: nat,
                                 y: ManagedObject)
    requires Silent(script) && KeyedApart(objs) && SourcesApart(objs, cleaners) && DependencyFirst(objs)
    requires ErrorFree(Visits(w, script, objs, false, |objs|).1)
    requires i < |objs| && y in objs[i].deps
    ensures y.key in Visits(w, script, objs, false, i).0.store
  {
    hide Visits, Converged, ErrorFree, Silent;
    assert y in objs;
    var j :| 0 <= j < |objs| && objs[j] == y;
    assert j < i;
    ErrorFreePrefix(objs, w, script, i, |objs|);
    VisitsProgress(objs, cleaners, w, script, i);
    assert y == objs[..i][j];
    ConvergedIsStored(y, script, w.store, Visits(w, script, objs, false, i).0.store);
  }

  /** A script that refuses exactly one call. */
  function RefuseOnce(refused: nat): Script {
    (t: nat) => Turn(if t == refused then Refused else Served, (s: Store) => s, (ks: set<Key>) => [], 0, Cluster.Token("", 0))
  }

  /** Apply neither checks dependencies nor stops on an error: when the creation of a
      dependency is refused, the object that needs it is created all the same. */
  lemma CreationOutrunsItsDependency(y: ManagedObject, x: ManagedObject)
    requires y.recipe == Leave && x.recipe == Leave && x.deps == [y] && x.key != y.key
    ensures var after := Visits(World(map[], 0, {}, []), RefuseOnce(1), [y, x], false, 2).0.store;
            x.key in after && y.key !in after
  {
    var w, script := World(map[], 0, {}, []), RefuseOnce(1);
    hide Visits;
    VisitsTwo(w, script, y, x);
  }

  lemma VisitsTwo(w: World, script: Script, y: ManagedObject, x: ManagedObject)
    ensures Visits(w, script, [y, x], false, 2).0
         == ApplyVisit(ApplyVisit(w, script, y).0, script, x).0
  {
    hide ApplyVisit;
    assert Visits(w, script, [y, x], false, 0) == (w, []);
    assert Visits(w, script, [y, x], false, 1).0 == ApplyVisit(w, script, y).0;
  }
}
