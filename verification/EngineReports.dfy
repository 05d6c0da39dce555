/** What the reports of single visits say: the operation, the state shown and the very errors. */
module EngineReports {
  import opened Wrappers
  import opened Cluster
  import opened Managed
  import opened Manager
  import opened ApplyConvergence
  import opened ApplyOutcome
  import opened TeardownRounds
  import opened TokenStore

  // ----- Deleting -----

  /** The error says that this dependent of `o` still exists. */
  ghost predicate NamesDependent(objs: seq<ManagedObject>, o: ManagedObject, store: Store, e: Failure) {
    exists d :: d in objs && o in d.deps && d.key in store && e == DependentExists(d.key)
  }

  ghost predicate NamesOneOf(ds: seq<ManagedObject>, n: nat, store: Store, e: Failure)
    requires n <= |ds|
  {
    exists j :: 0 <= j < n && ds[j].key in store && e == DependentExists(ds[j].key)
  }

  lemma NamesOneMore(ds: seq<ManagedObject>, n: nat, store: Store, e: Failure)
    requires n < |ds|
    ensures NamesOneOf(ds, n + 1, store, e) <==>
              NamesOneOf(ds, n, store, e) || (ds[n].key in store && e == DependentExists(ds[n].key))
  {
  }

  lemma {:induction false} ChecksName(w: World, script: Script, ds: seq<ManagedObject>, n: nat, e: Failure)
    requires n <= |ds| && Quiet(script)
    ensures e in CheckForDependents(w, script, ds, n).1 <==> NamesOneOf(ds, n, w.store, e)
  {
    hide Get, Quiet, CheckForDependents, NamesOneOf;
    if n > 0 {
      var d := ds[n - 1];
      ChecksName(w, script, ds, n - 1, e);
      NamesOneMore(ds, n - 1, w.store, e);
      QuietCheck(w, script, ds, n - 1);
      NextCheck(w, script, ds, n - 1, map[]);
      var (w1, errors) := CheckForDependents(w, script, ds, n - 1);
      QuietGet(w1, script, d.key);
      var more := DependentErrors(Get(w1, script, d.key).1, d);
      assert e in errors + more <==> e in errors || e in more;
    } else {
      NothingChecked(w, script, ds, map[]);
      NamesNone(ds, w.store, e);
    }
  }

  lemma NamesNone(ds: seq<ManagedObject>, store: Store, e: Failure)
    ensures !NamesOneOf(ds, 0, store, e)
  {
  }

  /** Without faults a visit deletes unless dependents exist, and then names exactly them; a missing
      object is reported as deleted, and an orphaned one as well. */
  lemma DeletionReport(w: World, script: Script, objs: seq<ManagedObject>, o: ManagedObject)
    requires Quiet(script) && o in objs
    ensures var report := Visit(w, script, o, objs, true).1;
            if exists d :: d in objs && o in d.deps && d.key in w.store then
              && report.operation == Nothing && report.error.Some? && report.error.value.Joined?
              && forall e :: e in report.error.value.errors <==> NamesDependent(objs, o, w.store, e)
            else
              && report.error == None
              && report.operation == if o.policy == Orphan || o.key !in w.store then Deleted else DeletionRequested
  {
    hide CheckForDependents, DependentsOf, Delete, Quiet, NamesOneOf, NamesDependent;
    var ds := DependentsOf(objs, o, |objs|);
    DependentsAreReverseEdges(objs, o, |objs|);
    assert objs[..|objs|] == objs;
    QuietDelete(CheckForDependents(w, script, ds, |ds|).0, script, o.key);
    QuietCheck(w, script, ds, |ds|);
    forall e ensures e in CheckForDependents(w, script, ds, |ds|).1 <==> NamesDependent(objs, o, w.store, e) {
      ChecksName(w, script, ds, |ds|, e);
      SameNames(objs, o, ds, w.store, e);
    }
    assert (exists d :: d in objs && o in d.deps && d.key in w.store) <==> exists j :: 0 <= j < |ds| && ds[j].key in w.store by {
      if j :| 0 <= j < |ds| && ds[j].key in w.store {
        assert ds[j] in ds;
      }
    }
  }

  lemma SameNames(objs: seq<ManagedObject>, o: ManagedObject, ds: seq<ManagedObject>, store: Store, e: Failure)
    requires forall d :: d in ds <==> d in objs && o in d.deps
    ensures NamesOneOf(ds, |ds|, store, e) <==> NamesDependent(objs, o, store, e)
  {
    if NamesDependent(objs, o, store, e) {
      var d :| d in objs && o in d.deps && d.key in store && e == DependentExists(d.key);
      assert d in ds;
    }
    if NamesOneOf(ds, |ds|, store, e) {
      var j :| 0 <= j < |ds| && ds[j].key in store && e == DependentExists(ds[j].key);
      assert ds[j] in ds;
    }
  }

  /** Whatever fails: a delete call that was not served is an error, and one that was is none; an
      object that was not attempted carries the errors of the check. */
  lemma DeletionReportAnyway(w: World, script: Script, objs: seq<ManagedObject>, o: ManagedObject)
    ensures var (w', report) := Visit(w, script, o, objs, true);
            match report.operation
            case Nothing => report.error.Some? && report.error.value.Joined? && report.error.value.errors != [] && w'.requested == w.requested
            case Deleted => report.error == None && (o.policy != Orphan ==> w'.tick > w.tick && script(w'.tick - 1).fate == Served)
            case DeletionRequested =>
              && w'.tick > w.tick && w'.requested == w.requested + {o.key}
              && report.error == if script(w'.tick - 1).fate == Served then None else Some(CallFailed)
            case _ => false
  {
    hide CheckForDependents, DependentsOf;
    var ds := DependentsOf(objs, o, |objs|);
    ChecksRequestNothing(w, script, ds, |ds|);
  }

  lemma {:induction false} ChecksRequestNothing(w: World, script: Script, ds: seq<ManagedObject>, n: nat)
    requires n <= |ds|
    ensures var w' := CheckForDependents(w, script, ds, n).0;
            w'.requested == w.requested && w'.tick == w.tick + n
  {
    if n > 0 {
      ChecksRequestNothing(w, script, ds, n - 1);
    }
  }

  // ----- Applying -----

  /** Why content cannot be made, if it cannot; the clock is read on turn `t`. */
  ghost predicate Fails(o: ManagedObject, store: Store, script: Script, t: nat, e: Failure) {
    match o.recipe
    case Leave => false
    case Overwrite(_) => false
    case Reject(reason) => e == Rejected(reason)
    case CopyOf(source, _) => source !in store && e == SourceMissing(source)
    case RefreshToken(account, _, poll, server) =>
      && !Lasts(ContentAt(store, o.key), script(t).now, poll)
      && (if server.None? then e == NoRestConfig
          else if account !in store then e == SourceMissing(account)
          else server.value.caFile == Unreadable && e == CaFileUnreadable)
  }

  ghost predicate Succeeds(o: ManagedObject, store: Store, script: Script, t: nat) {
    forall e :: !Fails(o, store, script, t, e)
  }

  lemma ContentOrReason(w: World, script: Script, o: ManagedObject)
    requires Quiet(script)
    ensures var (w', content) := Reconcile(w, script, o.recipe, ContentAt(w.store, o.key));
            && w'.store == w.store
            && (content.Err? ==> Fails(o, w.store, script, w.tick, content.error))
            && (content.Ok? ==> Succeeds(o, w.store, script, w.tick))
  {
    SilentAwait(w, script);
    SilentAwait(Await(w, script), script);
  }

  /** Without faults a visit reports the very reason why the content could not be made, and else
      whether the object was created, updated or left alone, and the state it is in now. */
  lemma ApplyReport(w: World, script: Script, o: ManagedObject)
    requires Quiet(script)
    ensures var (w', report) := ApplyVisit(w, script, o);
            && report.managed == o
            && (match report.error
                case Some(e) => Fails(o, w.store, script, w.tick + 1, e) && report.operation == Nothing && w'.store == w.store
                case None =>
                  && Succeeds(o, w.store, script, w.tick + 1)
                  && o.key in w'.store && report.seen == Some(w'.store[o.key])
                  && report.operation == (if o.key !in w.store then Created
                                          else if w'.store == w.store then Nothing else Updated))
  {
    hide Await, Reconcile, Create, Update, Fails, Succeeds;
    SilentAwait(w, script);
    var (w1, reply) := Get(w, script, o.key);
    assert w1 == Await(w, script) && w1.tick == w.tick + 1 by {
      AwaitTicks(w, script);
    }
    ContentOrReason(w1, script, o);
    var (w2, content) := Reconcile(w1, script, o.recipe, ContentAt(w1.store, o.key));
    if content.Ok? {
      var read := if reply.Found? then reply.stored else FRESH;
      var wanted := SetManagedBy(read).(payload := content.value);
      QuietWrite(w2, script, o.key, read, wanted);
      SilentWrite(w2, script, o.key, read, wanted);
    }
  }

  /** Whatever fails: an object that cannot be read is reported with that error alone; with any other
      error nothing counts as done and the state read is shown, if there was one; without an error the
      operation follows from the state read and the state written. */
  lemma ApplyReportAnyway(w: World, script: Script, o: ManagedObject)
    ensures var report := ApplyVisit(w, script, o).1;
            var read := script(w.tick).drift(w.store);
            if script(w.tick).fate != Served then report == Report(o, Nothing, None, Some(CallFailed))
            else
              && report.managed == o
              && (report.error.Some? ==> report.operation == Nothing && (report.seen.Some? <==> o.key in read))
              && (report.seen.Some? && o.key in read ==>
                    && report.seen.value.terminating == read[o.key].terminating
                    && report.seen.value.ready == read[o.key].ready && Labelled(report.seen.value))
              && (report.error.None? ==>
                    && report.seen.Some?
                    && report.operation == (if o.key !in read then Created
                                            else if report.seen.value == read[o.key] then Nothing else Updated))
  {
    hide Reconcile, Create, Update;
    if script(w.tick).fate == Served && o.key in script(w.tick).drift(w.store) {
      var read := script(w.tick).drift(w.store)[o.key];
      assert Labelled(SetManagedBy(read));
      assert SetManagedBy(read).terminating == read.terminating && SetManagedBy(read).ready == read.ready;
    }
  }
}
