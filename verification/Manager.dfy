/** The reconcile engine: one pass over all managed objects, then the cleaners.

    The functions say what a pass does; class Manager does it with loops over its clusters,
    and is proved to do exactly that. */
module Manager {
  import opened Wrappers
  import opened Cluster
  import opened Managed
  import Token

  datatype Operation = Nothing | Created | Updated | Deleted | DeletionRequested | DeletionFailed

  /** An orphaned object counts as deleted. */
  const ORPHANED := Deleted

  datatype Failure =
    | CallFailed
    | DependentExists(key: Key)
    | SourceMissing(key: Key)
    | NoRestConfig
    | CaFileUnreadable
    | Rejected(reason: string)
    | Joined(errors: seq<Failure>)

  /** What became of one object; `seen` is its state when last read, if it has been. */
  datatype Report = Report(managed: ManagedObject, operation: Operation, seen: Option<Stored>, error: Option<Failure>)

  predicate AllDeleted(reports: seq<Report>) {
    forall r | r in reports :: r.operation == Deleted
  }

  predicate ErrorFree(reports: seq<Report>) {
    forall r | r in reports :: r.error == None
  }

  // ----- Dependents -----
  // Loops over a sequence are described by how far they have come: the last argument `n`
  // counts the elements already handled.

  /** `x` once for each of the first `n` dependencies that is `o`. */
  function Occurrences(deps: seq<ManagedObject>, o: ManagedObject, x: ManagedObject, n: nat): seq<ManagedObject>
    requires n <= |deps|
  {
    if n == 0 then []
    else Occurrences(deps, o, x, n - 1) + if deps[n - 1] == o then [x] else []
  }

  /** Those of the first `n` objects that name `o` as a dependency, in order, once for each
      time they do. */
  function DependentsOf(objs: seq<ManagedObject>, o: ManagedObject, n: nat): seq<ManagedObject>
    requires n <= |objs|
  {
    if n == 0 then []
    else
      var x := objs[n - 1];
      DependentsOf(objs, o, n - 1) + Occurrences(x.deps, o, x, |x.deps|)
  }

  lemma {:induction false} OccurrencesAre(deps: seq<ManagedObject>, o: ManagedObject, x: ManagedObject, n: nat)
    requires n <= |deps|
    ensures forall d :: d in Occurrences(deps, o, x, n) ==> d == x
  {
    if n > 0 {
      OccurrencesAre(deps, o, x, n - 1);
    }
  }

  lemma {:induction false} OccurrencesIff(deps: seq<ManagedObject>, o: ManagedObject, x: ManagedObject, n: nat)
    requires n <= |deps|
    ensures x in Occurrences(deps, o, x, n) <==> exists i :: 0 <= i < n && deps[i] == o
  {
    if n > 0 {
      OccurrencesIff(deps, o, x, n - 1);
    }
  }

  /** `d` is among the first `n` objects and names `o` as a dependency. */
  ghost predicate IsDependent(objs: seq<ManagedObject>, o: ManagedObject, n: nat, d: ManagedObject)
    requires n <= |objs|
  {
    o in d.deps && exists i :: 0 <= i < n && objs[i] == d
  }

  /** One object of the reverse map. */
  lemma {:induction false} DependentIff(objs: seq<ManagedObject>, o: ManagedObject, n: nat, d: ManagedObject)
    requires n <= |objs|
    ensures d in DependentsOf(objs, o, n) <==> IsDependent(objs, o, n, d)
  {
    if n > 0 {
      hide Occurrences;
      var x := objs[n - 1];
      DependentIff(objs, o, n - 1, d);
      OccurrencesAre(x.deps, o, x, |x.deps|);
      OccurrencesIff(x.deps, o, x, |x.deps|);
    }
  }

  /** The reverse map holds exactly the reverse edges. */
  lemma DependentsAreReverseEdges(objs: seq<ManagedObject>, o: ManagedObject, n: nat)
    requires n <= |objs|
    ensures forall d :: d in DependentsOf(objs, o, n) <==> d in objs[..n] && o in d.deps
  {
    hide DependentsOf;
    forall d ensures d in DependentsOf(objs, o, n) <==> d in objs[..n] && o in d.deps {
      DependentIff(objs, o, n, d);
      assert d in objs[..n] <==> exists i :: 0 <= i < n && objs[i] == d;
    }
  }

  function DependentErrors(reply: GetReply, d: ManagedObject): seq<Failure> {
    match reply
    case NotFound => []
    case GetFailed => [CallFailed]
    case Found(_) => [DependentExists(d.key)]
  }

  /** The errors met while checking that none of the first `n` of `ds` exists any more. */
  function CheckForDependents(w: World, script: Script, ds: seq<ManagedObject>, n: nat): (World, seq<Failure>)
    requires n <= |ds|
  {
    if n == 0 then (w, [])
    else
      var (w1, errors) := CheckForDependents(w, script, ds, n - 1);
      var (w2, reply) := Get(w1, script, ds[n - 1].key);
      (w2, errors + DependentErrors(reply, ds[n - 1]))
  }

  type Sightings = map<ManagedObject, Stored>

  /** What is known of the state of objects after checking the first `n` of `ds`: a check that
      finds a dependent leaves its state in the object. */
  function Sighted(w: World, script: Script, ds: seq<ManagedObject>, n: nat, known: Sightings): Sightings
    requires n <= |ds|
  {
    if n == 0 then known
    else
      var before := Sighted(w, script, ds, n - 1, known);
      var reply := Get(CheckForDependents(w, script, ds, n - 1).0, script, ds[n - 1].key).1;
      if reply.Found? then before[ds[n - 1] := reply.stored] else before
  }

  lemma NothingChecked(w: World, script: Script, ds: seq<ManagedObject>, known: Sightings)
    ensures CheckForDependents(w, script, ds, 0) == (w, []) && Sighted(w, script, ds, 0, known) == known
  {
  }

  /** One check more. */
  lemma NextCheck(w: World, script: Script, ds: seq<ManagedObject>, n: nat, known: Sightings)
    requires n < |ds|
    ensures var (w1, errors) := CheckForDependents(w, script, ds, n);
            var (w2, reply) := Get(w1, script, ds[n].key);
            var before := Sighted(w, script, ds, n, known);
            && CheckForDependents(w, script, ds, n + 1) == (w2, errors + DependentErrors(reply, ds[n]))
            && Sighted(w, script, ds, n + 1, known) == if reply.Found? then before[ds[n] := reply.stored] else before
  {
    hide Get, DependentErrors;
  }

  lemma NoErrorsYet(errors: seq<Failure>, reply: GetReply, d: ManagedObject)
    ensures errors + DependentErrors(reply, d) == [] <==> errors == [] && reply.NotFound?
  {
  }

  // ----- One object -----

  function DeleteVisit(w: World, script: Script, o: ManagedObject, ds: seq<ManagedObject>): (World, Report) {
    var (w1, errors) := CheckForDependents(w, script, ds, |ds|);
    if errors != [] then (w1, Report(o, Nothing, None, Some(Joined(errors))))
    else if o.policy == Orphan then (w1, Report(o, ORPHANED, None, None))
    else
      var (w2, reply) := Delete(w1, script, o.key);
      (w2, match reply
           case Gone => Report(o, Deleted, None, None)
           case Accepted => Report(o, DeletionRequested, None, None)
           case WriteFailed => Report(o, DeletionRequested, None, Some(CallFailed)))
  }

  function DataOf(p: Payload): map<string, string> {
    if p.Content? then p.data else map[]
  }

  /** The content an object should have, given the content it has. */
  function Reconcile(w: World, script: Script, recipe: Recipe, current: Payload): (World, Result<Payload, Failure>) {
    match recipe
    case Leave => (w, Ok(current))
    case Overwrite(payload) => (w, Ok(payload))
    case Reject(reason) => (w, Err(Rejected(reason)))
    case CopyOf(source, contentType) =>
      var (w1, reply) := Get(w, script, source);
      (w1, match reply
           case Found(s) => Ok(Content(DataOf(s.payload), contentType))
           case NotFound => Err(SourceMissing(source))
           case GetFailed => Err(CallFailed))
    case RefreshToken(account, namespace, poll, server) =>
      if !Token.RefreshDue(current, script(w.tick).now, poll) then (w, Ok(current))
      else if server.None? then (w, Err(NoRestConfig))
      else
        var (w1, reply) := Get(w, script, account);
        match reply
        case NotFound => (w1, Err(SourceMissing(account)))
        case GetFailed => (w1, Err(CallFailed))
        case Found(_) =>
          var (w2, token) := RequestToken(w1, script);
          var endpoint := Token.EndpointOf(namespace, server);
          (w2, if token.None? then Err(CallFailed)
               else if endpoint.None? then Err(CaFileUnreadable)
               else Ok(Token.Renewed(token.value, endpoint.value)))
  }

  const FRESH := Stored(map[], false, false, false, Blank)

  function ApplyVisit(w: World, script: Script, o: ManagedObject): (World, Report) {
    var (w1, reply) := Get(w, script, o.key);
    match reply
    case GetFailed => (w1, Report(o, Nothing, None, Some(CallFailed)))
    case NotFound =>
      var (w2, content) := Reconcile(w1, script, o.recipe, Blank);
      if content.Err? then (w2, Report(o, Nothing, None, Some(content.error)))
      else
        var wanted := SetManagedBy(FRESH).(payload := content.value);
        var (w3, done) := Create(w2, script, o.key, wanted);
        (w3, if done.Accepted? then Report(o, Created, Some(wanted), None)
             else Report(o, Nothing, None, Some(CallFailed)))
    case Found(read) =>
      var (w2, content) := Reconcile(w1, script, o.recipe, read.payload);
      if content.Err? then (w2, Report(o, Nothing, Some(SetManagedBy(read)), Some(content.error)))
      else
        var wanted := SetManagedBy(read).(payload := content.value);
        if wanted == read then (w2, Report(o, Nothing, Some(read), None))
        else
          var (w3, done) := Update(w2, script, o.key, read, wanted);
          (w3, if done.Accepted? then Report(o, Updated, Some(wanted), None)
               else Report(o, Nothing, Some(wanted), Some(CallFailed)))
  }

  function Visit(w: World, script: Script, o: ManagedObject, all: seq<ManagedObject>, isDeletion: bool): (World, Report) {
    if isDeletion then DeleteVisit(w, script, o, DependentsOf(all, o, |all|)) else ApplyVisit(w, script, o)
  }

  /** Visits to the first `n` objects, in order. */
  function Visits(w: World, script: Script, objs: seq<ManagedObject>, isDeletion: bool, n: nat): (World, seq<Report>)
    requires n <= |objs|
  {
    if n == 0 then (w, [])
    else
      var (w1, reports) := Visits(w, script, objs, isDeletion, n - 1);
      var (w2, report) := Visit(w1, script, objs[n - 1], objs, isDeletion);
      (w2, reports + [report])
  }

  /** What is known of the state of objects after the first `n` visits. */
  function SightedBy(w: World, script: Script, objs: seq<ManagedObject>, isDeletion: bool, n: nat, known: Sightings): Sightings
    requires n <= |objs|
  {
    if n == 0 || !isDeletion then known
    else
      var ds := DependentsOf(objs, objs[n - 1], |objs|);
      Sighted(Visits(w, script, objs, isDeletion, n - 1).0, script, ds, |ds|,
              SightedBy(w, script, objs, isDeletion, n - 1, known))
  }

  lemma NothingVisited(w: World, script: Script, objs: seq<ManagedObject>, isDeletion: bool, known: Sightings)
    ensures Visits(w, script, objs, isDeletion, 0) == (w, []) && SightedBy(w, script, objs, isDeletion, 0, known) == known
  {
  }

  /** One visit more. */
  lemma NextVisit(w: World, script: Script, objs: seq<ManagedObject>, isDeletion: bool, n: nat, known: Sightings)
    requires n < |objs|
    ensures var (w1, reports) := Visits(w, script, objs, isDeletion, n);
            var (w2, report) := Visit(w1, script, objs[n], objs, isDeletion);
            var ds := DependentsOf(objs, objs[n], |objs|);
            var before := SightedBy(w, script, objs, isDeletion, n, known);
            && Visits(w, script, objs, isDeletion, n + 1) == (w2, reports + [report])
            && SightedBy(w, script, objs, isDeletion, n + 1, known)
               == if isDeletion then Sighted(w1, script, ds, |ds|, before) else before
  {
    hide Visit, Sighted, DependentsOf;
  }

  lemma {:induction false} SightedIsChecked(w: World, script: Script, ds: seq<ManagedObject>, n: nat, known: Sightings,
                                            d: ManagedObject)
    requires n <= |ds| && d in Sighted(w, script, ds, n, known)
    ensures d in known || d in ds
  {
    hide CheckForDependents, Get;
    if n > 0 && d != ds[n - 1] {
      SightedIsChecked(w, script, ds, n - 1, known, d);
    }
  }

  /** One of the first `n` objects is one that `d` depends on. */
  ghost predicate DependsOnOneOf(objs: seq<ManagedObject>, d: ManagedObject, n: nat)
    requires n <= |objs|
  {
    exists i :: 0 <= i < n && objs[i] in d.deps
  }

  /** Only the state of objects that depend on a visited one comes to be known. */
  lemma {:induction false} SightedAreDependents(w: World, script: Script, objs: seq<ManagedObject>, n: nat, d: ManagedObject)
    requires n <= |objs| && d in SightedBy(w, script, objs, true, n, map[])
    ensures d in objs && DependsOnOneOf(objs, d, n)
  {
    hide Sighted, Visits, DependentsOf;
    if n > 0 {
      var known := SightedBy(w, script, objs, true, n - 1, map[]);
      var ds := DependentsOf(objs, objs[n - 1], |objs|);
      if d in known {
        SightedAreDependents(w, script, objs, n - 1, d);
      } else {
        SightedIsChecked(Visits(w, script, objs, true, n - 1).0, script, ds, |ds|, known, d);
        DependentIff(objs, objs[n - 1], |objs|, d);
      }
    }
  }

  // ----- Cleaners -----

  /** Removes labelled objects of one kind from one namespace, except the names to keep. */
  datatype Cleaner = Cleaner(cluster: string, kind: Kind, namespace: string, keep: seq<string>) {
    predicate Covers(key: Key) {
      key.cluster == cluster && key.kind == kind && key.namespace == namespace
    }

    predicate Removes(key: Key) {
      Covers(key) && key.name !in keep
    }

    function FailureReport(key: Key): Report {
      Report(NewManagedObject(key, Leave, [], Some(DeleteIt),
                              if kind == ConfigMap then CleanupOfConfigMap else CleanupOfSecret),
             DeletionFailed, None, Some(CallFailed))
    }
  }

  function SweepItems(w: World, script: Script, c: Cleaner, items: seq<Key>, n: nat): (World, seq<Report>)
    requires n <= |items|
  {
    if n == 0 then (w, [])
    else
      var (w1, reports) := SweepItems(w, script, c, items, n - 1);
      var key := items[n - 1];
      if key.name in c.keep then (w1, reports)
      else
        var (w2, reply) := Delete(w1, script, key);
        (w2, reports + if reply.WriteFailed? then [c.FailureReport(key)] else [])
  }

  /** The reports of one cleaner, and whether its listing failed. */
  function Cleanup(w: World, script: Script, c: Cleaner): (World, seq<Report>, bool) {
    var (w1, reply) := List(w, script, c.cluster, c.kind, c.namespace);
    match reply
    case ListFailed => (w1, [], true)
    case Listed(keys) =>
      var (w2, reports) := SweepItems(w1, script, c, keys, |keys|);
      (w2, reports, false)
  }

  function Cleanups(w: World, script: Script, cleaners: seq<Cleaner>, n: nat): (World, seq<Report>, bool)
    requires n <= |cleaners|
  {
    if n == 0 then (w, [], false)
    else
      var (w1, reports, failed) := Cleanups(w, script, cleaners, n - 1);
      var (w2, more, failedHere) := Cleanup(w1, script, cleaners[n - 1]);
      (w2, reports + more, failed || failedHere)
  }

  // ----- A pass -----

  datatype Outcome = Outcome(world: World, reports: seq<Report>, cleanerFailed: bool) {
    predicate Clean() {
      ErrorFree(reports) && !cleanerFailed
    }
  }

  function Pass(w: World, script: Script, objs: seq<ManagedObject>, cleaners: seq<Cleaner>, isDeletion: bool): Outcome {
    var (w1, reports) := Visits(w, script, objs, isDeletion, |objs|);
    var (w2, more, failed) := Cleanups(w1, script, cleaners, |cleaners|);
    Outcome(w2, reports + more, failed)
  }

  // ----- The engine itself -----

  /** The objects managed on one cluster, in the order they were added. */
  class ManagedCluster {
    const cluster: string
    const defaultNamespace: string
    var objects: seq<ManagedObject>

    constructor (cluster: string, defaultNamespace: string)
      ensures this.cluster == cluster && this.defaultNamespace == defaultNamespace && objects == []
    {
      this.cluster, this.defaultNamespace := cluster, defaultNamespace;
      objects := [];
    }

    method AddObject(o: ManagedObject)
      modifies this
      ensures objects == old(objects) + [o]
    {
      objects := objects + [o];
    }
  }

  /** The objects of the first `n` clusters, cluster by cluster. */
  function Flattened(clusters: seq<ManagedCluster>, n: nat): seq<ManagedObject>
    requires n <= |clusters|
    reads clusters
  {
    if n == 0 then []
    else Flattened(clusters, n - 1) + clusters[n - 1].objects
  }

  lemma {:induction false} FlattenedPrefix(clusters: seq<ManagedCluster>, n: nat, m: nat)
    requires n <= m <= |clusters|
    ensures Flattened(clusters, n) <= Flattened(clusters, m)
  {
    if n < m {
      FlattenedPrefix(clusters, n, m - 1);
    }
  }

  /** The objects of one cluster stand together in the flattened list. */
  lemma InPlace(clusters: seq<ManagedCluster>, i: nat)
    requires i < |clusters|
    ensures var all := Flattened(clusters, |clusters|);
            var from := |Flattened(clusters, i)|;
            && from + |clusters[i].objects| <= |all|
            && clusters[i].objects == all[from..from + |clusters[i].objects|]
            && |Flattened(clusters, i + 1)| == from + |clusters[i].objects|
  {
    FlattenedPrefix(clusters, i + 1, |clusters|);
  }

  /** Looks up the dependents recorded for an object. */
  function Recorded(deps: Dependents, o: ManagedObject): seq<ManagedObject> {
    if o in deps then deps[o] else []
  }

  type Dependents = map<ManagedObject, seq<ManagedObject>>

  /** `known`, with `mo` added once for each of its first `n` dependencies. */
  function WithDependencies(known: Dependents, mo: ManagedObject, n: nat): Dependents
    requires n <= |mo.deps|
  {
    if n == 0 then known
    else
      var deps := WithDependencies(known, mo, n - 1);
      deps[mo.deps[n - 1] := Recorded(deps, mo.deps[n - 1]) + [mo]]
  }

  /** The reverse dependency map of the first `n` objects. */
  function DependentsMap(objs: seq<ManagedObject>, n: nat): Dependents
    requires n <= |objs|
  {
    if n == 0 then map[]
    else WithDependencies(DependentsMap(objs, n - 1), objs[n - 1], |objs[n - 1].deps|)
  }

  lemma {:induction false} WithDependenciesRecords(known: Dependents, mo: ManagedObject, n: nat, o: ManagedObject)
    requires n <= |mo.deps|
    ensures Recorded(WithDependencies(known, mo, n), o) == Recorded(known, o) + Occurrences(mo.deps, o, mo, n)
  {
    if n > 0 {
      WithDependenciesRecords(known, mo, n - 1, o);
    }
  }

  /** The map agrees with the direct definition of an object's dependents. */
  lemma {:induction false} DependentsMapRecords(objs: seq<ManagedObject>, n: nat, o: ManagedObject)
    requires n <= |objs|
    ensures Recorded(DependentsMap(objs, n), o) == DependentsOf(objs, o, n)
  {
    if n > 0 {
      DependentsMapRecords(objs, n - 1, o);
      WithDependenciesRecords(DependentsMap(objs, n - 1), objs[n - 1], |objs[n - 1].deps|, o);
    }
  }

  class Manager {
    const api: ApiServer
    var clusters: seq<ManagedCluster>
    var cleaners: seq<Cleaner>
    var sighted: Sightings

    constructor (api: ApiServer)
      ensures this.api == api && clusters == [] && cleaners == [] && sighted == map[]
    {
      this.api := api;
      clusters, cleaners, sighted := [], [], map[];
    }

    method AddCluster(mc: ManagedCluster)
      modifies this
      ensures clusters == old(clusters) + [mc] && cleaners == old(cleaners) && sighted == old(sighted)
    {
      clusters := clusters + [mc];
    }

    method AddCleaner(c: Cleaner)
      modifies this
      ensures cleaners == old(cleaners) + [c] && clusters == old(clusters) && sighted == old(sighted)
    {
      cleaners := cleaners + [c];
    }

    function Objects(): seq<ManagedObject>
      reads this`clusters, clusters
    {
      Flattened(clusters, |clusters|)
    }

    method Apply() returns (reports: seq<Report>, cleanerFailed: bool)
      modifies api, this`sighted
      ensures sighted == SightedBy(old(api.world), api.script, Objects(), false, |Objects()|, old(sighted))
      ensures Outcome(api.world, reports, cleanerFailed) == Pass(old(api.world), api.script, Objects(), cleaners, false)
    {
      reports, cleanerFailed := ReconcileObjects(false);
    }

    method Delete() returns (reports: seq<Report>, cleanerFailed: bool)
      modifies api, this`sighted
      ensures sighted == SightedBy(old(api.world), api.script, Objects(), true, |Objects()|, old(sighted))
      ensures Outcome(api.world, reports, cleanerFailed) == Pass(old(api.world), api.script, Objects(), cleaners, true)
    {
      reports, cleanerFailed := ReconcileObjects(true);
    }

    method ReconcileObjects(isDeletion: bool) returns (reports: seq<Report>, cleanerFailed: bool)
      modifies api, this`sighted
      ensures sighted == SightedBy(old(api.world), api.script, Objects(), isDeletion, |Objects()|, old(sighted))
      ensures Outcome(api.world, reports, cleanerFailed) == Pass(old(api.world), api.script, Objects(), cleaners, isDeletion)
    {
      hide Visits, Cleanups;
      var deps := GetDependents();
      var visited := VisitAll(deps, isDeletion);
      var more: seq<Report>;
      more, cleanerFailed := RunCleaners();
      reports := visited + more;
    }

    method VisitAll(deps: Dependents, isDeletion: bool) returns (reports: seq<Report>)
      requires deps == DependentsMap(Objects(), |Objects()|)
      modifies api, this`sighted
      ensures sighted == SightedBy(old(api.world), api.script, Objects(), isDeletion, |Objects()|, old(sighted))
      ensures (api.world, reports) == Visits(old(api.world), api.script, Objects(), isDeletion, |Objects()|)
    {
      hide Visit, Visits, Sighted, SightedBy, DependentsMap;
      NothingVisited(api.world, api.script, Objects(), isDeletion, sighted);
      reports := [];
      ghost var all := Objects();
      ghost var n := 0;
      var i := 0;
      while i < |clusters|
        invariant 0 <= i <= |clusters|
        invariant n == |Flattened(clusters, i)| <= |all|
        invariant (api.world, reports) == Visits(old(api.world), api.script, all, isDeletion, n)
        invariant sighted == SightedBy(old(api.world), api.script, all, isDeletion, n, old(sighted))
      {
        InPlace(clusters, i);
        reports := VisitCluster(clusters[i], deps, old(api.world), old(sighted), all, n, reports, isDeletion);
        n := n + |clusters[i].objects|;
        i := i + 1;
      }
    }

    method VisitCluster(mc: ManagedCluster, deps: Dependents, ghost start: World, ghost known: Sightings,
                        ghost all: seq<ManagedObject>, ghost from: nat, sofar: seq<Report>, isDeletion: bool)
      returns (reports: seq<Report>)
      requires deps == DependentsMap(all, |all|)
      requires from + |mc.objects| <= |all| && mc.objects == all[from..from + |mc.objects|]
      requires (api.world, sofar) == Visits(start, api.script, all, isDeletion, from)
      requires sighted == SightedBy(start, api.script, all, isDeletion, from, known)
      modifies api, this`sighted
      ensures sighted == SightedBy(start, api.script, all, isDeletion, from + |mc.objects|, known)
      ensures (api.world, reports) == Visits(start, api.script, all, isDeletion, from + |mc.objects|)
    {
      hide Visit, Visits, Sighted, SightedBy, DependentsOf, DependentsMap;
      reports := sofar;
      var objects := mc.objects;
      var j := 0;
      while j < |objects|
        invariant 0 <= j <= |objects|
        invariant (api.world, reports) == Visits(start, api.script, all, isDeletion, from + j)
        invariant sighted == SightedBy(start, api.script, all, isDeletion, from + j, known)
      {
        NextVisit(start, api.script, all, isDeletion, from + j, known);
        var report := ReconcileObject(objects[j], deps, all, isDeletion);
        reports := reports + [report];
        j := j + 1;
      }
    }

    method RunCleaners() returns (reports: seq<Report>, cleanerFailed: bool)
      modifies api
      ensures (api.world, reports, cleanerFailed) == Cleanups(old(api.world), api.script, cleaners, |cleaners|)
    {
      hide Cleanup;
      reports, cleanerFailed := [], false;
      var i := 0;
      while i < |cleaners|
        invariant 0 <= i <= |cleaners|
        invariant (api.world, reports, cleanerFailed) == Cleanups(old(api.world), api.script, cleaners, i)
      {
        var found, failed := RunCleaner(cleaners[i]);
        reports, cleanerFailed := reports + found, cleanerFailed || failed;
        i := i + 1;
      }
    }

    method ReconcileObject(o: ManagedObject, deps: Dependents,
                           ghost all: seq<ManagedObject>, isDeletion: bool) returns (report: Report)
      requires deps == DependentsMap(all, |all|)
      modifies api, this`sighted
      ensures (api.world, report) == Visit(old(api.world), api.script, o, all, isDeletion)
      ensures sighted == if !isDeletion then old(sighted) else
                           var ds := DependentsOf(all, o, |all|);
                           Sighted(old(api.world), api.script, ds, |ds|, old(sighted))
    {
      if isDeletion {
        DependentsMapRecords(all, |all|, o);
        var errors := CheckDependents(Recorded(deps, o));
        if errors != [] {
          return Report(o, Nothing, None, Some(Joined(errors)));
        }
        if o.policy == Orphan {
          return Report(o, ORPHANED, None, None);
        }
        var reply := api.DeleteObject(o.key);
        if reply.Gone? {
          return Report(o, Deleted, None, None);
        }
        return Report(o, DeletionRequested, None, if reply.Accepted? then None else Some(CallFailed));
      }
      report := CreateOrUpdate(o);
    }

    method CheckDependents(ds: seq<ManagedObject>) returns (errors: seq<Failure>)
      modifies api, this`sighted
      ensures (api.world, errors) == CheckForDependents(old(api.world), api.script, ds, |ds|)
      ensures sighted == Sighted(old(api.world), api.script, ds, |ds|, old(sighted))
    {
      hide CheckForDependents, Sighted, Get;
      NothingChecked(api.world, api.script, ds, sighted);
      errors := [];
      var i := 0;
      while i < |ds|
        invariant 0 <= i <= |ds|
        invariant (api.world, errors) == CheckForDependents(old(api.world), api.script, ds, i)
        invariant sighted == Sighted(old(api.world), api.script, ds, i, old(sighted))
      {
        NextCheck(old(api.world), api.script, ds, i, old(sighted));
        var reply := api.GetObject(ds[i].key);
        if reply.GetFailed? {
          errors := errors + [CallFailed];
        } else if reply.Found? {
          errors := errors + [DependentExists(ds[i].key)];
          sighted := sighted[ds[i] := reply.stored];
        } else {
          assert errors + [] == errors;
        }
        i := i + 1;
      }
    }

    method CreateOrUpdate(o: ManagedObject) returns (report: Report)
      modifies api
      ensures (api.world, report) == ApplyVisit(old(api.world), api.script, o)
    {
      var reply := api.GetObject(o.key);
      if reply.GetFailed? {
        return Report(o, Nothing, None, Some(CallFailed));
      }
      var content := ReconcileContent(o.recipe, if reply.Found? then reply.stored.payload else Blank);
      if reply.NotFound? {
        if content.Err? {
          return Report(o, Nothing, None, Some(content.error));
        }
        var wanted := SetManagedBy(FRESH).(payload := content.value);
        var created := api.CreateObject(o.key, wanted);
        return if created.Accepted? then Report(o, Created, Some(wanted), None)
               else Report(o, Nothing, None, Some(CallFailed));
      }
      var read := reply.stored;
      if content.Err? {
        return Report(o, Nothing, Some(SetManagedBy(read)), Some(content.error));
      }
      var wanted := SetManagedBy(read).(payload := content.value);
      if wanted == read {
        return Report(o, Nothing, Some(read), None);
      }
      var updated := api.UpdateObject(o.key, read, wanted);
      return if updated.Accepted? then Report(o, Updated, Some(wanted), None)
             else Report(o, Nothing, Some(wanted), Some(CallFailed));
    }

    method ReconcileContent(recipe: Recipe, current: Payload) returns (content: Result<Payload, Failure>)
      modifies api
      ensures (api.world, content) == Reconcile(old(api.world), api.script, recipe, current)
    {
      match recipe {
        case Leave =>
          content := Ok(current);
        case Overwrite(payload) =>
          content := Ok(payload);
        case Reject(reason) =>
          content := Err(Rejected(reason));
        case CopyOf(source, contentType) =>
          var reply := api.GetObject(source);
          content := match reply
            case Found(s) => Ok(Content(DataOf(s.payload), contentType))
            case NotFound => Err(SourceMissing(source))
            case GetFailed => Err(CallFailed);
        case RefreshToken(account, namespace, poll, server) =>
          var now := api.script(api.world.tick).now;
          if !Token.RefreshDue(current, now, poll) {
            return Ok(current);
          }
          if server.None? {
            return Err(NoRestConfig);
          }
          var reply := api.GetObject(account);
          if !reply.Found? {
            return Err(if reply.NotFound? then SourceMissing(account) else CallFailed);
          }
          var token := api.CreateToken();
          if token.None? {
            return Err(CallFailed);
          }
          var endpoint := Token.EndpointOf(namespace, server);
          content := if endpoint.None? then Err(CaFileUnreadable) else Ok(Token.Renewed(token.value, endpoint.value));
      }
    }

    method RunCleaner(c: Cleaner) returns (reports: seq<Report>, failed: bool)
      modifies api
      ensures (api.world, reports, failed) == Cleanup(old(api.world), api.script, c)
    {
      reports := [];
      var reply := api.ListObjects(c.cluster, c.kind, c.namespace);
      if reply.ListFailed? {
        return [], true;
      }
      ghost var start := api.world;
      var items := reply.keys;
      var i := 0;
      while i < |items|
        invariant 0 <= i <= |items|
        invariant (api.world, reports) == SweepItems(start, api.script, c, items, i)
      {
        if items[i].name !in c.keep {
          var deleted := api.DeleteObject(items[i]);
          if deleted.WriteFailed? {
            reports := reports + [c.FailureReport(items[i])];
          } else {
            assert reports + [] == reports;
          }
        }
        i := i + 1;
      }
      failed := false;
    }

    method RecordDependencies(known: Dependents, mo: ManagedObject)
      returns (deps: Dependents)
      ensures deps == WithDependencies(known, mo, |mo.deps|)
    {
      deps := known;
      var k := 0;
      while k < |mo.deps|
        invariant 0 <= k <= |mo.deps|
        invariant deps == WithDependencies(known, mo, k)
      {
        var dep := mo.deps[k];
        deps := deps[dep := Recorded(deps, dep) + [mo]];
        k := k + 1;
      }
    }

    method GetDependents() returns (deps: Dependents)
      ensures deps == DependentsMap(Objects(), |Objects()|)
    {
      deps := map[];
      ghost var all := Objects();
      ghost var n := 0;
      var i := 0;
      while i < |clusters|
        invariant 0 <= i <= |clusters|
        invariant n == |Flattened(clusters, i)| <= |all|
        invariant deps == DependentsMap(all, n)
      {
        InPlace(clusters, i);
        deps := RecordCluster(deps, clusters[i], all, n);
        n := n + |clusters[i].objects|;
        i := i + 1;
      }
    }

    method RecordCluster(known: Dependents, mc: ManagedCluster, ghost all: seq<ManagedObject>, ghost from: nat)
      returns (deps: Dependents)
      requires from + |mc.objects| <= |all| && mc.objects == all[from..from + |mc.objects|]
      requires known == DependentsMap(all, from)
      ensures deps == DependentsMap(all, from + |mc.objects|)
    {
      deps := known;
      var j := 0;
      while j < |mc.objects|
        invariant 0 <= j <= |mc.objects|
        invariant deps == DependentsMap(all, from + j)
      {
        deps := RecordDependencies(deps, mc.objects[j]);
        j := j + 1;
      }
    }
  }
}
