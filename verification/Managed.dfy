/** Objects the provider manages: where they live, how their content is produced, and what
    they depend on. Dependencies are part of the value, so no object can depend on itself. */
module Managed {
  import opened Wrappers
  import opened Cluster

  datatype DeletionPolicy = Orphan | DeleteIt

  /** What a reconcile function does to an object's content. */
  datatype Recipe =
    | Leave
    | Overwrite(payload: Payload)
    | CopyOf(source: Key, contentType: string)
    | RefreshToken(account: Key, namespace: string, poll: int, server: Option<Server>)
    | Reject(reason: string)

  datatype StatusKind = NoStatus | Simple | Flux | CleanupOfSecret | CleanupOfConfigMap

  datatype ManagedObject = ManagedObject(
    key: Key,
    recipe: Recipe,
    deps: seq<ManagedObject>,
    policy: DeletionPolicy,
    status: StatusKind)

  /** An unset deletion policy means deletion. */
  function NewManagedObject(key: Key, recipe: Recipe, deps: seq<ManagedObject>, policy: Option<DeletionPolicy>,
                            status: StatusKind): ManagedObject {
    ManagedObject(key, recipe, deps, if policy.Some? then policy.value else DeleteIt, status)
  }

  datatype Phase = Pending | Ready | Failed | Terminating | Unknown

  /** The phase shown for an object, given its state when last read. */
  function PhaseOf(kind: StatusKind, seen: Option<Stored>): Phase {
    match kind
    case NoStatus => Unknown
    case CleanupOfSecret => Terminating
    case CleanupOfConfigMap => Failed
    case Simple => if seen.None? then Pending else if seen.value.terminating then Terminating else Ready
    case Flux =>
      if seen.None? then Pending
      else if seen.value.terminating then Terminating
      else if seen.value.ready then Ready else Pending
  }

  function Max(a: nat, b: nat): nat {
    if a < b then b else a
  }

  /** The length of the longest chain of dependencies below an object. */
  function Depth(o: ManagedObject): nat
    decreases o, 1
  {
    DepthOfAll(o, o.deps)
  }

  function DepthOfAll(o: ManagedObject, deps: seq<ManagedObject>): nat
    requires forall d :: d in deps ==> d in o.deps
    decreases o, 0, |deps|
  {
    if deps == [] then 0
    else
      var d := deps[0];
      assert d in o.deps;
      Max(1 + Depth(d), DepthOfAll(o, deps[1..]))
  }

  lemma {:induction false} DepthOfMember(o: ManagedObject, deps: seq<ManagedObject>, d: ManagedObject)
    requires forall x :: x in deps ==> x in o.deps
    requires d in deps
    ensures Depth(d) < DepthOfAll(o, deps)
    decreases |deps|
  {
    if d != deps[0] {
      DepthOfMember(o, deps[1..], d);
    }
  }

  lemma DependenciesAreShallower(o: ManagedObject)
    ensures forall d :: d in o.deps ==> Depth(d) < Depth(o)
  {
    forall d | d in o.deps ensures Depth(d) < Depth(o) {
      DepthOfMember(o, o.deps, d);
    }
  }

  /** x depends on y, directly or through other objects. */
  predicate DependsOn(x: ManagedObject, y: ManagedObject)
  {
    y in x.deps || exists d | d in x.deps :: DependsOn(d, y)
  }

  // ----- Facts about a list of objects -----

  ghost predicate Manages(objs: seq<ManagedObject>, key: Key) {
    exists o :: o in objs && o.key == key
  }

  /** The keys of the managed objects. */
  ghost function KeysOf(objs: seq<ManagedObject>): Scope {
    key => Manages(objs, key)
  }

  /** Every dependency of a managed object is managed. */
  ghost predicate Closed(objs: seq<ManagedObject>) {
    forall x, y :: x in objs && y in x.deps ==> y in objs
  }

  /** No two managed objects share a place in the clusters. */
  ghost predicate KeyedApart(objs: seq<ManagedObject>) {
    forall x, y :: x in objs && y in objs && x.key == y.key ==> x == y
  }

  /** Every dependency is listed, and only before the objects that depend on it. */
  ghost predicate DependencyFirst(objs: seq<ManagedObject>) {
    Closed(objs) && forall i, j :: 0 <= i < |objs| && 0 <= j < |objs| && objs[i] in objs[j].deps ==> i < j
  }

  /** No orphaned object depends on another. */
  ghost predicate OrphansAreFree(objs: seq<ManagedObject>) {
    forall x :: x in objs && x.policy == Orphan ==> x.deps == []
  }

  /** The length of the longest dependency chain among the first `n` objects. */
  function LongestChain(objs: seq<ManagedObject>, n: nat): nat
    requires n <= |objs|
  {
    if n == 0 then 0 else Max(LongestChain(objs, n - 1), Depth(objs[n - 1]))
  }

  lemma {:induction false} LongestChainBounds(objs: seq<ManagedObject>, n: nat)
    requires n <= |objs|
    ensures forall o :: o in objs[..n] ==> Depth(o) <= LongestChain(objs, n)
    ensures n > 0 ==> exists o :: o in objs[..n] && Depth(o) == LongestChain(objs, n)
  {
    if n > 0 {
      LongestChainBounds(objs, n - 1);
      assert objs[..n] == objs[..n - 1] + [objs[n - 1]];
    }
  }

  lemma {:induction false} DepthIsAttained(o: ManagedObject, deps: seq<ManagedObject>)
    requires forall d :: d in deps ==> d in o.deps
    requires deps != []
    ensures exists d :: d in deps && 1 + Depth(d) == DepthOfAll(o, deps)
    decreases |deps|
  {
    if |deps| > 1 && 1 + Depth(deps[0]) < DepthOfAll(o, deps[1..]) {
      DepthIsAttained(o, deps[1..]);
      var d :| d in deps[1..] && 1 + Depth(d) == DepthOfAll(o, deps[1..]);
      assert d in deps;
    } else {
      var d := deps[0];
      assert d in deps && 1 + Depth(d) == DepthOfAll(o, deps);
    }
  }
}
