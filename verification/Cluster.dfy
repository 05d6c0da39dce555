/** The API servers seen by the provider: a store of objects, the calls that read and write
    it, and a script that decides everything the provider does not control.

    Every call consumes one turn of the script. A turn says whether the call is served,
    refused, or served with its answer lost; what the environment does to the store just
    before the call; in which order a listing is answered; what the clock shows; and
    which token would be granted. A statement about all scripts is a statement about all
    interleavings with failing calls, completing finalizers and third parties. */
module Cluster {
  import opened Wrappers
  import opened Json

  datatype Kind =
    | Namespace | ServiceAccount | ClusterRoleBinding | Secret | ConfigMap | OCIRepository | HelmRelease

  datatype Key = Key(cluster: string, kind: Kind, namespace: string, name: string)

  /** Times are nanoseconds, as the provider counts them. */
  datatype Token = Token(secret: string, expiry: int)

  /** How a cluster is reached: its address, and its CA data, which a CA file overrides. */
  datatype CaFile = NoCaFile | Unreadable | Readable(data: string)

  datatype Server = Server(host: string, caData: string, caFile: CaFile)

  datatype Kubeconfig = Kubeconfig(server: string, caData: string, token: string, namespace: string)

  datatype Renderer = CpAccess(secretName: string) | CaVolume(key: string)

  datatype Payload =
    | Blank
    | Content(data: map<string, string>, contentType: string)
    | Access(token: Token, namespace: string, caData: string, kubeconfig: Kubeconfig, noted: Option<int>)
    | Binding(account: string, accountNamespace: string, role: string)
    | Repository(url: string, tag: string, interval: int, pullSecret: Option<string>)
    | Release(values: Json, targetNamespace: string, chartRef: string, releaseName: string,
              kubeConfigSecret: string, interval: int, dependsOn: seq<string>,
              installCrds: bool, orphanOnUninstall: bool, renderers: seq<Renderer>)

  /** `held` objects carry a finalizer: deleting one only marks it terminating. */
  datatype Stored = Stored(labels: map<string, string>, held: bool, terminating: bool, ready: bool, payload: Payload)

  type Store = map<Key, Stored>

  datatype Fate = Served | Refused | Lost

  datatype Turn = Turn(
    fate: Fate,
    drift: Store -> Store,
    listing: set<Key> -> seq<Key>,
    now: int,
    granted: Token)

  type Script = nat -> Turn

  /** What an observer sees at one moment: the store, and the keys on which the provider has
      issued a delete call so far. */
  datatype Instant = Instant(store: Store, requested: set<Key>)

  /** `trail` records every moment since the run began. */
  datatype World = World(store: Store, tick: nat, requested: set<Key>, trail: seq<Instant>) {
    function Present(): Instant {
      Instant(store, requested)
    }
  }

  datatype GetReply = Found(stored: Stored) | NotFound | GetFailed
  datatype WriteReply = Accepted | Gone | WriteFailed
  datatype ListReply = Listed(keys: seq<Key>) | ListFailed

  // ----- The environment -----

  function Await(w: World, script: Script): World {
    var store := script(w.tick).drift(w.store);
    World(store, w.tick + 1, w.requested, w.trail + [Instant(store, w.requested)])
  }

  // ----- The calls -----

  function Get(w: World, script: Script, key: Key): (World, GetReply) {
    var w' := Await(w, script);
    (w', if script(w.tick).fate != Served then GetFailed
         else if key in w'.store then Found(w'.store[key]) else NotFound)
  }

  function Erased(store: Store, key: Key): Store {
    if key !in store then store
    else if store[key].held then store[key := store[key].(terminating := true)]
    else store - {key}
  }

  function Delete(w: World, script: Script, key: Key): (World, WriteReply) {
    var w1 := Await(w, script);
    var fate := script(w.tick).fate;
    var store := if fate == Refused then w1.store else Erased(w1.store, key);
    var requested := w1.requested + {key};
    (World(store, w1.tick, requested, w1.trail + [Instant(store, requested)]),
     if fate != Served then WriteFailed else if key in w1.store then Accepted else Gone)
  }

  function Put(w: World, key: Key, stored: Stored): World {
    var store := w.store[key := stored];
    World(store, w.tick, w.requested, w.trail + [Instant(store, w.requested)])
  }

  function Create(w: World, script: Script, key: Key, stored: Stored): (World, WriteReply) {
    var w1 := Await(w, script);
    var fate := script(w.tick).fate;
    if fate == Refused || key in w1.store then (w1, WriteFailed)
    else (Put(w1, key, stored), if fate == Served then Accepted else WriteFailed)
  }

  /** An update is refused when the object is no longer as it was read. */
  function Update(w: World, script: Script, key: Key, read: Stored, stored: Stored): (World, WriteReply) {
    var w1 := Await(w, script);
    var fate := script(w.tick).fate;
    if fate == Refused || key !in w1.store || w1.store[key] != read then (w1, WriteFailed)
    else (Put(w1, key, stored), if fate == Served then Accepted else WriteFailed)
  }

  const MANAGED_BY := "app.kubernetes.io/managed-by"
  const MANAGED_BY_VALUE := "service-provider-otel-operator"

  predicate Labelled(s: Stored) {
    MANAGED_BY in s.labels && s.labels[MANAGED_BY] == MANAGED_BY_VALUE
  }

  function SetManagedBy(s: Stored): (r: Stored)
    ensures Labelled(r)
    ensures r == s.(labels := r.labels) && r.labels - {MANAGED_BY} == s.labels - {MANAGED_BY}
  {
    s.(labels := s.labels[MANAGED_BY := MANAGED_BY_VALUE])
  }

  /** Labelled objects of one kind in one namespace. */
  function Matching(store: Store, cluster: string, kind: Kind, namespace: string): set<Key> {
    set k | k in store && k.cluster == cluster && k.kind == kind && k.namespace == namespace && Labelled(store[k])
  }

  function List(w: World, script: Script, cluster: string, kind: Kind, namespace: string): (World, ListReply) {
    var w' := Await(w, script);
    (w', if script(w.tick).fate != Served then ListFailed
         else Listed(script(w.tick).listing(Matching(w'.store, cluster, kind, namespace))))
  }

  /** Asks for a token of a service account; what is granted is up to the server. */
  function RequestToken(w: World, script: Script): (World, Option<Token>) {
    (Await(w, script), if script(w.tick).fate == Served then Some(script(w.tick).granted) else None)
  }

  // ----- Assumptions a statement may make about a script -----

  /** A listing names each matching object, and nothing else; its order is free. */
  ghost predicate ListsFaithfully(script: Script) {
    forall t: nat, s: set<Key>, k: Key :: k in script(t).listing(s) <==> k in s
  }

  /** Some of the places where objects can be stored. */
  type Scope = Key -> bool

  /** Only the provider creates objects in scope. */
  ghost predicate NeverCreates(script: Script, scope: Scope) {
    forall t: nat, store: Store, k: Key :: scope(k) && k in script(t).drift(store) ==> k in store
  }

  /** Nobody but the provider deletes in scope: only terminating objects vanish, and none becomes
      terminating by itself. */
  ghost predicate NoForeignDeletes(script: Script, scope: Scope) {
    forall t: nat, store: Store, k: Key :: scope(k) && k in store && !store[k].terminating ==>
      var after := script(t).drift(store);
      k in after && !after[k].terminating
  }

  /** The environment does nothing. Calls may still fail. */
  ghost predicate Silent(script: Script) {
    forall t: nat, store: Store :: script(t).drift(store) == store
  }

  ghost predicate FaultFree(script: Script) {
    forall t: nat :: script(t).fate == Served
  }

  ghost predicate Quiet(script: Script) {
    Silent(script) && FaultFree(script) && ListsFaithfully(script)
  }

  /** The API servers as the provider's clients reach them. */
  class ApiServer {
    var world: World
    const script: Script

    constructor (store: Store, script: Script)
      ensures world == World(store, 0, {}, []) && this.script == script
    {
      world := World(store, 0, {}, []);
      this.script := script;
    }

    method GetObject(key: Key) returns (reply: GetReply)
      modifies this
      ensures (world, reply) == Get(old(world), script, key)
    {
      var r := Get(world, script, key);
      world, reply := r.0, r.1;
    }

    method DeleteObject(key: Key) returns (reply: WriteReply)
      modifies this
      ensures (world, reply) == Delete(old(world), script, key)
    {
      var r := Delete(world, script, key);
      world, reply := r.0, r.1;
    }

    method CreateObject(key: Key, stored: Stored) returns (reply: WriteReply)
      modifies this
      ensures (world, reply) == Create(old(world), script, key, stored)
    {
      var r := Create(world, script, key, stored);
      world, reply := r.0, r.1;
    }

    method UpdateObject(key: Key, read: Stored, stored: Stored) returns (reply: WriteReply)
      modifies this
      ensures (world, reply) == Update(old(world), script, key, read, stored)
    {
      var r := Update(world, script, key, read, stored);
      world, reply := r.0, r.1;
    }

    method CreateToken() returns (token: Option<Token>)
      modifies this
      ensures (world, token) == RequestToken(old(world), script)
    {
      var r := RequestToken(world, script);
      world, token := r.0, r.1;
    }

    method ListObjects(cluster: string, kind: Kind, namespace: string) returns (reply: ListReply)
      modifies this
      ensures (world, reply) == List(old(world), script, cluster, kind, namespace)
    {
      var r := List(world, script, cluster, kind, namespace);
      world, reply := r.0, r.1;
    }
  }
}
