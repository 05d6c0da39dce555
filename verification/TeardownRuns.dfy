/** Runs of a teardown: Delete passes, each in an environment of its own, with finalizers
    completing in between. */
module TeardownRuns {
  import opened Cluster
  import opened Managed
  import opened Manager

  /** Some pending finalizers complete, and then a pass runs. */
  datatype Step = Step(finalized: set<Key>, script: Script)

  type History = nat -> Step

  /** Deleted, and waiting for a finalizer. */
  predicate Lingering(s: Stored) {
    s.held && s.terminating
  }

  function Finalized(store: Store, done: set<Key>): Store {
    map k | k in store && !(k in done && Lingering(store[k])) :: store[k]
  }

  /** The world in which pass `n + 1` starts. */
  function Start(w: World, steps: History, objs: seq<ManagedObject>, cleaners: seq<Cleaner>, n: nat): World
    decreases n, 1
  {
    var before := Run(w, steps, objs, cleaners, n);
    before.(store := Finalized(before.store, steps(n).finalized))
  }

  /** The world after `n` passes. */
  function Run(w: World, steps: History, objs: seq<ManagedObject>, cleaners: seq<Cleaner>, n: nat): World
    decreases n, 0
  {
    if n == 0 then w
    else Pass(Start(w, steps, objs, cleaners, n - 1), steps(n - 1).script, objs, cleaners, true).world
  }

  /** What pass `n + 1` returns. */
  function OutcomeOf(w: World, steps: History, objs: seq<ManagedObject>, cleaners: seq<Cleaner>, n: nat): Outcome {
    Pass(Start(w, steps, objs, cleaners, n), steps(n).script, objs, cleaners, true)
  }

  /** No pass meets a fault or a third party. */
  ghost predicate QuietRun(steps: History) {
    forall n: nat :: Quiet(steps(n).script)
  }

  ghost predicate NoneLingers(objs: seq<ManagedObject>, store: Store) {
    forall o :: o in objs && o.key in store ==> !Lingering(store[o.key])
  }

  /** Finalizers complete before the next pass starts. */
  ghost predicate Prompt(objs: seq<ManagedObject>, cleaners: seq<Cleaner>, w: World, steps: History) {
    forall n: nat :: NoneLingers(objs, Start(w, steps, objs, cleaners, n).store)
  }

  /** Everything is installed, and nothing is being deleted yet. */
  ghost predicate Installed(objs: seq<ManagedObject>, store: Store) {
    forall o :: o in objs ==> o.key in store && !store[o.key].terminating
  }
}
