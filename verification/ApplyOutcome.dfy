/** When an Apply goes through: exactly what has to be in place for a pass without faults to end
    without an error. */
module ApplyOutcome {
  import opened Wrappers
  import opened Cluster
  import opened Managed
  import opened Manager
  import opened Graph
  import opened GraphTheorems
  import opened ApplyConvergence
  import TeardownProgress
  import TeardownRounds
  import Token

  function ContentAt(store: Store, key: Key): Payload {
    if key in store then store[key].payload else Blank
  }

  // ----- One object -----

  /** The object's content can be produced, looking at the clock on turn `t`. */
  predicate Feasible(o: ManagedObject, store: Store, script: Script, t: nat) {
    match o.recipe
    case Leave => true
    case Overwrite(_) => true
    case Reject(_) => false
    case CopyOf(source, _) => source in store
    case RefreshToken(account, namespace, poll, server) =>
      Token.RefreshDue(ContentAt(store, o.key), script(t).now, poll) ==>
        account in store && Token.EndpointOf(namespace, server).Some?
  }

  lemma QuietReconcile(w: World, script: Script, o: ManagedObject)
    requires Quiet(script)
    ensures var (w', content) := Reconcile(w, script, o.recipe, ContentAt(w.store, o.key));
            w'.store == w.store && (content.Ok? <==> Feasible(o, w.store, script, w.tick))
  {
    SilentAwait(w, script);
    SilentAwait(Await(w, script), script);
  }

  lemma QuietWrite(w: World, script: Script, key: Key, read: Stored, stored: Stored)
    requires Quiet(script)
    ensures key !in w.store ==> Create(w, script, key, stored).1.Accepted?
    ensures key in w.store && w.store[key] == read ==> Update(w, script, key, read, stored).1.Accepted?
    ensures forall k :: k != key ==> SameAt(w.store, Create(w, script, key, stored).0.store, k)
    ensures forall k :: k != key ==> SameAt(w.store, Update(w, script, key, read, stored).0.store, k)
    ensures w.store.Keys <= Create(w, script, key, stored).0.store.Keys
    ensures w.store.Keys <= Update(w, script, key, read, stored).0.store.Keys
  {
    SilentAwait(w, script);
  }

  /** Without faults, a visit succeeds exactly when the content can be produced; in any case it
      touches nothing but its object. */
  lemma QuietApplyVisit(w: World, script: Script, o: ManagedObject)
    requires Quiet(script)
    ensures var (w', report) := ApplyVisit(w, script, o);
            && (report.error == None <==> Feasible(o, w.store, script, w.tick + 1))
            && w.store.Keys <= w'.store.Keys
            && forall k :: k != o.key ==> SameAt(w.store, w'.store, k)
  {
    hide Await, Reconcile, Create, Update, Feasible;
    SilentAwait(w, script);
    var (w1, reply) := Get(w, script, o.key);
    assert w1 == Await(w, script) && w1.tick == w.tick + 1 by {
      AwaitTicks(w, script);
    }
    QuietReconcile(w1, script, o);
    var (w2, content) := Reconcile(w1, script, o.recipe, ContentAt(w1.store, o.key));
    if content.Ok? {
      var read := if reply.Found? then reply.stored else FRESH;
      QuietWrite(w2, script, o.key, read, SetManagedBy(read).(payload := content.value));
    }
  }

  lemma AwaitTicks(w: World, script: Script)
    ensures Await(w, script).tick == w.tick + 1
  {
  }

  // ----- All objects -----

  /** Visit `i + 1` finds what it needs. */
  ghost predicate FeasibleAt(objs: seq<ManagedObject>, w: World, script: Script, i: nat)
    requires i < |objs|
  {
    var before := Visits(w, script, objs, false, i).0;
    Feasible(objs[i], before.store, script, before.tick + 1)
  }

  lemma {:induction false} ErrorFreeIffFeasible(objs: seq<ManagedObject>, w: World, script: Script, n: nat)
    requires n <= |objs| && Quiet(script)
    ensures ErrorFree(Visits(w, script, objs, false, n).1) <==> forall i :: 0 <= i < n ==> FeasibleAt(objs, w, script, i)
  {
    hide ApplyVisit, ErrorFree, Feasible, Quiet;
    if n > 0 {
      var (w1, reports) := Visits(w, script, objs, false, n - 1);
      var report := ApplyVisit(w1, script, objs[n - 1]).1;
      ErrorFreeIffFeasible(objs, w, script, n - 1);
      QuietApplyVisit(w1, script, objs[n - 1]);
      ErrorFreeSplits(reports, [report]);
      ErrorFreeOne(report);
      assert Visits(w, script, objs, false, n).1 == reports + [report];
      assert FeasibleAt(objs, w, script, n - 1) <==> report.error == None;
    } else {
      NoErrors();
    }
  }

  lemma NoErrors()
    ensures ErrorFree([])
  {
  }

  lemma {:induction false} VisitsTouchTheirOwn(objs: seq<ManagedObject>, w: World, script: Script, n: nat)
    requires n <= |objs| && Quiet(script)
    ensures forall k :: k !in Keys(objs, n) ==> SameAt(w.store, Visits(w, script, objs, false, n).0.store, k)
  {
    hide ApplyVisit, Quiet;
    if n > 0 {
      var w1 := Visits(w, script, objs, false, n - 1).0;
      VisitsTouchTheirOwn(objs, w, script, n - 1);
      QuietApplyVisit(w1, script, objs[n - 1]);
      var w2 := ApplyVisit(w1, script, objs[n - 1]).0;
      assert Visits(w, script, objs, false, n).0 == w2;
      assert objs[..n] == objs[..n - 1] + [objs[n - 1]];
      assert Keys(objs, n) == Keys(objs, n - 1) + {objs[n - 1].key};
      forall k | k !in Keys(objs, n) ensures SameAt(w.store, Visits(w, script, objs, false, n).0.store, k) {
        assert SameAt(w.store, w1.store, k) && SameAt(w1.store, w2.store, k);
      }
    }
  }

  // ----- The controller's graph -----

  ghost predicate Sane(s: Setup) {
    Separate(s) && TokenNameIsFree(s) && s.podNamespace != s.tenantNamespace
  }

  /** The token is due when the pass comes to look at it. */
  ghost predicate TokenDue(s: Setup, w: World, script: Script) {
    |Objects(s)| >= 4 &&
    Token.RefreshDue(ContentAt(w.store, TokenSecret(s).key),
                     script(Visits(w, script, Objects(s), false, 4).0.tick + 1).now, s.poll)
  }

  /** What an object of the graph needs before the pass. */
  ghost predicate Supplied(s: Setup, w: World, script: Script, o: ManagedObject) {
    match o.recipe
    case Reject(_) => false
    case CopyOf(source, _) => source in w.store
    case RefreshToken(_, namespace, _, server) => TokenDue(s, w, script) ==> Token.EndpointOf(namespace, server).Some?
    case _ => true
  }

  lemma FirstFourSucceed(s: Setup, w: World, script: Script)
    requires Quiet(script)
    ensures |Objects(s)| >= 8 && ErrorFree(Visits(w, script, Objects(s), false, 4).1)
  {
    hide Objects, Visits, Quiet, ErrorFree;
    Layout(s);
    var objs := Objects(s);
    forall i | 0 <= i < 4 ensures FeasibleAt(objs, w, script, i) {
      Placed(s, i);
    }
    ErrorFreeIffFeasible(objs, w, script, 4);
  }

  /** The chart URL is set, every source of a copy is stored, and, should the token be due, the
      control plane's address and CA data are known. */
  ghost predicate Supplies(s: Setup, w: World, script: Script) {
    && s.chartUrl.Some?
    && (forall o :: IsCopy(s, o) ==> o.recipe.CopyOf? && o.recipe.source in w.store)
    && (TokenDue(s, w, script) ==> Token.EndpointOf(s.otelNamespace, s.server).Some?)
  }

  /** The namespace and the service account are stored when the token secret is visited. */
  lemma AccountIsThere(s: Setup, w: World, script: Script)
    requires Sane(s) && Quiet(script)
    ensures |Objects(s)| >= 8
    ensures CpServiceAccount(s).key in Visits(w, script, Objects(s), false, 4).0.store
    ensures CpNamespace(s).key in Visits(w, script, Objects(s), false, 4).0.store
  {
    assert Silent(script);
    FirstFourSucceed(s, w, script);
    hide Objects, Cleaners, Visits, Converged, Quiet, Silent, KeyedApart, SourcesApart, CpServiceAccount, CpNamespace, ErrorFree;
    var objs := Objects(s);
    GraphIsWellPosed(s);
    GraphSourcesApart(s);
    Placed(s, 0);
    Placed(s, 1);
    VisitsProgress(objs, Cleaners(s), w, script, 4);
    assert objs[0] == objs[..4][0] && objs[1] == objs[..4][1];
    ConvergedIsStored(objs[0], script, w.store, Visits(w, script, objs, false, 4).0.store);
    ConvergedIsStored(objs[1], script, w.store, Visits(w, script, objs, false, 4).0.store);
  }

  lemma {:induction false} VisitsKeepKeys(objs: seq<ManagedObject>, w: World, script: Script, m: nat, n: nat)
    requires m <= n <= |objs| && Quiet(script)
    ensures Visits(w, script, objs, false, m).0.store.Keys <= Visits(w, script, objs, false, n).0.store.Keys
    decreases n
  {
    hide ApplyVisit, Quiet;
    if m < n {
      VisitsKeepKeys(objs, w, script, m, n - 1);
      QuietApplyVisit(Visits(w, script, objs, false, n - 1).0, script, objs[n - 1]);
    }
  }

  /** Every Apply without faults, whether it succeeds or not, leaves the control-plane namespace
      and the service account stored. */
  lemma AccessIsCreated(s: Setup, w: World, script: Script)
    requires Sane(s) && Quiet(script)
    ensures var after := Pass(w, script, Objects(s), Cleaners(s), false).world.store;
            CpNamespace(s).key in after && CpServiceAccount(s).key in after
  {
    AccountIsThere(s, w, script);
    hide Objects, Cleaners, Visits, Cleanups, Quiet, KeyedApart;
    var objs := Objects(s);
    var w1 := Visits(w, script, objs, false, |objs|).0;
    VisitsKeepKeys(objs, w, script, 4, |objs|);
    Members(s, CpNamespace(s));
    Members(s, CpServiceAccount(s));
    GraphIsWellPosed(s);
    TeardownRounds.QuietCleanups(w1, script, objs, Cleaners(s), |Cleaners(s)|);
  }

  lemma TokenSecretIsFifth(s: Setup, i: nat)
    requires Sane(s) && i < |Objects(s)| && Objects(s)[i].recipe.RefreshToken?
    ensures i == 4 && Objects(s)[i] == TokenSecret(s)
    ensures TokenSecret(s).key !in Keys(Objects(s), 4)
  {
    hide Objects, IsCopy;
    Placed(s, i);
    if 5 <= i < |Objects(s)| - 3 {
      CopiesHaveNoDependencies(s, Objects(s)[i]);
    }
    Placed(s, 0);
    Placed(s, 1);
    Placed(s, 2);
    Placed(s, 3);
    assert forall o :: o in Objects(s)[..4] ==> o.key.kind != Secret;
  }

  lemma FeasibleIffSupplied(s: Setup, w: World, script: Script, i: nat)
    requires Sane(s) && Quiet(script) && i < |Objects(s)|
    ensures FeasibleAt(Objects(s), w, script, i) <==> Supplied(s, w, script, Objects(s)[i])
  {
    hide Objects, Cleaners, Visits, Quiet, Sane, Token.RefreshDue, TokenSecret, Token.EndpointOf;
    var objs := Objects(s);
    var o := objs[i];
    if o.recipe.CopyOf? {
      SourceIsUntouched(s, w, script, i);
    } else if o.recipe.RefreshToken? {
      TokenSecretIsFifth(s, i);
      TokenRecipe(s);
      AccountIsThere(s, w, script);
      VisitsTouchTheirOwn(objs, w, script, 4);
      assert SameAt(w.store, Visits(w, script, objs, false, 4).0.store, o.key);
    }
  }

  lemma TokenRecipe(s: Setup)
    ensures TokenSecret(s).recipe == RefreshToken(CpServiceAccount(s).key, s.otelNamespace, s.poll, s.server)
  {
  }

  lemma SourceIsUntouched(s: Setup, w: World, script: Script, i: nat)
    requires Sane(s) && Quiet(script) && i < |Objects(s)| && Objects(s)[i].recipe.CopyOf?
    ensures SameAt(w.store, Visits(w, script, Objects(s), false, i).0.store, Objects(s)[i].recipe.source)
  {
    hide Objects, Cleaners, Visits, Quiet, SameAt;
    GraphSourcesApart(s);
    VisitsTouchTheirOwn(Objects(s), w, script, i);
    assert Objects(s)[i].recipe.source !in Keys(Objects(s), i);
  }

  /** An Apply without faults ends without an error if and only if its supplies are there. */
  lemma CleanApplyIff(s: Setup, w: World, script: Script)
    requires Sane(s) && Quiet(script)
    ensures Pass(w, script, Objects(s), Cleaners(s), false).Clean() <==> Supplies(s, w, script)
  {
    hide Objects, Cleaners, Visits, Cleanups, Quiet, FaultFree, Sane, Supplies, IsCopy, ErrorFree, FeasibleAt, Supplied;
    TeardownProgress.QuietIsFaultFree(script);
    var objs := Objects(s);
    var (w1, reports) := Visits(w, script, objs, false, |objs|);
    TeardownProgress.CleanersReportNothing(w1, script, Cleaners(s), |Cleaners(s)|);
    assert reports + [] == reports;
    ErrorFreeIffFeasible(objs, w, script, |objs|);
    forall i | 0 <= i < |objs| ensures FeasibleAt(objs, w, script, i) <==> Supplied(s, w, script, objs[i]) {
      FeasibleIffSupplied(s, w, script, i);
    }
    assert (forall i :: 0 <= i < |objs| ==> FeasibleAt(objs, w, script, i)) <==>
           (forall o :: o in objs ==> Supplied(s, w, script, o)) by {
      assert forall i :: 0 <= i < |objs| ==> objs[i] in objs;
    }
    SuppliesNeeded(s, w, script);
  }

  lemma SuppliesNeeded(s: Setup, w: World, script: Script)
    ensures (forall o :: o in Objects(s) ==> Supplied(s, w, script, o)) <==> Supplies(s, w, script)
  {
    hide Objects, TokenDue, Token.EndpointOf, IsCopy;
    forall o ensures o in Objects(s) <==> IsObject(s, o) {
      Members(s, o);
    }
    forall o | IsCopy(s, o) ensures o.recipe.CopyOf? {
      CopiesHaveNoDependencies(s, o);
    }
    assert IsObject(s, TokenSecret(s)) && IsObject(s, ChartRepository(s));
    assert forall o :: IsCopy(s, o) ==> IsObject(s, o);
  }

  /** Every clock reading of the pass lies between two times. */
  ghost predicate ClockWithin(script: Script, earliest: int, latest: int) {
    forall t: nat :: earliest <= script(t).now <= latest
  }

  /** With bounds on the clock: if the stored token would not even be due at the latest time, the
      chart URL and the sources decide; if it is due at the earliest, so do the control plane's
      address and CA data. */
  lemma CleanApplyByTheClock(s: Setup, w: World, script: Script, earliest: int, latest: int)
    requires Sane(s) && Quiet(script) && ClockWithin(script, earliest, latest)
    ensures var clean := Pass(w, script, Objects(s), Cleaners(s), false).Clean();
            var supplied := s.chartUrl.Some? && forall o :: IsCopy(s, o) ==> o.recipe.CopyOf? && o.recipe.source in w.store;
            var token := ContentAt(w.store, TokenSecret(s).key);
            && (!Token.RefreshDue(token, latest, s.poll) ==> (clean <==> supplied))
            && (Token.RefreshDue(token, earliest, s.poll) ==>
                  (clean <==> supplied && Token.EndpointOf(s.otelNamespace, s.server).Some?))
  {
    hide Pass, Cleaners, Sane, Quiet, IsCopy, Token.EndpointOf;
    CleanApplyIff(s, w, script);
    EnoughObjects(s);
    hide Objects;
    var t := Visits(w, script, Objects(s), false, 4).0.tick + 1;
    assert earliest <= script(t).now <= latest;
  }

  lemma EnoughObjects(s: Setup)
    ensures |Objects(s)| >= 8
  {
    hide Objects;
    Layout(s);
  }
}
