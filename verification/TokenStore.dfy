/** The token secret in the store: what every pass does to it, whatever fails, and that the token
    it holds is valid between reconciles. */
module TokenStore {
  import opened Wrappers
  import opened Cluster
  import opened Token
  import opened TokenRuns
  import opened Managed
  import opened Manager
  import opened Graph
  import opened GraphTheorems
  import opened PassRelations
  import opened ApplyConvergence
  import opened ApplyOutcome

  // ----- The annotation stays honest -----

  ghost predicate HonestAt(store: Store, key: Key) {
    Honest(ContentAt(store, key))
  }

  /** Nobody else falsifies the secret. */
  ghost predicate LeavesHonest(script: Script, key: Key) {
    forall t: nat, store: Store :: HonestAt(store, key) ==> HonestAt(script(t).drift(store), key)
  }

  ghost predicate WritesHonestly(objs: seq<ManagedObject>) {
    forall o :: o in objs && o.recipe.Overwrite? ==> Honest(o.recipe.payload)
  }

  ghost function HonestRelation(key: Key): Relation {
    (a: World, b: World) => HonestAt(a.store, key) ==> HonestAt(b.store, key)
  }

  lemma HonestAdmits(script: Script, key: Key)
    requires LeavesHonest(script, key)
    ensures Admits(HonestRelation(key), script, k => true, true)
  {
    var R := HonestRelation(key);
    hide Honest;
    forall w ensures R(w, Await(w, script)) && R(w, w) {
      assert HonestAt(w.store, key) ==> HonestAt(script(w.tick).drift(w.store), key);
    }
    forall w, k ensures R(w, Delete(w, script, k).0) {
      assert R(w, Await(w, script));
      if HonestAt(w.store, key) {
        ErasedIsHonest(Await(w, script).store, k, key);
      }
    }
    forall a, b, c | R(a, b) && R(b, c) ensures R(a, c) {
    }
  }

  lemma ErasedIsHonest(store: Store, erased: Key, key: Key)
    requires HonestAt(store, key)
    ensures HonestAt(Erased(store, erased), key)
  {
  }

  lemma BlankIsHonest()
    ensures Honest(Blank)
  {
  }

  lemma ReconcileIsHonest(w: World, script: Script, recipe: Recipe, current: Payload)
    requires Honest(current) && (recipe.Overwrite? ==> Honest(recipe.payload))
    ensures var content := Reconcile(w, script, recipe, current).1;
            content.Ok? ==> Honest(content.value)
  {
  }

  lemma WriteIsHonest(w: World, script: Script, key: Key, at: Key, read: Stored, stored: Stored)
    requires LeavesHonest(script, key) && HonestAt(w.store, key) && (at == key ==> Honest(stored.payload))
    ensures HonestAt(Create(w, script, at, stored).0.store, key)
    ensures HonestAt(Update(w, script, at, read, stored).0.store, key)
  {
    hide Honest;
    assert HonestAt(script(w.tick).drift(w.store), key);
  }

  lemma ApplyVisitIsHonest(w: World, script: Script, o: ManagedObject, key: Key)
    requires LeavesHonest(script, key) && HonestAt(w.store, key) && (o.recipe.Overwrite? ==> Honest(o.recipe.payload))
    ensures HonestAt(ApplyVisit(w, script, o).0.store, key)
  {
    hide Reconcile, Create, Update, Honest, LeavesHonest;
    HonestAdmits(script, key);
    var R, scope: Key -> bool := HonestRelation(key), k => true;
    var (w1, reply) := Get(w, script, o.key);
    assert R(w, w1);
    var current := if reply.Found? then reply.stored.payload else Blank;
    ReconcileAdmits(R, script, scope, true, w1, o.recipe, current);
    var (w2, content) := Reconcile(w1, script, o.recipe, current);
    assert R(w1, w2);
    if content.Ok? && !reply.GetFailed? {
      if o.key == key {
        BlankIsHonest();
        ReconcileIsHonest(w1, script, o.recipe, current);
      }
      var read := if reply.Found? then reply.stored else FRESH;
      WriteIsHonest(w2, script, key, o.key, read, SetManagedBy(read).(payload := content.value));
    }
  }

  lemma {:induction false} VisitsAreHonest(objs: seq<ManagedObject>, w: World, script: Script, key: Key, n: nat)
    requires n <= |objs| && WritesHonestly(objs) && LeavesHonest(script, key) && HonestAt(w.store, key)
    ensures HonestAt(Visits(w, script, objs, false, n).0.store, key)
  {
    hide ApplyVisit, HonestAt, LeavesHonest;
    if n > 0 {
      VisitsAreHonest(objs, w, script, key, n - 1);
      ApplyVisitIsHonest(Visits(w, script, objs, false, n - 1).0, script, objs[n - 1], key);
    }
  }

  /** Every pass, Apply or Delete, with whatever failures, keeps the annotation of a token secret
      honest, unless somebody else falsifies it. */
  lemma PassStaysHonest(objs: seq<ManagedObject>, cleaners: seq<Cleaner>, w: World, script: Script, key: Key,
                        isDeletion: bool)
    requires WritesHonestly(objs) && LeavesHonest(script, key) && ListsFaithfully(script) && HonestAt(w.store, key)
    ensures HonestAt(Pass(w, script, objs, cleaners, isDeletion).world.store, key)
  {
    hide Visits, Cleanups, LeavesHonest, HonestAt, WritesHonestly;
    var R, scope: Key -> bool := HonestRelation(key), k => true;
    HonestAdmits(script, key);
    if isDeletion {
      PassAdmits(R, script, scope, w, objs, cleaners, true);
      assert R(w, Pass(w, script, objs, cleaners, true).world);
    } else {
      VisitsAreHonest(objs, w, script, key, |objs|);
      var w1 := Visits(w, script, objs, false, |objs|).0;
      CleanupsAdmit(R, script, scope, true, w1, cleaners, 0, |cleaners|);
      NoCleanupsYet(w1, script, cleaners);
      assert R(w1, Cleanups(w1, script, cleaners, |cleaners|).0);
    }
  }

  lemma NoCleanupsYet(w: World, script: Script, cleaners: seq<Cleaner>)
    ensures Cleanups(w, script, cleaners, 0).0 == w
  {
  }

  /** The controller's objects never falsify an annotation. */
  lemma GraphWritesHonestly(s: Setup)
    ensures WritesHonestly(Objects(s))
  {
    hide Objects;
    forall o | o in Objects(s) && o.recipe.Overwrite? ensures Honest(o.recipe.payload) {
      Members(s, o);
    }
  }

  // ----- What one visit does to the token -----

  /** The secret's content before and after a visit that looks at the clock and may be granted a
      token: it is as before, which a successful visit allows only while the token is not due, or
      it is renewed, because it was due. */
  ghost predicate TokenStep(before: Payload, after: Payload, tick: Tick, poll: int, at: Option<Endpoint>, succeeded: bool) {
    || (after == before && (succeeded ==> !RefreshDue(before, tick.now, poll)))
    || (at.Some? && RefreshDue(before, tick.now, poll) && after == Renewed(tick.granted, at.value))
  }

  /** Nobody else touches the object. */
  ghost predicate LeavesAlone(script: Script, key: Key) {
    forall t: nat, store: Store :: SameAt(store, script(t).drift(store), key)
  }

  ghost function SameAtRelation(key: Key): Relation {
    (a: World, b: World) => SameAt(a.store, b.store, key)
  }

  ghost function Besides(key: Key): Key -> bool {
    k => k != key
  }

  lemma SameAtAdmits(script: Script, key: Key)
    requires LeavesAlone(script, key)
    ensures Admits(SameAtRelation(key), script, Besides(key), false)
    ensures Admits(SameAtRelation(key), script, Besides(key), true)
  {
    var R := SameAtRelation(key);
    forall w ensures R(w, Await(w, script)) && R(w, w) {
      assert SameAt(w.store, script(w.tick).drift(w.store), key);
    }
    forall a, b, c | R(a, b) && R(b, c) ensures R(a, c) {
    }
    forall w, k | Besides(key)(k) ensures R(w, Delete(w, script, k).0) {
      assert R(w, Await(w, script));
    }
    forall w, k, x | Besides(key)(k) ensures R(w, Create(w, script, k, x).0) {
      assert R(w, Await(w, script));
    }
    forall w, k, r, x | Besides(key)(k) ensures R(w, Update(w, script, k, r, x).0) {
      assert R(w, Await(w, script));
    }
  }

  lemma AwaitLeaves(w: World, script: Script, key: Key)
    requires LeavesAlone(script, key)
    ensures SameAt(w.store, Await(w, script).store, key) && Await(w, script).tick == w.tick + 1
  {
  }

  /** A write of new content succeeds or fails; either way the content is the old or the new. */
  lemma WriteOnce(w: World, script: Script, key: Key, read: Stored, stored: Stored)
    requires LeavesAlone(script, key)
    ensures var (w', done) := Create(w, script, key, stored);
            && (ContentAt(w'.store, key) == ContentAt(w.store, key) || ContentAt(w'.store, key) == stored.payload)
            && (done.Accepted? ==> ContentAt(w'.store, key) == stored.payload)
    ensures var (w', done) := Update(w, script, key, read, stored);
            && (ContentAt(w'.store, key) == ContentAt(w.store, key) || ContentAt(w'.store, key) == stored.payload)
            && (done.Accepted? ==> ContentAt(w'.store, key) == stored.payload)
  {
    AwaitLeaves(w, script, key);
  }

  lemma ReconcileLeaves(w: World, script: Script, recipe: Recipe, current: Payload, key: Key)
    requires LeavesAlone(script, key)
    ensures SameAt(w.store, Reconcile(w, script, recipe, current).0.store, key)
  {
    hide Reconcile;
    SameAtAdmits(script, key);
    ReconcileAdmits(SameAtRelation(key), script, Besides(key), true, w, recipe, current);
    assert SameAtRelation(key)(w, Reconcile(w, script, recipe, current).0);
  }

  /** One visit to a token secret, with whatever failures: also an update whose answer is lost
      renews the token or leaves it. */
  lemma TokenVisit(w: World, script: Script, o: ManagedObject)
    requires LeavesAlone(script, o.key) && o.recipe.RefreshToken?
    ensures var (w', report) := ApplyVisit(w, script, o);
            TokenStep(ContentAt(w.store, o.key), ContentAt(w'.store, o.key),
                      Tick(script(w.tick + 1).now, script(w.tick + 2).granted), o.recipe.poll,
                      EndpointOf(o.recipe.namespace, o.recipe.server), report.error == None)
  {
    hide Reconcile, Create, Update, LeavesAlone, RefreshDue, Renewed, EndpointOf;
    AwaitLeaves(w, script, o.key);
    var (w1, reply) := Get(w, script, o.key);
    assert w1 == Await(w, script);
    var current := ContentAt(w.store, o.key);
    if !reply.GetFailed? {
      assert current == if reply.Found? then reply.stored.payload else Blank;
      ReconcileLeaves(w1, script, o.recipe, current, o.key);
      EngineTakesATick(w1, script, o.recipe.account, o.recipe.namespace, o.recipe.poll, o.recipe.server, current);
      var (w2, content) := Reconcile(w1, script, o.recipe, current);
      if content.Ok? {
        var read := if reply.Found? then reply.stored else FRESH;
        WriteOnce(w2, script, o.key, read, SetManagedBy(read).(payload := content.value));
        BlankIsDue(script(w1.tick).now, o.recipe.poll);
      }
    }
  }

  lemma BlankIsDue(now: int, poll: int)
    ensures RefreshDue(Blank, now, poll)
  {
  }

  /** An error-free visit leaves what the timed machine says. */
  lemma ErrorFreeVisitTicks(w: World, script: Script, o: ManagedObject)
    requires LeavesAlone(script, o.key) && o.recipe.RefreshToken? && ApplyVisit(w, script, o).1.error == None
    requires EndpointOf(o.recipe.namespace, o.recipe.server).Some?
    ensures ContentAt(ApplyVisit(w, script, o).0.store, o.key)
         == AfterTick(ContentAt(w.store, o.key), o.recipe.poll, EndpointOf(o.recipe.namespace, o.recipe.server).value,
                      Tick(script(w.tick + 1).now, script(w.tick + 2).granted))
  {
    hide ApplyVisit, RefreshDue, Renewed, EndpointOf, LeavesAlone;
    TokenVisit(w, script, o);
  }

  /** The secret gives access to a cluster: the token is the one granted, the address is the
      cluster's, and its CA data come from the CA file if there is one. */
  ghost predicate GivesAccess(p: Payload, granted: Cluster.Token, namespace: string, server: Server) {
    && p.Access? && p.token == granted && p.namespace == namespace
    && p.kubeconfig.token == granted.secret && p.kubeconfig.namespace == namespace
    && p.kubeconfig.server == server.host && p.kubeconfig.caData == p.caData
    && (match server.caFile
        case NoCaFile => p.caData == server.caData
        case Readable(data) => p.caData == data
        case Unreadable => false)
    && p.noted.Some? && p.noted.value % 1_000_000_000 == 0 && p.noted.value <= granted.expiry < p.noted.value + 1_000_000_000
  }

  /** The token beside the annotation outlasts the next poll by a minute. */
  predicate Lasts(p: Payload, now: int, poll: int) {
    p.Access? && p.noted.Some? && p.noted.value >= now + poll + 60_000_000_000
  }

  /** An error-free visit leaves a secret whose token lasts; any other it fills with access to the
      control plane. */
  lemma RenewedSecretHolds(w: World, script: Script, o: ManagedObject, server: Server)
    requires LeavesAlone(script, o.key) && o.recipe.RefreshToken? && o.recipe.server == Some(server)
    requires ApplyVisit(w, script, o).1.error == None
    ensures var before, after := ContentAt(w.store, o.key), ContentAt(ApplyVisit(w, script, o).0.store, o.key);
            if Lasts(before, script(w.tick + 1).now, o.recipe.poll) then after == before
            else GivesAccess(after, script(w.tick + 2).granted, o.recipe.namespace, server)
  {
    hide ApplyVisit, LeavesAlone;
    TokenVisit(w, script, o);
  }

  // ----- What one pass does to the token -----

  lemma {:induction false} OtherVisitsLeave(objs: seq<ManagedObject>, w: World, script: Script, key: Key, m: nat, n: nat)
    requires m <= n <= |objs| && LeavesAlone(script, key) && forall i :: m <= i < n ==> objs[i].key != key
    ensures SameAt(Visits(w, script, objs, false, m).0.store, Visits(w, script, objs, false, n).0.store, key)
    decreases n
  {
    hide ApplyVisit, LeavesAlone;
    if m < n {
      OtherVisitsLeave(objs, w, script, key, m, n - 1);
      var w1 := Visits(w, script, objs, false, n - 1).0;
      SameAtAdmits(script, key);
      ApplyVisitAdmits(SameAtRelation(key), script, Besides(key), w1, objs[n - 1]);
      assert SameAtRelation(key)(w1, ApplyVisit(w1, script, objs[n - 1]).0);
    }
  }

  /** The token secret is the fifth object, and no other one is stored under its key. */
  lemma TokenSecretsPlace(s: Setup)
    requires Separate(s) && TokenNameIsFree(s)
    ensures var objs := Objects(s);
            |objs| >= 8 && objs[4] == TokenSecret(s)
            && forall i :: 0 <= i < |objs| && i != 4 ==> objs[i].key != TokenSecret(s).key
  {
    hide Objects, KeyedApart;
    EnoughObjects(s);
    Placed(s, 4);
    forall i | 0 <= i < |Objects(s)| && i != 4 ensures Objects(s)[i].key != TokenSecret(s).key {
      Placed(s, i);
      NotTheTokenSecret(s, Objects(s)[i]);
    }
  }

  lemma NotTheTokenSecret(s: Setup, o: ManagedObject)
    requires Separate(s) && TokenNameIsFree(s) && IsObject(s, o) && o != TokenSecret(s)
    ensures o.key != TokenSecret(s).key
  {
    hide IsObject;
    if o.key == TokenSecret(s).key {
      assert IsObject(s, TokenSecret(s)) by {
        IsTokenSecret(s);
      }
      ObjectOfKey(s, o);
      ObjectOfKey(s, TokenSecret(s));
    }
  }

  lemma IsTokenSecret(s: Setup)
    ensures IsObject(s, TokenSecret(s))
  {
  }

  /** Where a pass has got to when it comes to the token secret. */
  function AtTheToken(s: Setup, w: World, script: Script): World
    requires |Objects(s)| >= 4
  {
    Visits(w, script, Objects(s), false, 4).0
  }

  function TickOf(s: Setup, w: World, script: Script): Tick
    requires |Objects(s)| >= 4
  {
    var v := AtTheToken(s, w, script);
    Tick(script(v.tick + 1).now, script(v.tick + 2).granted)
  }

  /** The visit to the token secret ends without an error. */
  predicate TokenVisited(s: Setup, w: World, script: Script)
    requires |Objects(s)| >= 4
  {
    ApplyVisit(AtTheToken(s, w, script), script, TokenSecret(s)).1.error == None
  }

  lemma PassTakesATokenStep(s: Setup, w: World, script: Script)
    requires Separate(s) && TokenNameIsFree(s) && ListsFaithfully(script) && LeavesAlone(script, TokenSecret(s).key)
    ensures |Objects(s)| >= 8
    ensures var key := TokenSecret(s).key;
            TokenStep(ContentAt(w.store, key), ContentAt(Pass(w, script, Objects(s), Cleaners(s), false).world.store, key),
                      TickOf(s, w, script), s.poll, EndpointOf(s.otelNamespace, s.server), TokenVisited(s, w, script))
  {
    hide Objects, Cleaners, Pass, Visits, ApplyVisit, ListsFaithfully, LeavesAlone, TokenSecret, TokenStep, EndpointOf,
         ContentAt, SameAt, AtTheToken, KeyedApart;
    var key := TokenSecret(s).key;
    BeforeTheToken(s, w, script);
    AfterTheToken(s, w, script);
    TokenRecipe(s);
    var v := AtTheToken(s, w, script);
    TokenVisit(v, script, TokenSecret(s));
    SameContent(w.store, v.store, key);
    SameContent(ApplyVisit(v, script, TokenSecret(s)).0.store, Pass(w, script, Objects(s), Cleaners(s), false).world.store, key);
  }

  lemma SameContent(a: Store, b: Store, key: Key)
    requires SameAt(a, b, key)
    ensures ContentAt(a, key) == ContentAt(b, key)
  {
  }

  lemma BeforeTheToken(s: Setup, w: World, script: Script)
    requires Separate(s) && TokenNameIsFree(s) && LeavesAlone(script, TokenSecret(s).key)
    ensures |Objects(s)| >= 8
    ensures SameAt(w.store, AtTheToken(s, w, script).store, TokenSecret(s).key)
  {
    hide Objects, Visits, LeavesAlone, TokenSecret;
    TokenSecretsPlace(s);
    OtherVisitsLeave(Objects(s), w, script, TokenSecret(s).key, 0, 4);
    FirstVisit(Objects(s), w, script);
  }

  lemma AfterTheToken(s: Setup, w: World, script: Script)
    requires Separate(s) && TokenNameIsFree(s) && ListsFaithfully(script) && LeavesAlone(script, TokenSecret(s).key)
    ensures |Objects(s)| >= 8
    ensures SameAt(ApplyVisit(AtTheToken(s, w, script), script, TokenSecret(s)).0.store,
                   Pass(w, script, Objects(s), Cleaners(s), false).world.store, TokenSecret(s).key)
  {
    hide Objects, Cleaners, Visits, Cleanups, ApplyVisit, ListsFaithfully, LeavesAlone, TokenSecret;
    TokenSecretsPlace(s);
    var objs := Objects(s);
    FifthVisit(objs, w, script);
    OtherVisitsLeave(objs, w, script, TokenSecret(s).key, 5, |objs|);
    CleanersLeaveToken(s, Visits(w, script, objs, false, |objs|).0, script);
  }

  lemma FirstVisit(objs: seq<ManagedObject>, w: World, script: Script)
    ensures Visits(w, script, objs, false, 0).0 == w
  {
  }

  lemma FifthVisit(objs: seq<ManagedObject>, w: World, script: Script)
    requires |objs| >= 5
    ensures Visits(w, script, objs, false, 5).0 == ApplyVisit(Visits(w, script, objs, false, 4).0, script, objs[4]).0
  {
    hide ApplyVisit;
  }

  lemma CleanersLeaveToken(s: Setup, w: World, script: Script)
    requires Separate(s) && ListsFaithfully(script) && LeavesAlone(script, TokenSecret(s).key)
    ensures SameAt(w.store, Cleanups(w, script, Cleaners(s), |Cleaners(s)|).0.store, TokenSecret(s).key)
  {
    IsTokenSecret(s);
    hide Cleanups, ListsFaithfully, LeavesAlone, TokenSecret, IsObject;
    var key := TokenSecret(s).key;
    SameAtAdmits(script, key);
    forall c, k | c in Cleaners(s) && c.Removes(k) ensures Besides(key)(k) {
      GraphIsSpared(s, c, TokenSecret(s));
    }
    CleanupsAdmit(SameAtRelation(key), script, Besides(key), true, w, Cleaners(s), 0, |Cleaners(s)|);
    NoCleanupsYet(w, script, Cleaners(s));
    assert SameAtRelation(key)(w, Cleanups(w, script, Cleaners(s), |Cleaners(s)|).0);
  }

  /** After a pass whose visit to the token secret was error-free, the secret in the instance
      namespace is as before, if its token lasts, or gives access to the control plane. */
  lemma PassStoresAccess(s: Setup, w: World, script: Script, server: Server)
    requires Separate(s) && TokenNameIsFree(s) && ListsFaithfully(script) && LeavesAlone(script, TokenSecret(s).key)
    requires s.server == Some(server) && |Objects(s)| >= 4 && TokenVisited(s, w, script)
    ensures var key := Key(s.workload, Secret, s.workloadNamespace, "kube-api-access-otel-operator-server");
            var before := ContentAt(w.store, key);
            var after := ContentAt(Pass(w, script, Objects(s), Cleaners(s), false).world.store, key);
            var tick := TickOf(s, w, script);
            if Lasts(before, tick.now, s.poll) then after == before
            else GivesAccess(after, tick.granted, s.otelNamespace, server)
  {
    hide Objects, Cleaners, Pass, ListsFaithfully, LeavesAlone, TickOf, TokenVisited, ContentAt, KeyedApart;
    PassTakesATokenStep(s, w, script);
  }

  // ----- A series of passes -----

  /** The world after the first `n` of a series of Apply passes. */
  function AfterApplies(s: Setup, w: World, scripts: seq<Script>, n: nat): World
    requires n <= |scripts|
  {
    if n == 0 then w
    else Pass(AfterApplies(s, w, scripts, n - 1), scripts[n - 1], Objects(s), Cleaners(s), false).world
  }

  function TickAt(s: Setup, w: World, scripts: seq<Script>, i: nat): Tick
    requires |Objects(s)| >= 4 && i < |scripts|
  {
    TickOf(s, AfterApplies(s, w, scripts, i), scripts[i])
  }

  /** Nobody else touches the secret, the clock does not run backwards, and tokens are granted for
      at least the poll interval plus one minute. */
  ghost predicate SoundSeries(s: Setup, w: World, scripts: seq<Script>) {
    && |Objects(s)| >= 4
    && (forall x :: x in scripts ==> ListsFaithfully(x) && LeavesAlone(x, TokenSecret(s).key))
    && (forall i, k :: 0 <= i < k < |scripts| ==> TickAt(s, w, scripts, i).now <= TickAt(s, w, scripts, k).now)
    && (forall i :: 0 <= i < |scripts| ==>
          TickAt(s, w, scripts, i).granted.expiry >= TickAt(s, w, scripts, i).now + s.poll + MINUTE)
  }

  ghost function TokenAt(s: Setup, w: World, scripts: seq<Script>, n: nat): Payload
    requires n <= |scripts|
  {
    ContentAt(AfterApplies(s, w, scripts, n).store, TokenSecret(s).key)
  }

  lemma SeriesTakesAStep(s: Setup, w: World, scripts: seq<Script>, i: nat)
    requires Separate(s) && TokenNameIsFree(s) && SoundSeries(s, w, scripts) && i < |scripts|
    ensures TokenStep(TokenAt(s, w, scripts, i), TokenAt(s, w, scripts, i + 1), TickAt(s, w, scripts, i), s.poll,
                      EndpointOf(s.otelNamespace, s.server),
                      TokenVisited(s, AfterApplies(s, w, scripts, i), scripts[i]))
  {
    hide Pass, Objects, Cleaners, TokenStep, TickOf, TokenVisited, EndpointOf, TokenSecret;
    assert scripts[i] in scripts;
    PassTakesATokenStep(s, AfterApplies(s, w, scripts, i), scripts[i]);
  }

  lemma StepStaysHonest(before: Payload, after: Payload, tick: Tick, poll: int, at: Option<Endpoint>, succeeded: bool)
    requires TokenStep(before, after, tick, poll, at, succeeded) && Honest(before)
    ensures Honest(after)
  {
  }

  /** A successful step leaves a token that outlasts the next poll by a minute; and no step takes
      away from what is covered until then. */
  lemma StepCovers(before: Payload, after: Payload, tick: Tick, poll: int, at: Option<Endpoint>, succeeded: bool, until: int)
    requires TokenStep(before, after, tick, poll, at, succeeded) && Honest(before)
    requires until <= tick.now + poll + MINUTE <= tick.granted.expiry
    requires succeeded || ValidAt(before, until)
    ensures ValidAt(after, until)
  {
  }

  lemma {:induction false} SeriesStaysHonest(s: Setup, w: World, scripts: seq<Script>, n: nat)
    requires Separate(s) && TokenNameIsFree(s) && SoundSeries(s, w, scripts) && n <= |scripts|
    requires Honest(TokenAt(s, w, scripts, 0))
    ensures Honest(TokenAt(s, w, scripts, n))
  {
    hide TokenAt, TickAt, TokenStep, Honest, TokenVisited, EndpointOf, AfterApplies, Objects, Separate, TokenNameIsFree;
    if n > 0 {
      SeriesStaysHonest(s, w, scripts, n - 1);
      SeriesTakesAStep(s, w, scripts, n - 1);
      StepStaysHonest(TokenAt(s, w, scripts, n - 1), TokenAt(s, w, scripts, n), TickAt(s, w, scripts, n - 1), s.poll,
                      EndpointOf(s.otelNamespace, s.server),
                      TokenVisited(s, AfterApplies(s, w, scripts, n - 1), scripts[n - 1]));
    }
  }

  /** From a pass that visits the token secret without an error on, the secret in the store holds
      a token that is valid until one minute after the next poll, whatever fails in later
      passes. So with successes at most that far apart it is valid at every instant. */
  lemma {:induction false} StoredTokenIsValid(s: Setup, w: World, scripts: seq<Script>, j: nat, n: nat)
    requires Separate(s) && TokenNameIsFree(s) && SoundSeries(s, w, scripts) && j < n <= |scripts|
    requires Honest(TokenAt(s, w, scripts, 0)) && TokenVisited(s, AfterApplies(s, w, scripts, j), scripts[j])
    ensures forall t :: t <= TickAt(s, w, scripts, j).now + s.poll + MINUTE ==> ValidAt(TokenAt(s, w, scripts, n), t)
    decreases n
  {
    hide TokenAt, TickAt, TokenStep, Honest, TokenVisited, EndpointOf, ValidAt, AfterApplies, Objects, SoundSeries,
         Separate, TokenNameIsFree;
    ClockAndGrant(s, w, scripts, j, n - 1);
    var until := TickAt(s, w, scripts, j).now + s.poll + MINUTE;
    SeriesStaysHonest(s, w, scripts, n - 1);
    SeriesTakesAStep(s, w, scripts, n - 1);
    if j < n - 1 {
      StoredTokenIsValid(s, w, scripts, j, n - 1);
    }
    StepCovers(TokenAt(s, w, scripts, n - 1), TokenAt(s, w, scripts, n), TickAt(s, w, scripts, n - 1), s.poll,
               EndpointOf(s.otelNamespace, s.server),
               TokenVisited(s, AfterApplies(s, w, scripts, n - 1), scripts[n - 1]), until);
    ValidUntil(TokenAt(s, w, scripts, n), until);
  }

  lemma ClockAndGrant(s: Setup, w: World, scripts: seq<Script>, j: nat, i: nat)
    requires SoundSeries(s, w, scripts) && j <= i < |scripts|
    ensures |Objects(s)| >= 4
    ensures TickAt(s, w, scripts, j).now <= TickAt(s, w, scripts, i).now
    ensures TickAt(s, w, scripts, i).now + s.poll + MINUTE <= TickAt(s, w, scripts, i).granted.expiry
  {
    hide TickAt;
  }

  lemma ValidUntil(p: Payload, until: int)
    requires ValidAt(p, until)
    ensures forall t :: t <= until ==> ValidAt(p, t)
  {
  }
}
