/** The access token over time: when it is renewed, and that it never expires in between. */
module TokenRuns {
  import opened Wrappers
  import opened Cluster
  import opened Token
  import Managed
  import Manager

  /** One successful reconcile: the time it looks at the clock, and the token it would get. */
  datatype Tick = Tick(now: int, granted: Cluster.Token)

  function AfterTick(p: Payload, poll: int, at: Endpoint, tick: Tick): Payload {
    if RefreshDue(p, tick.now, poll) then Renewed(tick.granted, at) else p
  }

  /** The secret's content after the first `n` reconciles. */
  function After(p: Payload, poll: int, at: Endpoint, run: seq<Tick>, n: nat): Payload
    requires n <= |run|
  {
    if n == 0 then p else AfterTick(After(p, poll, at, run, n - 1), poll, at, run[n - 1])
  }

  /** What the engine writes when it reconciles a token secret is one such step. */
  lemma EngineTakesATick(w: World, script: Script, account: Key, namespace: string, poll: int, server: Option<Server>,
                         p: Payload)
    ensures var content := Manager.Reconcile(w, script, Managed.RefreshToken(account, namespace, poll, server), p).1;
            content.Ok? ==>
              if EndpointOf(namespace, server).None? then content.value == p && !RefreshDue(p, script(w.tick).now, poll)
              else content.value == AfterTick(p, poll, EndpointOf(namespace, server).value,
                                              Tick(script(w.tick).now, script(w.tick + 1).granted))
  {
  }

  /** The annotation is the second-truncated expiry of the token stored beside it, and the
      kubeconfig carries that token. */
  ghost predicate Honest(p: Payload) {
    p.Access? && p.noted.Some? ==>
      && p.noted.value == TruncatedToSecond(p.token.expiry)
      && p.kubeconfig.token == p.token.secret
      && p.kubeconfig.caData == p.caData
      && p.kubeconfig.namespace == p.namespace
  }

  /** Reconciles follow each other within the poll interval plus one minute. */
  ghost predicate Paced(run: seq<Tick>, poll: int) {
    forall i :: 0 <= i < |run| - 1 ==> run[i].now <= run[i + 1].now <= run[i].now + poll + MINUTE
  }

  /** Every granted token lives at least that long from the moment it is asked for. */
  ghost predicate Grants(run: seq<Tick>, lifetime: int) {
    forall i :: 0 <= i < |run| ==> run[i].granted.expiry >= run[i].now + lifetime
  }

  ghost predicate ValidAt(p: Payload, t: int) {
    p.Access? && t <= p.token.expiry
  }

  lemma {:induction false} NoteStaysHonest(p: Payload, poll: int, at: Endpoint, run: seq<Tick>, n: nat)
    requires n <= |run| && Honest(p)
    ensures Honest(After(p, poll, at, run, n))
    ensures n > 0 ==> After(p, poll, at, run, n).Access? && After(p, poll, at, run, n).noted.Some?
  {
    if n > 0 {
      NoteStaysHonest(p, poll, at, run, n - 1);
    }
  }

  /** From the first successful reconcile on, the stored token is unexpired at every instant up
      to and including the next one, when tokens are granted for at least the poll interval plus
      one minute. */
  lemma TokenNeverExpires(p: Payload, poll: int, at: Endpoint, run: seq<Tick>, lifetime: int, n: nat, t: int)
    requires Honest(p) && Paced(run, poll) && Grants(run, lifetime) && lifetime >= poll + MINUTE
    requires 0 < n <= |run|
    requires run[n - 1].now <= t <= if n < |run| then run[n].now else run[n - 1].now + poll + MINUTE
    ensures ValidAt(After(p, poll, at, run, n), t)
  {
    NoteStaysHonest(p, poll, at, run, n - 1);
    NoteStaysHonest(p, poll, at, run, n);
  }

  /** One-hour tokens cover every schedule exactly when the poll interval is at most 59 minutes. */
  lemma OneHourTokensSufficeIff(poll: int, at: Endpoint)
    requires poll >= 0
    ensures poll <= 59 * MINUTE <==>
              forall run: seq<Tick>, n: nat, t: int ::
                0 < n <= |run| && Paced(run, poll) && (forall i :: 0 <= i < |run| ==> run[i].granted.expiry == run[i].now + HOUR)
                && run[n - 1].now <= t <= (if n < |run| then run[n].now else run[n - 1].now + poll + MINUTE)
                ==> ValidAt(After(Blank, poll, at, run, n), t)
  {
    if poll <= 59 * MINUTE {
      forall run: seq<Tick>, n: nat, t: int |
        0 < n <= |run| && Paced(run, poll) && (forall i :: 0 <= i < |run| ==> run[i].granted.expiry == run[i].now + HOUR)
        && run[n - 1].now <= t <= (if n < |run| then run[n].now else run[n - 1].now + poll + MINUTE)
        ensures ValidAt(After(Blank, poll, at, run, n), t)
      {
        TokenNeverExpires(Blank, poll, at, run, HOUR, n, t);
      }
    } else {
      var run := [Tick(0, Cluster.Token("", HOUR))];
      assert After(Blank, poll, at, run, 0) == Blank;
      assert After(Blank, poll, at, run, 1) == Renewed(run[0].granted, at);
      assert !ValidAt(After(Blank, poll, at, run, 1), poll + MINUTE);
    }
  }

  /** Reconcile `i` (counted from zero) asks for a new token. */
  ghost predicate Mints(p: Payload, poll: int, at: Endpoint, run: seq<Tick>, i: nat)
    requires i < |run|
  {
    RefreshDue(After(p, poll, at, run, i), run[i].now, poll)
  }

  lemma {:induction false} KeptSinceMint(p: Payload, poll: int, at: Endpoint, run: seq<Tick>, i: nat, j: nat)
    requires i < j <= |run| && Mints(p, poll, at, run, i)
    requires forall m :: i < m < j ==> !Mints(p, poll, at, run, m)
    ensures After(p, poll, at, run, j) == Renewed(run[i].granted, at)
    decreases j
  {
    if i + 1 < j {
      KeptSinceMint(p, poll, at, run, i, j - 1);
      assert !Mints(p, poll, at, run, j - 1);
    }
  }

  /** Between two successive mints lies more than the lifetime less the poll interval, one
      minute and one second; for one-hour tokens, more than 59 minutes less the poll interval,
      up to one second. */
  lemma MintsAreSpaced(p: Payload, poll: int, at: Endpoint, run: seq<Tick>, lifetime: int, i: nat, j: nat)
    requires i < j < |run| && Grants(run, lifetime)
    requires Mints(p, poll, at, run, i) && Mints(p, poll, at, run, j)
    requires forall m :: i < m < j ==> !Mints(p, poll, at, run, m)
    ensures run[j].now - run[i].now > lifetime - poll - MINUTE - SECOND
    ensures lifetime == HOUR ==> run[j].now - run[i].now > 59 * MINUTE - poll - SECOND
  {
    KeptSinceMint(p, poll, at, run, i, j);
  }
}
