/** The deletion guard: which kinds of user resources still have instances. */
module Guard {
  import opened Wrappers

  datatype ListKind = ListKind(kind: string, version: string)

  /** How the control plane answers a listing. */
  datatype Listing = Items(count: nat) | NoMatch | Broken

  const LIST_SUFFIX := "List"

  const OTEL_LIST_KINDS := [
    ListKind("OpenTelemetryCollectorList", "v1alpha1"),
    ListKind("InstrumentationList", "v1alpha1"),
    ListKind("OpenTelemetryCollectorList", "v1beta1")]

  function TrimSuffix(s: string, suffix: string): string {
    if |s| >= |suffix| && s[|s| - |suffix|..] == suffix then s[..|s| - |suffix|] else s
  }

  function KindName(k: ListKind): string {
    TrimSuffix(k.kind, LIST_SUFFIX)
  }

  predicate HasInstances(answer: Listing) {
    answer.Items? && answer.count > 0
  }

  /** What is known after the first `n` listings. */
  function Blocking(kinds: seq<ListKind>, answers: seq<Listing>, n: nat): Result<seq<string>, string>
    requires n <= |kinds| == |answers|
  {
    if n == 0 then Ok([])
    else
      match Blocking(kinds, answers, n - 1)
      case Err(e) => Err(e)
      case Ok(found) =>
        var kind := KindName(kinds[n - 1]);
        match answers[n - 1]
        case NoMatch => Ok(found)
        case Broken => Err(kinds[n - 1].kind)
        case Items(count) => if count > 0 && kind !in found then Ok(found + [kind]) else Ok(found)
  }

  /** Lists every kind; an error other than an unknown kind stops the listing. */
  method BlockingKinds(kinds: seq<ListKind>, answers: seq<Listing>) returns (r: Result<seq<string>, string>)
    requires |kinds| == |answers|
    ensures r == Blocking(kinds, answers, |kinds|)
  {
    var blocking: seq<string> := [];
    var i := 0;
    while i < |kinds|
      invariant 0 <= i <= |kinds|
      invariant Blocking(kinds, answers, i) == Ok(blocking)
    {
      if answers[i].Broken? {
        FirstErrorWins(kinds, answers, i + 1, |kinds|);
        return Err(kinds[i].kind);
      }
      if answers[i].Items? && answers[i].count > 0 {
        var kind := KindName(kinds[i]);
        if kind !in blocking {
          blocking := blocking + [kind];
        }
      }
      i := i + 1;
    }
    r := Ok(blocking);
  }

  lemma {:induction false} FirstErrorWins(kinds: seq<ListKind>, answers: seq<Listing>, m: nat, n: nat)
    requires m <= n <= |kinds| == |answers|
    requires Blocking(kinds, answers, m).Err?
    ensures Blocking(kinds, answers, n) == Blocking(kinds, answers, m)
  {
    if m < n {
      FirstErrorWins(kinds, answers, m, n - 1);
    }
  }

  /** Some listing of `kind` among the first `n` showed instances. */
  ghost predicate Seen(kinds: seq<ListKind>, answers: seq<Listing>, n: nat, kind: string)
    requires n <= |kinds| == |answers|
  {
    exists i :: 0 <= i < n && KindName(kinds[i]) == kind && HasInstances(answers[i])
  }

  /** `i` is the first listing that showed instances of `kind`. */
  ghost predicate FirstSeenAt(kinds: seq<ListKind>, answers: seq<Listing>, kind: string, i: nat)
    requires |kinds| == |answers|
  {
    && i < |kinds| && KindName(kinds[i]) == kind && HasInstances(answers[i])
    && forall j :: 0 <= j < i ==> !(KindName(kinds[j]) == kind && HasInstances(answers[j]))
  }

  /** The guard fails exactly when a listing fails; otherwise it names, once each and in the
      order first seen (`at`), exactly the kinds with instances in some served version. */
  lemma {:induction false} BlockingIsExact(kinds: seq<ListKind>, answers: seq<Listing>, n: nat) returns (at: seq<nat>)
    requires n <= |kinds| == |answers|
    ensures Blocking(kinds, answers, n).Err? <==> exists i :: 0 <= i < n && answers[i].Broken?
    ensures Blocking(kinds, answers, n).Ok? ==>
              var found := Blocking(kinds, answers, n).value;
              && (forall kind :: kind in found <==> Seen(kinds, answers, n, kind))
              && |at| == |found|
              && (forall p :: 0 <= p < |found| ==> at[p] < n && FirstSeenAt(kinds, answers, found[p], at[p]))
              && (forall p, q :: 0 <= p < q < |found| ==> at[p] < at[q] && found[p] != found[q])
  {
    at := [];
    if n > 0 {
      at := BlockingIsExact(kinds, answers, n - 1);
      if Blocking(kinds, answers, n).Ok? {
        var found := Blocking(kinds, answers, n - 1).value;
        var kind := KindName(kinds[n - 1]);
        assert forall k :: Seen(kinds, answers, n, k) <==>
          Seen(kinds, answers, n - 1, k) || (k == kind && HasInstances(answers[n - 1]));
        if HasInstances(answers[n - 1]) && kind !in found {
          assert forall j :: 0 <= j < n - 1 ==> !(KindName(kinds[j]) == kind && HasInstances(answers[j]));
          at := at + [n - 1];
        }
      }
    }
  }
}
