/** When the access token is renewed, and what is noted beside it. */
module Token {
  import opened Wrappers
  import opened Cluster

  const SECOND := 1_000_000_000
  const MINUTE := 60 * SECOND
  const HOUR := 60 * MINUTE

  /** A timestamp written with second precision and read back. */
  function TruncatedToSecond(t: int): (r: int)
    ensures r % SECOND == 0 && r <= t < r + SECOND
  {
    t - t % SECOND
  }

  /** The expiry annotated on a secret; absent when there is none to parse. */
  function NotedExpiry(p: Payload): Option<int> {
    if p.Access? then p.noted else None
  }

  /** A token is renewed when nothing is noted, or when it would expire before the
      next reconcile plus one minute. */
  predicate RefreshDue(p: Payload, now: int, poll: int) {
    NotedExpiry(p).None? || NotedExpiry(p).value < now + poll + MINUTE
  }

  /** What a token is good for: a namespace of a cluster at an address. */
  datatype Endpoint = Endpoint(namespace: string, host: string, caData: string)

  /** The endpoint, if the cluster's configuration is known and its CA data can be read. */
  function EndpointOf(namespace: string, server: Option<Server>): Option<Endpoint> {
    match server
    case None => None
    case Some(Server(host, _, Readable(data))) => Some(Endpoint(namespace, host, data))
    case Some(Server(host, data, NoCaFile)) => Some(Endpoint(namespace, host, data))
    case Some(Server(_, _, Unreadable)) => None
  }

  /** The secret content for a freshly granted token. */
  function Renewed(granted: Cluster.Token, at: Endpoint): Payload {
    Access(granted, at.namespace, at.caData, Kubeconfig(at.host, at.caData, granted.secret, at.namespace),
           Some(TruncatedToSecond(granted.expiry)))
  }
}
