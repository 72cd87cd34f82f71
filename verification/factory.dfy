/** The two ways application code obtains a client: the process-wide
    singleton and the decorator that injects a fetched client into a
    callable. */
module Factory {
  import opened Wrappers
  import opened ConfigClient
  import Fetch

  /** The singleton holder: empty until the first request, then holding the
      one client for the rest of the process. */
  datatype Holder = Empty | Holding(client: Client)

  /** Returns the held client, creating it from `p` on the first call only;
      later calls ignore their parameters. Creation fetches nothing. */
  function CreateConfigClient(h: Holder, p: Params): (r: (Holder, Client))
    ensures r.0 == Holding(r.1)
    ensures h.Holding? ==> r.1 == h.client
    ensures h.Empty? ==> r.1.params == p && r.1.cache.Unfetched?
  {
    match h
    case Empty =>
      var c := NewClient(p);
      (Holding(c), c)
    case Holding(c) => (h, c)
  }

  /** Two consecutive requests for the singleton give the same client, and
      the second leaves the holder as the first left it, whatever the
      parameters of either call. */
  lemma SingletonStable(h: Holder, p1: Params, p2: Params)
    ensures CreateConfigClient(CreateConfigClient(h, p1).0, p2).1 == CreateConfigClient(h, p1).1
    ensures CreateConfigClient(CreateConfigClient(h, p1).0, p2).0 == CreateConfigClient(h, p1).0
  {
  }

  /** The decorated callable: builds a client from `p`, fetches its
      document from `server`, and only then calls `f` with that client. A
      failed fetch is the fatal error instead of any result of `f`. */
  function Decorated<T>(p: Params, server: string -> Fetch.Reply, f: Client -> T): (r: Result<T, Fetch.FetchError>)
    ensures r.Success? <==> server(Url(NewClient(p))).Received? && server(Url(NewClient(p))).response.ok
    ensures r.Success? ==> r.value == f(Client(p, Cached(server(Url(NewClient(p))).response.body)))
    ensures r.Failure? ==> r.error == GetConfig(NewClient(p), server).error
  {
    match GetConfig(NewClient(p), server)
    case Success(c) => Success(f(c))
    case Failure(e) => Failure(e)
  }

  /** When the fetch fails the callable is never run: the outcome is the
      same whatever callable is wrapped. */
  lemma DecoratedSkipsOnFailure<T>(p: Params, server: string -> Fetch.Reply, f: Client -> T, g: Client -> T)
    requires GetConfig(NewClient(p), server).Failure?
    ensures Decorated(p, server, f) == Decorated(p, server, g)
    ensures Decorated(p, server, f).Failure?
  {
  }

  /** The client handed to the callable already holds the fetched document
      and the decorator's parameters. */
  lemma DecoratedPassesFetchedClient(p: Params, server: string -> Fetch.Reply)
    requires GetConfig(NewClient(p), server).Success?
    ensures var r := Decorated(p, server, (c: Client) => c);
      r.Success? && r.value.params == p && Config(r.value) == server(Url(NewClient(p))).response.body
  {
  }
}
