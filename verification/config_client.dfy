/** The configuration client: its construction parameters, its URL, the
    document it fetches once and keeps, and the lookups over that document. */
module ConfigClient {
  import opened Wrappers
  import opened Json
  import DotPath
  import UrlTemplate
  import UrlExtension
  import Fetch

  const DefaultAddress: string := "http://localhost:8888/configuration"
  const DefaultBranch: string := "master"
  const DefaultProfile: string := "development"
  const DefaultUrlTemplate: string := "{address}/{branch}/{app_name}-{profile}.json"

  /** The construction parameters; they never change after construction. */
  datatype Params = Params(
    appName: string,
    profile: string,
    branch: string,
    address: string,
    urlTemplate: string)

  /** Parameters with the default profile, branch and address. */
  function WithDefaults(appName: string, urlTemplate: string): (p: Params)
    ensures p.appName == appName && p.urlTemplate == urlTemplate
    ensures p.address == "http://localhost:8888/configuration"
    ensures p.branch == "master" && p.profile == "development"
  {
    Params(appName, DefaultProfile, DefaultBranch, DefaultAddress, urlTemplate)
  }

  /** The config readiness of a client: nothing fetched yet, or the document
      of the first successful fetch. A failed fetch ends the process, so it
      has no state of its own here; it is the `Failure` of `GetConfig`. */
  datatype Cache = Unfetched | Cached(doc: Document)

  datatype Client = Client(params: Params, cache: Cache)

  /** Construction stores the parameters as given and fetches nothing. */
  function NewClient(p: Params): (c: Client)
    ensures c.params == p && c.cache == Unfetched
  {
    Client(p, Unfetched)
  }

  function BindingsOf(p: Params): UrlTemplate.Bindings
  {
    UrlTemplate.Bindings(p.address, p.branch, p.appName, p.profile)
  }

  /** The request URL: the template with its placeholders filled in, then
      forced to end in `.json`. A filled-in template that already ends in
      `.json` is the URL; one ending in `.yaml` gets `.json` instead. */
  function Url(c: Client): (r: string)
    ensures UrlExtension.EndsWith(r, UrlExtension.JsonExtension)
    ensures var s := UrlTemplate.Resolve(c.params.urlTemplate, BindingsOf(c.params));
      r[..|r| - |UrlExtension.JsonExtension|] <= s
      && UrlExtension.IsExtension(s[|r| - |UrlExtension.JsonExtension|..])
    ensures var s := UrlTemplate.Resolve(c.params.urlTemplate, BindingsOf(c.params));
      UrlExtension.EndsWith(s, UrlExtension.JsonExtension) ==> r == s
    ensures var s := UrlTemplate.Resolve(c.params.urlTemplate, BindingsOf(c.params));
      UrlExtension.EndsWith(s, UrlExtension.YamlExtension) ==>
        r == s[..|s| - |UrlExtension.YamlExtension|] + UrlExtension.JsonExtension
  {
    UrlExtension.NormalizeExtension(UrlTemplate.Resolve(c.params.urlTemplate, BindingsOf(c.params)))
  }

  /** The stored document; an empty mapping while nothing has been fetched
      (reading it never triggers a fetch). */
  function Config(c: Client): (d: Document)
    ensures c.cache.Cached? ==> d == c.cache.doc
    ensures c.cache.Unfetched? ==> |d| == 0
  {
    match c.cache
    case Unfetched => map[]
    case Cached(doc) => doc
  }

  /** Fetches the document from `server` at most once per client. An
      unfetched client issues one request at its URL: an ok reply is stored
      verbatim, anything else is the fatal error. A client that already
      holds a document returns unchanged without consulting `server`. */
  function GetConfig(c: Client, server: string -> Fetch.Reply): (r: Result<Client, Fetch.FetchError>)
    ensures r.Success? ==> r.value.params == c.params && r.value.cache.Cached?
    ensures c.cache.Cached? ==> r == Success(c)
    ensures c.cache.Unfetched? ==>
      (r.Success? <==> server(Url(c)).Received? && server(Url(c)).response.ok)
    ensures c.cache.Unfetched? && r.Success? ==> Config(r.value) == server(Url(c)).response.body
    ensures c.cache.Unfetched? && server(Url(c)).Unreachable? ==> r == Failure(Fetch.TransportError)
    ensures c.cache.Unfetched? && server(Url(c)).Received? && !server(Url(c)).response.ok ==>
      r == Failure(Fetch.ResponseError(server(Url(c)).response.statusCode))
  {
    match c.cache
    case Cached(_) => Success(c)
    case Unfetched =>
      match Fetch.Validate(server(Url(c)))
      case Success(doc) => Success(Client(c.params, Cached(doc)))
      case Failure(e) => Failure(e)
  }

  /** Looks up a dot-separated path in the stored document. */
  function GetAttribute(c: Client, path: string): (r: Option<Value>)
    ensures r.Some? ==> r.value != Null
    ensures r.Some? ==> DotPath.Split(path, DotPath.Dot)[0] in Config(c)
  {
    Walk(Object(Config(c)), DotPath.Split(path, DotPath.Dot))
  }

  /** The top-level keys of the stored document: exactly the names a
      one-segment lookup can reach, together with the keys whose value is
      null, and none of the nested keys. */
  function GetKeys(c: Client): (r: set<string>)
    ensures forall k :: k in r <==> k in Config(c)
    ensures forall k :: DotPath.Dot !in k ==>
      (GetAttribute(c, k).Some? <==> k in r && Config(c)[k] != Null)
  {
    assert forall k :: DotPath.Dot !in k ==>
      (GetAttribute(c, k).Some? <==> k in Config(c) && Config(c)[k] != Null) by {
      forall k | DotPath.Dot !in k
        ensures GetAttribute(c, k).Some? <==> k in Config(c) && Config(c)[k] != Null
      {
        TopLevelLookup(c, k);
      }
    }
    Config(c).Keys
  }

  /** Once fetched, the document is fixed: asking again, with any server,
      returns the same client. */
  lemma GetConfigMemoized(c: Client, first: string -> Fetch.Reply, later: string -> Fetch.Reply)
    requires GetConfig(c, first).Success?
    ensures GetConfig(GetConfig(c, first).value, later) == GetConfig(c, first)
    ensures Config(GetConfig(GetConfig(c, first).value, later).value) == Config(GetConfig(c, first).value)
  {
  }

  /** A lookup by a path made of several keys is the lookup of the first key
      continued from the value found there. */
  lemma GetAttributeStep(c: Client, key: string, path: string)
    requires DotPath.Dot !in key
    ensures GetAttribute(c, key + [DotPath.Dot] + path) ==
      match GetAttribute(c, key) case None => None case Some(v) => Walk(v, DotPath.Split(path, DotPath.Dot))
  {
    var rest := DotPath.Split(path, DotPath.Dot);
    DotPath.SplitPrefix(key, [DotPath.Dot] + path, DotPath.Dot);
    assert ([DotPath.Dot] + path)[0] == DotPath.Dot && ([DotPath.Dot] + path)[1..] == path;
    assert DotPath.Split([DotPath.Dot] + path, DotPath.Dot) == [""] + rest;
    assert key + [DotPath.Dot] + path == key + ([DotPath.Dot] + path);
    DotPath.SplitPrefix(key, "", DotPath.Dot);
    assert key + "" == key;
    assert DotPath.Split(key, DotPath.Dot) == [key];
    WalkAppend(Object(Config(c)), [key], rest);
    assert [key] + rest == DotPath.Split(key + [DotPath.Dot] + path, DotPath.Dot);
  }

  /** A dot-free name is found by lookup exactly when it is a top-level key
      with a non-null value, and the lookup returns that value. */
  lemma TopLevelLookup(c: Client, k: string)
    requires DotPath.Dot !in k
    ensures GetAttribute(c, k).Some? <==> k in Config(c) && Config(c)[k] != Null
    ensures GetAttribute(c, k).Some? ==> GetAttribute(c, k).value == Config(c)[k]
  {
    DotPath.SplitPrefix(k, "", DotPath.Dot);
    assert k + "" == k;
    assert DotPath.Split(k, DotPath.Dot) == [k];
    if k in Config(c) {
      WalkOneKey(Config(c), k, Config(c)[k]);
    }
  }
}
