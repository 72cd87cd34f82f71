# config-client core, modelled in Dafny

A model of the client side of a Spring Cloud Config setup: a `ConfigClient`
built from an application name, profile, branch, server address and URL
template; the request URL it resolves; the one GET it validates; the
configuration document it stores; the dot-path lookup and top-level key
listing over that document; the process-wide singleton
(`create_config_client`); and the `config_client` decorator that hands a
fetched client to a callable.

The implementation module `config/spring.py` is not part of this model. The
behaviour modelled is the one the unit tests in `tests/unit/test_spring.py`
assert, and every row below cites those assertions.

Modules, one per component:

- `Wrappers` (`wrappers.dfy`): `Option` and `Result`.
- `Json` (`json.dfy`): the decoded value (string, int, bool, null, mapping,
  list), the document (a top-level mapping) and `Walk`, the descent behind
  dot-path lookup.
- `DotPath` (`dotpath.dfy`): `Split` and `Join` on `.`, proved inverse.
- `UrlTemplate` (`url_template.dfy`): reading a template as characters and
  the four placeholders `{address}`, `{branch}`, `{app_name}`, `{profile}`,
  and filling them in by name.
- `UrlExtension` (`url_extension.dfy`): forcing the URL to end in `.json`.
- `Fetch` (`fetch.dfy`): the reply of the GET and its validation.
- `ConfigClient` (`config_client.dfy`): parameters with their defaults
  (`http://localhost:8888/configuration`, `master`, `development`), the
  client record, `Url`, `Config`, `GetConfig`, `GetAttribute`, `GetKeys`.
- `Factory` (`factory.dfy`): the singleton holder and the decorator.
- `Scenarios` (`scenarios.dfy`): the test fixture and each test's assertion
  restated as a lemma about the model.

Choices the model makes about behaviour:

- Every URL ends in `.json`. A template ending in `.yaml` resolves to a
  `.json` URL (tests at lines 69, 94 and 139), and `.yml` or any other
  extension of the last path segment is rewritten to `.json` too.
- Reading `config` does not fetch. `test_config_property` (lines 87-88) reads
  it with no server running and expects no exit, only a mapping. Which
  mapping that is before `get_config` is not asserted; the model's default is
  the empty mapping.
- `create_config_client` does not fetch. The singleton test (lines 141-145)
  runs with no server and expects no exit.
- `get_config` is memoized: a client that already holds a document does not
  fetch again. The tests call it once per client and do not decide this.
- The decorator always builds a fresh client from its own parameters and
  fetches with it; it does not go through the singleton holder.

The I/O boundary: the HTTP GET is a parameter `server: string -> Reply`,
where a reply is a received response (status code, `ok` flag, decoded body)
or `Unreachable`. Process exit is the `Failure` of a `Result`.

## Model

| member | source | states |
|---|---|---|
| Json.Walk | tests/unit/test_spring.py:110-114 | a found value is never null, and it is found under the first segment's key of a mapping; the empty path gives the value itself |
| Json.WalkAppend | tests/unit/test_spring.py:110-114 | walking a path `a + b` is walking `a`, then `b` from the value reached; a miss on `a` is a miss on the whole path |
| Json.WalkOneKey | tests/unit/test_spring.py:110-114 | a one-segment walk finds `w` exactly when the key is present with the non-null value `w` |
| DotPath.Split | tests/unit/test_spring.py:112 | splitting gives at least one segment, no segment holds the separator, and there is one more segment than separators |
| DotPath.JoinSplit | tests/unit/test_spring.py:112 | joining the segments of a split path with `.` gives the path back |
| DotPath.SplitJoin | tests/unit/test_spring.py:112 | splitting the join of dot-free segments gives those segments back |
| UrlTemplate.Resolve | tests/unit/test_spring.py:97-108 | brace-free text resolves to itself, and binding every name to its own placeholder gives the template back, so only the four placeholders are ever rewritten |
| UrlTemplate.UntokenizeTokenize | tests/unit/test_spring.py:97-108 | reading a template into characters and placeholders loses nothing: the pieces spell the template |
| UrlTemplate.TokenizeUntokenize | tests/unit/test_spring.py:97-108 | pieces with no literal `{` are read back exactly from their text, so the template syntax is unambiguous |
| UrlTemplate.ResolvePlaceholder | tests/unit/test_spring.py:97-108 | a leading placeholder is replaced by the value bound to its name, and the rest is resolved independently |
| UrlTemplate.ResolveLiteral | tests/unit/test_spring.py:97-108 | brace-free text is copied into the URL unchanged |
| UrlTemplate.ResolveDocumentLayout | tests/unit/test_spring.py:97-108 | four placeholders in any order in the `a/b/c-d` layout are each filled with the value of their own name |
| UrlExtension.ExtensionStart | tests/unit/test_spring.py:138-139 | the returned index is a dot after which the URL has neither dots nor slashes; none is returned only when every dot is followed by a later slash |
| UrlExtension.NormalizeExtension | tests/unit/test_spring.py:138-139 | the result ends in `.json`; a URL already ending in `.json` is kept; one ending in `.yaml` gets `.json` in place of `.yaml`; otherwise only the final segment's extension is replaced or appended to |
| UrlExtension.NormalizeIdempotent | tests/unit/test_spring.py:138-139 | normalizing a normalized URL changes nothing |
| UrlExtension.ExtensionStartAtLastDot | tests/unit/test_spring.py:69 | in a name ending in a dot and a dot-free, slash-free word, the extension starts at that dot |
| UrlExtension.YamlExtensionStart | tests/unit/test_spring.py:69 | in a name ending in `.yaml` the extension starts at that dot and the name does not end in `.json` |
| UrlExtension.NormalizeYaml | tests/unit/test_spring.py:90-95 | any URL ending in `.yaml` becomes the same URL ending in `.json` |
| Fetch.Validate | tests/unit/test_spring.py:77-85 | succeeds exactly on a received ok response, with the body verbatim; an unreachable server is a transport error and a non-ok response a response error carrying its status |
| ConfigClient.WithDefaults | tests/unit/test_spring.py:90-95 | the defaults are address `http://localhost:8888/configuration`, branch `master` and profile `development`; the application name and template are kept as given |
| ConfigClient.NewClient | tests/unit/test_spring.py:98-104 | construction stores the parameters as given and fetches nothing |
| ConfigClient.Url | tests/unit/test_spring.py:90-108 | the URL ends in `.json`; a filled-in template ending in `.json` is the URL itself; one ending in `.yaml` has `.yaml` replaced by `.json`; otherwise, apart from its extension, the URL is a prefix of the filled-in template |
| ConfigClient.Config | tests/unit/test_spring.py:87-88 | reading the document never fetches; it is the fetched document once there is one, and the model's default, the empty mapping, before |
| ConfigClient.GetConfig | tests/unit/test_spring.py:72-85 | an unfetched client succeeds exactly when the reply at its URL is ok, then stores that body; a transport or status failure is the matching fatal error; a fetched client is returned unchanged; parameters never change |
| ConfigClient.GetAttribute | tests/unit/test_spring.py:110-114 | a found value is non-null and lies under a top-level key named by the path's first segment |
| ConfigClient.GetConfigMemoized | tests/unit/test_spring.py:77-80 | after a successful fetch, asking again with any server returns the same client and document |
| ConfigClient.GetAttributeStep | tests/unit/test_spring.py:110-114 | looking up `key.path` is looking up `key`, then walking `path` from the value found |
| ConfigClient.GetKeys | tests/unit/test_spring.py:116-118 | the keys are the stored document's top-level keys, and a dot-free name is found by lookup iff it is one of them with a non-null value; nested keys are not among them |
| ConfigClient.TopLevelLookup | tests/unit/test_spring.py:116-118 | a dot-free name is found by lookup iff it is a top-level key with a non-null value, and the lookup returns that value |
| Factory.CreateConfigClient | tests/unit/test_spring.py:141-145 | the holder ends up holding the returned client; a held client is returned whatever the parameters; the first call creates an unfetched client from its parameters |
| Factory.SingletonStable | tests/unit/test_spring.py:141-145 | two consecutive calls return the same client and leave the holder as the first left it |
| Factory.Decorated | tests/unit/test_spring.py:120-136 | the callable's result is returned exactly when the reply is ok, and the callable then received the client holding that body; otherwise the result is the fetch's fatal error |
| Factory.DecoratedSkipsOnFailure | tests/unit/test_spring.py:130-136 | when the fetch fails the outcome is a failure and does not depend on the callable |
| Factory.DecoratedPassesFetchedClient | tests/unit/test_spring.py:120-128 | the client passed to the callable has the decorator's parameters and the fetched document |
| Scenarios.DefaultUrl | tests/unit/test_spring.py:90-95 | `app_name='test-app'` with the `.yaml` template and defaults resolves to `http://localhost:8888/configuration/master/test-app-development.json` |
| Scenarios.CustomUrl | tests/unit/test_spring.py:97-108 | the stored branch is `development`, and the swapped template resolves to `http://localhost:8888/configuration/development/development-test-app.json` |
| Scenarios.ConfigBeforeFetch | tests/unit/test_spring.py:87-88 | a new client's config is a mapping read without any fetch; that it is empty is the model's default |
| Scenarios.FetchOk | tests/unit/test_spring.py:77-80 | an ok response stores a document equal to the fixture |
| Scenarios.FetchFails | tests/unit/test_spring.py:72-85 | a 402 response is a response error and an absent server a transport error |
| Scenarios.FixtureHostWalk | tests/unit/test_spring.py:45-66 | walking `spring`, `cloud`, `consul`, `host` through the fixture reaches `"discovery"` |
| Scenarios.LookupHost | tests/unit/test_spring.py:110-114 | `get_attribute('spring.cloud.consul.host')` on the fixture is `"discovery"` |
| Scenarios.TopLevelKeys | tests/unit/test_spring.py:116-118 | the fixture's keys are exactly `health` and `spring`, and not the nested `cloud` |
| Scenarios.SingletonTwice | tests/unit/test_spring.py:141-145 | two `create_config_client()` calls give equal clients |
| Scenarios.DecoratorCases | tests/unit/test_spring.py:120-136 | the decorated callable returns a result with an ok server, and the call fails with no server |

## Left out

- The HTTP GET, decoding the body from JSON or YAML, and the process exit are
  not modelled. The GET is the `server` parameter, the body arrives already
  decoded, and the exit is a `Failure` value.
- The `ok` flag is taken from the response as given. The model does not
  derive it from the status code.
- Python's `str.format` details are not modelled. `{{` escapes, format
  specifications and the error for an unknown `{name}` are out. Any brace
  text that is not one of the four placeholders stays literal.
- UrlExtension.NormalizeExtension: the tests fix only two cases: `.yaml`
  becomes `.json` and `.json` is kept. The rule for other extensions is a
  modelling choice: the extension of the last path segment is replaced, or
  `.json` is appended when that segment has none.
- The default `app_name` of `ConfigClient()` is not asserted by the tests and
  may come from the environment, so the model always takes it as a
  parameter.
- Singleton identity versus equality is not modelled. The holder is written
  once and then read.
- ConfigClient.GetAttribute: the contract says nothing more about misses
  than that they return `None`. A null value and a missing key both give
  `None`, and a segment applied to a list or a scalar is a miss.
- Floating-point numbers are not modelled. The decoded value has no
  variant for a number such as `1.5`; the tests' fixture holds none.
- The decorator's keyword-argument mechanics (`c=None`) are not modelled. The
  callable is a function from a client to a result.
