/** The behaviour the unit tests pin down, stated over the model: the test
    fixture document, the two URL cases, the three fetch outcomes, the
    singleton and the decorator. */
module Scenarios {
  import opened Wrappers
  import opened Json
  import DotPath
  import UrlTemplate
  import UrlExtension
  import Fetch
  import opened ConfigClient
  import Factory

  /** The test fixture: a `health` block and a `spring` block nested four
      levels deep. */
  function Fixture(): Document
  {
    map[
      "health" := Object(map["config" := Object(map["enabled" := Bool(false)])]),
      "spring" := Object(map[
        "cloud" := Object(map[
          "consul" := Object(map[
            "discovery" := Object(map[
              "health-check-interval" := Str("10s"),
              "health-check-path" := Str("/manage/health"),
              "instance-id" := Str("pecas-textos:${random.value}"),
              "prefer-ip-address" := Bool(true),
              "register-health-check" := Bool(true)]),
            "host" := Str("discovery"),
            "port" := Int(8500)])])])]
  }

  /** The server of the successful tests: every request gets status 200 and
      the fixture. */
  function OkServer(url: string): Fetch.Reply
  {
    Fetch.Received(Fetch.Response(200, true, Fixture()))
  }

  /** The server of the rejected test: status 402, not ok. */
  function RejectingServer(url: string): Fetch.Reply
  {
    Fetch.Received(Fetch.Response(402, false, Fixture()))
  }

  /** No configuration server is listening. */
  function AbsentServer(url: string): Fetch.Reply
  {
    Fetch.Unreachable
  }

  const YamlTemplate: string := "{address}/{branch}/{app_name}-{profile}.yaml"
  const SwappedTemplate: string := "{address}/{branch}/{profile}-{app_name}.json"

  /** The client every test starts from. */
  function TestClient(): Client
  {
    NewClient(WithDefaults("test-app", YamlTemplate))
  }

  // Spelling facts: each literal below split at its placeholders. They are
  // kept apart so that no proof has to compare long literals in a crowded
  // context.

  lemma YamlTemplateLayout()
    ensures YamlTemplate == UrlTemplate.Placeholder(UrlTemplate.Address) + ("/" + (UrlTemplate.Placeholder(UrlTemplate.Branch)
      + ("/" + (UrlTemplate.Placeholder(UrlTemplate.AppName) + ("-" + (UrlTemplate.Placeholder(UrlTemplate.Profile) + ".yaml"))))))
  {
  }

  lemma SwappedTemplateLayout()
    ensures SwappedTemplate == UrlTemplate.Placeholder(UrlTemplate.Address) + ("/" + (UrlTemplate.Placeholder(UrlTemplate.Branch)
      + ("/" + (UrlTemplate.Placeholder(UrlTemplate.Profile) + ("-" + (UrlTemplate.Placeholder(UrlTemplate.AppName) + ".json"))))))
  {
  }

  lemma DefaultUrlSpelling()
    ensures DefaultAddress + ("/" + (DefaultBranch + ("/" + ("test-app" + ("-" + (DefaultProfile + ".yaml"))))))
         == "http://localhost:8888/configuration/master/test-app-development" + ".yaml"
  {
  }

  lemma DefaultJsonSpelling()
    ensures "http://localhost:8888/configuration/master/test-app-development" + UrlExtension.JsonExtension
         == "http://localhost:8888/configuration/master/test-app-development.json"
  {
  }

  lemma CustomUrlSpelling()
    ensures DefaultAddress + ("/" + ("development" + ("/" + (DefaultProfile + ("-" + ("test-app" + ".json"))))))
         == DefaultAddress + "/development/development-test-app.json"
  {
  }

  lemma CustomJsonSpelling()
    ensures DefaultAddress + "/development/development-test-app" + UrlExtension.JsonExtension
         == DefaultAddress + "/development/development-test-app.json"
  {
  }

  lemma CustomAddressSpelling()
    ensures DefaultAddress + "/development/development-test-app.json"
         == "http://localhost:8888/configuration/development" + "/development-test-app.json"
  {
  }

  lemma CustomFileSpelling()
    ensures "http://localhost:8888/configuration/development" + "/development-test-app.json"
         == "http://localhost:8888/configuration/development/development-test-app.json"
  {
  }

  lemma HostPathSegments()
    ensures DotPath.Split("spring.cloud.consul.host", DotPath.Dot) == ["spring", "cloud", "consul", "host"]
  {
    var segs := ["spring", "cloud", "consul", "host"];
    assert DotPath.Join(segs, DotPath.Dot) == "spring.cloud.consul.host";
    DotPath.SplitJoin(segs, DotPath.Dot);
  }

  /** The test template filled in with the defaults, before the extension
      is fixed. */
  lemma DefaultUrlResolves()
    ensures UrlTemplate.Resolve(YamlTemplate, BindingsOf(TestClient().params))
         == "http://localhost:8888/configuration/master/test-app-development" + ".yaml"
  {
    YamlTemplateLayout();
    UrlTemplate.ResolveDocumentLayout(BindingsOf(TestClient().params),
      UrlTemplate.Address, UrlTemplate.Branch, UrlTemplate.AppName, UrlTemplate.Profile, ".yaml");
    DefaultUrlSpelling();
  }

  /** With only `app_name` given, a `.yaml` template resolves to the JSON
      document at the default address, branch and profile. */
  lemma DefaultUrl()
    ensures Url(TestClient()) == "http://localhost:8888/configuration/master/test-app-development.json"
  {
    DefaultUrlResolves();
    UrlExtension.NormalizeYaml("http://localhost:8888/configuration/master/test-app-development");
    DefaultJsonSpelling();
  }

  /** The swapped template filled in; it already ends in `.json`. */
  lemma CustomUrlResolves()
    ensures var p := Params("test-app", DefaultProfile, "development", DefaultAddress, SwappedTemplate);
      UrlTemplate.Resolve(SwappedTemplate, BindingsOf(p))
        == DefaultAddress + "/development/development-test-app" + UrlExtension.JsonExtension
  {
    var p := Params("test-app", DefaultProfile, "development", DefaultAddress, SwappedTemplate);
    SwappedTemplateLayout();
    UrlTemplate.ResolveDocumentLayout(BindingsOf(p), UrlTemplate.Address, UrlTemplate.Branch, UrlTemplate.Profile, UrlTemplate.AppName, ".json");
    CustomUrlSpelling();
    CustomJsonSpelling();
  }

  /** Placeholders are filled in by name: with `{profile}` before
      `{app_name}` and branch `development`, the profile comes first. The
      branch passed in is the branch stored. */
  lemma CustomUrl()
    ensures var c := NewClient(Params("test-app", DefaultProfile, "development", DefaultAddress, SwappedTemplate));
      c.params.branch == "development"
      && Url(c) == "http://localhost:8888/configuration/development/development-test-app.json"
  {
    CustomUrlResolves();
    CustomJsonSpelling();
    CustomAddressSpelling();
    CustomFileSpelling();
  }

  /** Before any fetch the stored document is an empty mapping. */
  lemma ConfigBeforeFetch()
    ensures Config(TestClient()) == map[]
  {
  }

  /** An ok response stores exactly the decoded body. */
  lemma FetchOk()
    ensures GetConfig(TestClient(), OkServer).Success?
    ensures Config(GetConfig(TestClient(), OkServer).value) == Fixture()
  {
  }

  /** A 402 response and an unreachable server are both fatal. */
  lemma FetchFails()
    ensures GetConfig(TestClient(), RejectingServer) == Failure(Fetch.ResponseError(402))
    ensures GetConfig(TestClient(), AbsentServer) == Failure(Fetch.TransportError)
  {
  }

  /** The fixture client with its document already stored. */
  function FetchedClient(): Client
  {
    Client(TestClient().params, Cached(Fixture()))
  }

  /** Walking `spring.cloud.consul.host` finds the string `discovery`. */
  lemma FixtureHostWalk()
    ensures Walk(Object(Fixture()), ["spring", "cloud", "consul", "host"]) == Some(Str("discovery"))
  {
    var consul := Fixture()["spring"].fields["cloud"].fields["consul"];
    assert consul.fields["host"] == Str("discovery");
    assert Walk(consul, ["host"]) == Some(Str("discovery"));
    var path := ["spring", "cloud", "consul", "host"];
    assert path[1..][1..][1..] == ["host"];
  }

  lemma LookupHost()
    ensures GetAttribute(FetchedClient(), "spring.cloud.consul.host") == Some(Str("discovery"))
  {
    HostPathSegments();
    FixtureHostWalk();
  }

  /** The keys are the two top-level ones, not the nested ones. */
  lemma TopLevelKeys()
    ensures GetKeys(FetchedClient()) == {"health", "spring"}
    ensures "cloud" !in GetKeys(FetchedClient())
  {
  }

  /** Two requests for the singleton give equal clients. */
  lemma SingletonTwice()
    ensures var first := Factory.CreateConfigClient(Factory.Empty, WithDefaults("", DefaultUrlTemplate));
      Factory.CreateConfigClient(first.0, WithDefaults("", DefaultUrlTemplate)).1 == first.1
  {
  }

  /** The decorated callable gets a client when the fetch succeeds, and
      never runs when the server is absent. */
  lemma DecoratorCases()
    ensures Factory.Decorated(WithDefaults("myapp", DefaultUrlTemplate), OkServer, (c: Client) => c).Success?
    ensures Factory.Decorated(WithDefaults("", DefaultUrlTemplate), AbsentServer, (c: Client) => c).Failure?
  {
  }
}
