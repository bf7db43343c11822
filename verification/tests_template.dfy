/** The test file of the generated gem: a main test class (configuration, client and error
    tests) and, per endpoint, a planned test method built from the endpoint's `tests` list
    or from a default test case. The planned methods are computed but never written out;
    only whether planning them succeeds affects the rendered file. */
module TestsTemplate {
  import opened Pairs
  import opened Wrappers
  import opened Strings
  import opened RubyValue
  import opened Schema
  import opened PathTemplate
  import opened Lines
  import ConfigurationTemplate
  import ClientTemplate
  import ResourceTemplate

  // ----- the configuration test -----

  /** The attributes the configuration test assigns, with the string it assigns. */
  function AuthSettings(cfg: Config): seq<(string, string)>
  {
    match AuthOf(cfg.authType)
    case OAuth => [("client_id", "test_client_id"), ("client_secret", "test_client_secret"),
                   ("token_url", TokenUrlOf(cfg))]
    case Basic => [("username", "test_username"), ("password", "test_password")]
    case ApiKey => [("api_key", "test_api_key"), ("api_key_header", ApiKeyHeaderOf(cfg))]
    case NoAuth => []
  }

  /** `verify_auth_config`: the attributes the test reads back, with the value it expects. */
  function AuthChecks(cfg: Config): seq<(string, string)>
  {
    match AuthOf(cfg.authType)
    case OAuth => [("client_id", "test_client_id"), ("client_secret", "test_client_secret")]
    case Basic => [("username", "test_username"), ("password", "test_password")]
    case ApiKey => [("api_key", "test_api_key")]
    case NoAuth => []
  }

  function SettingLine(s: (string, string)): string
  {
    "config." + s.0 + " = \"" + s.1 + "\""
  }

  function CheckLine(m: string, c: (string, string)): string
  {
    "assert_equal \"" + c.1 + "\", " + m + ".configuration." + c.0
  }

  function SettingLines(ss: seq<(string, string)>): (lines: seq<string>)
    ensures |lines| == |ss|
    ensures forall k :: 0 <= k < |ss| ==> lines[k] == SettingLine(ss[k])
  {
    seq(|ss|, k requires 0 <= k < |ss| => SettingLine(ss[k]))
  }

  function CheckLines(m: string, cs: seq<(string, string)>): (lines: seq<string>)
    ensures |lines| == |cs|
    ensures forall k :: 0 <= k < |cs| ==> lines[k] == CheckLine(m, cs[k])
  {
    seq(|cs|, k requires 0 <= k < |cs| => CheckLine(m, cs[k]))
  }

  /** `config_tests`. */
  function ConfigTests(m: string, cfg: Config): seq<string>
  {
    [ "def test_configuration",
      m + ".configure do |config|",
      "config.base_url =" + " \"https://api.test.org\"",
      "config.timeout = 60" ]
      + SettingLines(AuthSettings(cfg))
      + [ "end",
          "assert_equal" + " \"https://api.test.org\"," + " " + m + ".configuration.base_url",
          "assert_equal 60, " + m + ".configuration.timeout" ]
      + CheckLines(m, AuthChecks(cfg))
      + ["end"]
  }

  /** The configuration test assigns attributes the generated configuration declares, in
      declaration order (all of them but the OAuth access token), and every value it reads
      back is one it assigned. */
  lemma ConfigTestsCheckWhatTheySet(cfg: Config)
    ensures var declared := ConfigurationTemplate.AuthAttributes(AuthOf(cfg.authType));
      Firsts(AuthSettings(cfg)) <= declared
      && (AuthOf(cfg.authType) != OAuth ==> Firsts(AuthSettings(cfg)) == declared)
    ensures forall c :: c in AuthChecks(cfg) ==> c in AuthSettings(cfg)
    ensures AuthOf(cfg.authType) == NoAuth <==> AuthChecks(cfg) == []
  {
  }

  /** The values the test assigns to the token url and the api key header are the ones the
      generated configuration starts with, so the test leaves them as they are. */
  lemma SettingsMatchInitialValues(cfg: Config)
    ensures var a := AuthOf(cfg.authType);
      var init := ConfigurationTemplate.AuthInitialization(a, cfg);
      forall j, k :: 0 <= j < |AuthSettings(cfg)| && 0 <= k < |init|
        && AuthSettings(cfg)[j].0 == init[k].0 && init[k].1.StringInit?
        ==> AuthSettings(cfg)[j].1 == init[k].1.s
    ensures AuthOf(cfg.authType) == ApiKey ==>
      AuthSettings(cfg)[1] == ("api_key_header", cfg.apiKeyHeader.GetOr("X-Api-Key"))
  {
  }

  // ----- the client test -----

  const RespondPrefix: string := "assert_respond_to" + " client, :"

  function RespondLine(name: string): string
  {
    RespondPrefix + name
  }

  function RespondLines(names: seq<string>): (lines: seq<string>)
    ensures |lines| == |names|
    ensures forall k :: 0 <= k < |names| ==> lines[k] == RespondLine(names[k])
  {
    seq(|names|, k requires 0 <= k < |names| => RespondLine(names[k]))
  }

  /** `client_tests`. */
  function ClientTests(m: string, names: seq<string>): seq<string>
  {
    [ "def" + " test_client_initialization",
      "client = " + m + "::Client.new",
      "assert_instance_of " + m + "::Client, client" ]
      + RespondLines(names)
      + ["end"]
  }

  /** The client test expects, in order, exactly the accessors the generated client
      defines. */
  lemma ClientTestsMatchAccessors(m: string, cfg: Config)
    ensures var names := Firsts(ResourcesOf(cfg));
      var defs := LinesStartingWith(ClientTemplate.ResourceMethods(cfg), "def ");
      var expected := ClientTests(m, names)[3..3 + |names|];
      && |expected| == |defs|
      && forall k :: 0 <= k < |defs| ==> "def " + expected[k][|RespondPrefix|..] == defs[k]
  {
    var names := Firsts(ResourcesOf(cfg));
    ClientTemplate.AccessorsInOrder(cfg);
    var expected := ClientTests(m, names)[3..3 + |names|];
    assert expected == RespondLines(names);
    forall k | 0 <= k < |names|
      ensures expected[k][|RespondPrefix|..] == names[k]
    {
      assert expected[k] == RespondPrefix + names[k];
    }
  }

  /** `error_tests`: fixed text apart from the module name. */
  function ErrorTests(m: string): seq<string>
  {
    [ "def test_error_handling",
      "error = " + m + "::Error.new(\"Test" + " error\", {error:" + " \"details\"}, 400)",
      "assert_equal \"Test" + " error\"," + " error.message",
      "assert_equal({error:" + " \"details\"}," + " error.body)",
      "assert_equal 400," + " error.status",
      "end",
      "def" + " test_http_error_response",
      "@stubs.get(\"error_test\")" + " do",
      "[404," + " {'Content-Type' =>" + " 'application/json'}," + " {error: \"Resource" + " not" + " found\"}.to_json]",
      "end",
      "error = assert_raises(" + m + "::Error) do",
      m + "::Request.new(\"error_test\").get",
      "end",
      "assert_equal 404," + " error.status",
      "assert_includes" + " error.message," + " \"Resource not" + " found\"",
      "end" ]
  }

  // ----- the default test case -----

  function DefaultPathParams(names: seq<string>): (r: seq<(string, Value)>)
    ensures |r| == |names|
    ensures forall k :: 0 <= k < |names| ==> r[k] == (names[k], Str("123"))
  {
    seq(|names|, k requires 0 <= k < |names| => (names[k], Str("123")))
  }

  const PageParams: Value := Hash([(Str("page"), Int(1))])
  const NameBody: Value := Hash([(Str("name"), Str("Test"))])
  const ItemBody: Value := Hash([(Str("id"), Int(1)), (Str("name"), Str("Test"))])
  const CollectionBody: Value := Hash([(Str("data"), Arr([ItemBody])), (Str("next_href"), Str("/next"))])

  /** `create_default_test_case`. The path parameters are the scanned placeholders as hash
      keys, so a repeated one is kept once. The body test reads the raw `method` key,
      where an absent one reads as the empty string. */
  function CreateDefaultTestCase(e: Endpoint): TestCase
  {
    var names := Distinct(Placeholders(PathOf(e)));
    TestCase(
      Some("funciona correctamente"),
      Some(TestRequest(
        Some(DefaultPathParams(names)),
        Some(if e.params then PageParams else Hash([])),
        Some(if IsBodyVerb(e.verb.GetOr("")) then NameBody else Hash([])))),
      Some(TestResponse(Some(200), Some(if IsCollection(e) then CollectionBody else ItemBody))))
  }

  /** The default case names every placeholder of the path once, each with "123"; it sends
      query parameters exactly when the endpoint takes them and a body exactly when its
      (defaulted) method is a body verb; its response is collection-shaped exactly when
      the endpoint is a collection. */
  lemma DefaultTestCaseShape(e: Endpoint)
    ensures var tc := CreateDefaultTestCase(e);
      var pp := tc.request.value.pathParams.value;
      && SetOf(Firsts(pp)) == SetOf(Placeholders(PathOf(e)))
      && NoDuplicates(Firsts(pp))
      && (forall k :: 0 <= k < |pp| ==> pp[k].1 == Str("123"))
      && Any(tc.request.value.params.value) == Some(e.params)
      && Any(tc.request.value.body.value) == Some(IsBodyVerb(MethodOf(e)))
      && (Lookup(tc.response.value.body.value.entries, Str("data")) != Nil <==> IsCollection(e))
      && tc.response.value.status == Some(200)
  {
    var tc := CreateDefaultTestCase(e);
    var pp := tc.request.value.pathParams.value;
    assert Firsts(pp) == Distinct(Placeholders(PathOf(e)));
    assert IsBodyVerb(e.verb.GetOr("")) == IsBodyVerb(MethodOf(e));
  }

  // ----- a planned test method -----

  /** A planned test method: its name, the stubbed response, the stubbed request, whether
      the call is expected to raise, and the call with its arguments as Ruby source. */
  datatype TestMethod = TestMethod(
    name: string,
    status: int,
    responseBody: Value,
    verb: string,
    stubUrl: string,
    expectsError: bool,
    call: string,
    args: seq<string>)

  function NameChar(c: char): (r: char)
    ensures IsLower(r) || IsDigit(r) || r == '_'
    ensures IsLower(c) || IsDigit(c) ==> r == c
    ensures IsUpper(c) ==> r == DownChar(c)
  {
    var d := DownChar(c);
    if IsLower(d) || IsDigit(d) then d else '_'
  }

  /** `description.downcase.gsub(/[^a-z0-9]/, "_")`. */
  function MethodNameSuffix(description: string): (r: string)
    ensures |r| == |description|
    ensures forall i :: 0 <= i < |r| ==> IsLower(r[i]) || IsDigit(r[i]) || r[i] == '_'
    ensures forall i :: 0 <= i < |r| ==> r[i] == NameChar(description[i])
  {
    seq(|description|, i requires 0 <= i < |description| => NameChar(description[i]))
  }

  /** Normalising twice changes nothing more, and a description already in normal form is
      kept as it is. */
  lemma MethodNameSuffixIdempotent(description: string)
    ensures MethodNameSuffix(MethodNameSuffix(description)) == MethodNameSuffix(description)
    ensures (forall i :: 0 <= i < |description| ==> IsLower(description[i]) || IsDigit(description[i]) || description[i] == '_')
            ==> MethodNameSuffix(description) == description
  {
  }

  /** The request path with each `{key}` replaced by the value's `to_s`, one key after the
      other in the order of the hash. */
  function Substitute(path: string, pp: seq<(string, Value)>): string
    decreases |pp|
  {
    if |pp| == 0 then path
    else Substitute(ReplaceAll(path, Brace(pp[0].0), ToS(pp[0].1)), pp[1..])
  }

  predicate StartsWith(s: string, prefix: string) { prefix <= s }

  /** The first `j >= i` at which `s` has a `/`, or the end of `s`. */
  function SlashFrom(s: string, i: nat): (j: nat)
    requires i <= |s|
    ensures i <= j <= |s|
    ensures j < |s| ==> s[j] == '/'
    ensures forall k :: i <= k < j ==> s[k] != '/'
    decreases |s| - i
  {
    if i == |s| || s[i] == '/' then i else SlashFrom(s, i + 1)
  }

  /** The end of a match of `https?://[^/]+` that starts at `p`. The optional `s` is tried
      first; giving it back cannot help, as `http` would then need a `:` where the `s` is. */
  function HostMatchEnd(s: string, p: nat): (r: Option<nat>)
    requires p <= |s|
    ensures r.Some? ==> p < r.value <= |s|
  {
    var schemeEnd: nat :=
      if StartsWith(s[p..], "https://") then p + 8
      else if StartsWith(s[p..], "http://") then p + 7
      else 0;
    if schemeEnd == 0 then None
    else
      var j := SlashFrom(s, schemeEnd);
      if j == schemeEnd then None else Some(j)
  }

  /** Ruby's `^` matches at the start and after every newline. */
  predicate LineStart(s: string, p: nat)
    requires p <= |s|
  {
    p == 0 || s[p - 1] == '\n'
  }

  /** `s.sub(%r{^https?://[^/]+}, "")`, searching line starts from `p` on. */
  function SubHostFrom(s: string, p: nat): string
    requires p <= |s|
    decreases |s| - p
  {
    if LineStart(s, p) && HostMatchEnd(s, p).Some? then s[..p] + s[HostMatchEnd(s, p).value..]
    else if p == |s| then s
    else SubHostFrom(s, p + 1)
  }

  /** The stub url: the substituted path, and for an absolute http(s) url the path without
      scheme, host and one leading slash. */
  function StubUrl(path: string, pp: seq<(string, Value)>): string
  {
    var url := Substitute(path, pp);
    if StartsWith(url, "http://") || StartsWith(url, "https://") then
      var stripped := SubHostFrom(url, 0);
      if StartsWith(stripped, "/") then stripped[1..] else stripped
    else url
  }

  /** A url that is not absolute is used as substituted, a leading slash included. */
  lemma RelativeStubUrl(path: string, pp: seq<(string, Value)>)
    requires !StartsWith(Substitute(path, pp), "http://") && !StartsWith(Substitute(path, pp), "https://")
    ensures StubUrl(path, pp) == Substitute(path, pp)
  {
  }

  /** An absolute url loses its scheme, its host and the one slash that follows the host. */
  lemma AbsoluteStubUrl(scheme: string, host: string, rest: string)
    requires scheme == "http://" || scheme == "https://"
    requires |host| > 0 && '/' !in host
    ensures StubUrl(scheme + host + "/" + rest, []) == rest
    ensures StubUrl(scheme + host, []) == ""
  {
    var url := scheme + host + "/" + rest;
    HostStripped(scheme, host, "/" + rest);
    assert url == scheme + host + ("/" + rest);
    assert ("/" + rest)[1..] == rest;
    HostStripped(scheme, host, "");
    assert scheme + host + "" == scheme + host;
    assert scheme <= url && scheme <= scheme + host;
  }

  /** The host match of an absolute url ends at the first `/` after the scheme, and
      removing it leaves what follows. */
  lemma HostStripped(scheme: string, host: string, tail: string)
    requires scheme == "http://" || scheme == "https://"
    requires |host| > 0 && '/' !in host
    requires tail == "" || tail[0] == '/'
    ensures SubHostFrom(scheme + host + tail, 0) == tail
  {
    var s := scheme + host + tail;
    HostMatchAt(scheme, host, tail);
    assert s[|scheme| + |host|..] == tail;
  }

  lemma HostMatchAt(scheme: string, host: string, tail: string)
    requires scheme == "http://" || scheme == "https://"
    requires |host| > 0 && '/' !in host
    requires tail == "" || tail[0] == '/'
    ensures HostMatchEnd(scheme + host + tail, 0) == Some(|scheme| + |host|)
  {
    var s := scheme + host + tail;
    SchemeLength(scheme, host + tail);
    assert s == scheme + (host + tail);
    assert forall k :: |scheme| <= k < |scheme| + |host| ==> s[k] == host[k - |scheme|];
    SlashAfterHost(s, |scheme|, host);
  }

  /** The scheme a url starts with decides where the host begins. */
  lemma SchemeLength(scheme: string, rest: string)
    requires scheme == "http://" || scheme == "https://"
    ensures var s := scheme + rest;
      && (StartsWith(s, "https://") <==> scheme == "https://")
      && (scheme == "http://" ==> StartsWith(s, "http://"))
  {
    var s := scheme + rest;
    assert s[..|scheme|] == scheme;
    assert s[4] == scheme[4];
  }

  lemma SlashAfterHost(s: string, from: nat, host: string)
    requires from + |host| <= |s| && '/' !in host
    requires forall k :: from <= k < from + |host| ==> s[k] == host[k - from]
    requires from + |host| == |s| || s[from + |host|] == '/'
    ensures SlashFrom(s, from) == from + |host|
    decreases |host|
  {
    if |host| > 0 {
      assert s[from] == host[0] && host[0] in host;
      var tail := host[1..];
      assert forall c :: c in tail ==> c in host;
      SlashAfterHost(s, from + 1, tail);
    }
  }

  function Inspects(pp: seq<(string, Value)>): (r: seq<string>)
    ensures |r| == |pp|
    ensures forall k :: 0 <= k < |pp| ==> r[k] == Inspect(pp[k].1)
  {
    seq(|pp|, k requires 0 <= k < |pp| => Inspect(pp[k].1))
  }

  /** `request[key] || {}`. */
  function OrEmpty(v: Option<Value>): (r: Value)
    ensures v.Some? && Truthy(v.value) ==> r == v.value
    ensures v.None? || !Truthy(v.value) ==> r == Hash([])
  {
    match v
    case Some(x) => Or(x, Hash([]))
    case None => Hash([])
  }

  /** The test method for one test case, with the error expectation the template means to
      emit for a status of 400 or more. `None` when the query parameters or the body have
      no `any?` (they are neither a hash nor an array), which raises. */
  function GenerateTestMethod(resource: string, endpoint: string, verb: string, path: string,
                              tc: TestCase, index: nat): (r: Option<TestMethod>)
    ensures var request := tc.request.GetOr(TestRequest(None, None, None));
      r.Some? <==> Any(OrEmpty(request.params)).Some? && Any(OrEmpty(request.body)).Some?
    ensures r.Some? ==> r.value.verb == verb && r.value.call == "client." + resource + "." + endpoint
    ensures r.Some? ==> r.value.expectsError == (r.value.status >= 400)
  {
    var description := tc.description.GetOr("case " + NatToString(index + 1));
    var request := tc.request.GetOr(TestRequest(None, None, None));
    var response := tc.response.GetOr(TestResponse(None, None));
    var pp := request.pathParams.GetOr([]);
    var query := OrEmpty(request.params);
    var body := OrEmpty(request.body);
    var status := response.status.GetOr(200);
    match (Any(query), Any(body))
    case (Some(q), Some(b)) =>
      Some(TestMethod(
        "test_" + resource + "_" + endpoint + "_" + MethodNameSuffix(description),
        status,
        response.body.GetOr(Nil),
        verb,
        StubUrl(path, pp),
        status >= 400,
        "client." + resource + "." + endpoint,
        Inspects(pp) + (if q then [Inspect(query)] else []) + (if b then [Inspect(body)] else [])))
    case _ => None
  }

  /** The template as written: its error branch names a `module_name` that is not in scope,
      so any test case with a status of 400 or more raises `NameError`. */
  function GenerateTestMethodAsWritten(resource: string, endpoint: string, verb: string, path: string,
                                       tc: TestCase, index: nat): (r: Option<TestMethod>)
    ensures r.Some? ==> r.value.status < 400
  {
    var t := GenerateTestMethod(resource, endpoint, verb, path, tc, index);
    if t.Some? && t.value.status >= 400 then None else t
  }

  /** The call passes the path-parameter values in order, then the query parameters if
      there are any, then the body if there is one; the method is named after the
      resource, the endpoint and the normalised description (or "case <n>", counting from
      one). */
  lemma CallArguments(resource: string, endpoint: string, verb: string, path: string, tc: TestCase, index: nat)
    requires GenerateTestMethod(resource, endpoint, verb, path, tc, index).Some?
    ensures var t := GenerateTestMethod(resource, endpoint, verb, path, tc, index).value;
      var request := tc.request.GetOr(TestRequest(None, None, None));
      var pp := request.pathParams.GetOr([]);
      var query, body := OrEmpty(request.params), OrEmpty(request.body);
      && t.args == Inspects(pp) + (if Any(query).value then [Inspect(query)] else [])
                                + (if Any(body).value then [Inspect(body)] else [])
      && t.name == "test_" + resource + "_" + endpoint + "_"
                   + MethodNameSuffix(tc.description.GetOr("case " + NatToString(index + 1)))
      && t.stubUrl == StubUrl(path, pp)
      && t.status == tc.response.GetOr(TestResponse(None, None)).status.GetOr(200)
  {
  }

  /** The default case of an endpoint plans a call with as many arguments as the corrected
      method has parameters, the "123" values first. The method as the template writes it
      has one more parameter for every repeated placeholder occurrence, which the default
      case, keyed by name, passes only once. */
  lemma DefaultCaseMatchesSignature(resource: string, e: Endpoint, rc: ResourceConfig)
    ensures var t := GenerateTestMethod(resource, e.name, MethodOf(e), PathOf(e), CreateDefaultTestCase(e), 0);
      var names := Distinct(Placeholders(PathOf(e)));
      && t.Some? && !t.value.expectsError
      && |t.value.args| == |ResourceTemplate.EndpointMethod(e, rc).params|
      && |t.value.args| + |Placeholders(PathOf(e))|
           == |ResourceTemplate.EndpointMethodAsWritten(e, rc).params| + |names|
      && (forall k :: 0 <= k < |names| ==> t.value.args[k] == "\"123\"")
  {
    DefaultCaseArgs(resource, e, rc);
    ResourceTemplate.AsWrittenParamCount(e, rc);
  }

  lemma DefaultCaseArgs(resource: string, e: Endpoint, rc: ResourceConfig)
    ensures var t := GenerateTestMethod(resource, e.name, MethodOf(e), PathOf(e), CreateDefaultTestCase(e), 0);
      var names := Distinct(Placeholders(PathOf(e)));
      && t.Some? && !t.value.expectsError
      && |t.value.args| == |ResourceTemplate.EndpointMethod(e, rc).params|
      && (forall k :: 0 <= k < |names| ==> t.value.args[k] == "\"123\"")
  {
    var names := Distinct(Placeholders(PathOf(e)));
    var pp := DefaultPathParams(names);
    var rest := (if e.params then [Inspect(PageParams)] else [])
                + (if IsBodyVerb(MethodOf(e)) then [Inspect(NameBody)] else []);
    DefaultCaseCall(resource, e);
    LeadingValues(pp, rest);
    ResourceTemplate.CorrectedParamCount(e, rc);
  }

  /** Inspected "123" values lead the argument list. */
  lemma LeadingValues(pp: seq<(string, Value)>, rest: seq<string>)
    requires forall k :: 0 <= k < |pp| ==> pp[k].1 == Str("123")
    ensures |Inspects(pp) + rest| == |pp| + |rest|
    ensures forall k :: 0 <= k < |pp| ==> (Inspects(pp) + rest)[k] == "\"123\""
  {
    InspectOf123();
  }

  lemma InspectOf123()
    ensures Inspect(Str("123")) == "\"123\""
  {
  }

  /** The default case's call: "123" per placeholder name, then the page parameters and the
      name body as the endpoint takes them. */
  lemma DefaultCaseCall(resource: string, e: Endpoint)
    ensures var t := GenerateTestMethod(resource, e.name, MethodOf(e), PathOf(e), CreateDefaultTestCase(e), 0);
      && t.Some? && !t.value.expectsError
      && t.value.args == Inspects(DefaultPathParams(Distinct(Placeholders(PathOf(e)))))
                           + (if e.params then [Inspect(PageParams)] else [])
                           + (if IsBodyVerb(MethodOf(e)) then [Inspect(NameBody)] else [])
  {
    DefaultTestCaseShape(e);
    var tc := CreateDefaultTestCase(e);
    assert OrEmpty(tc.request.value.params) == tc.request.value.params.value;
    assert OrEmpty(tc.request.value.body) == tc.request.value.body.value;
  }

  /** A case with a status of 400 or more is planned with an error expectation, while the
      template as written raises on it; below 400 the two agree. */
  lemma ErrorCaseAsWritten(resource: string, endpoint: string, verb: string, path: string, tc: TestCase, index: nat)
    ensures var t := GenerateTestMethod(resource, endpoint, verb, path, tc, index);
      var w := GenerateTestMethodAsWritten(resource, endpoint, verb, path, tc, index);
      && (t.Some? && t.value.status >= 400 ==> w.None? && t.value.expectsError)
      && (t.Some? && t.value.status < 400 ==> w == t)
    ensures var t := GenerateTestMethod(resource, endpoint, verb, path, NotFoundCase, 0);
      t.Some? && t.value.expectsError
      && GenerateTestMethodAsWritten(resource, endpoint, verb, path, NotFoundCase, 0).None?
  {
  }

  /** A test case that only says the response is a 404. */
  const NotFoundCase: TestCase := TestCase(None, None, Some(TestResponse(Some(404), None)))

  // ----- the per-endpoint and per-resource plans -----

  /** The test methods of a list of cases, numbered from `from`; `None` if one raises. */
  function CaseTests(resource: string, e: Endpoint, cases: seq<TestCase>, from: nat): (r: Option<seq<TestMethod>>)
    ensures r.Some? <==> forall k :: 0 <= k < |cases| ==>
      GenerateTestMethod(resource, e.name, MethodOf(e), PathOf(e), cases[k], from + k).Some?
    ensures r.Some? ==> |r.value| == |cases| && forall k :: 0 <= k < |cases| ==>
      r.value[k] == GenerateTestMethod(resource, e.name, MethodOf(e), PathOf(e), cases[k], from + k).value
    decreases |cases|
  {
    if |cases| == 0 then Some([])
    else match GenerateTestMethod(resource, e.name, MethodOf(e), PathOf(e), cases[0], from)
      case None => None
      case Some(t) =>
        match CaseTests(resource, e, cases[1..], from + 1)
        case None => None
        case Some(ts) => Some([t] + ts)
  }

  /** `endpoint_test`: the endpoint's own cases, or the default case. */
  function EndpointTests(resource: string, e: Endpoint): Option<seq<TestMethod>>
  {
    CaseTests(resource, e, e.tests.GetOr([CreateDefaultTestCase(e)]), 0)
  }

  /** An endpoint without a `tests` key gets exactly one planned test, the default one, with
      one argument per parameter of the corrected method; against the template's method it
      is short by the number of repeated placeholder occurrences. */
  lemma EndpointWithoutTests(resource: string, e: Endpoint, rc: ResourceConfig)
    requires e.tests.None?
    ensures var r := EndpointTests(resource, e);
      r.Some? && |r.value| == 1
      && |r.value[0].args| == |ResourceTemplate.EndpointMethod(e, rc).params|
      && |r.value[0].args| + |Placeholders(PathOf(e))|
           == |ResourceTemplate.EndpointMethodAsWritten(e, rc).params| + |Distinct(Placeholders(PathOf(e)))|
  {
    DefaultCaseMatchesSignature(resource, e, rc);
  }

  /** For a path naming `n` twice the default test passes one argument, while the method
      the template writes declares two parameters. */
  lemma RepeatedPlaceholderDefaultCase(resource: string, n: string, rc: ResourceConfig)
    requires IsIdentifier(n)
    ensures var e := Endpoint("show", None, Some(Brace(n) + Brace(n)), false, None, None, None);
      var t := GenerateTestMethod(resource, e.name, MethodOf(e), PathOf(e), CreateDefaultTestCase(e), 0);
      && t.Some? && t.value.args == ["\"123\""]
      && |ResourceTemplate.EndpointMethodAsWritten(e, rc).params| == 2
  {
    var e := Endpoint("show", None, Some(Brace(n) + Brace(n)), false, None, None, None);
    ResourceTemplate.RepeatedPlaceholderMethod(n, rc);
    DefaultCaseMatchesSignature(resource, e, rc);
  }

  /** `resource_test`: every endpoint planned, `None` if one raises. */
  predicate ResourceTestsPlan(resource: string, endpoints: seq<Endpoint>)
  {
    forall k :: 0 <= k < |endpoints| ==> EndpointTests(resource, endpoints[k]).Some?
  }

  predicate AllResourceTestsPlan(rs: seq<(string, ResourceConfig)>)
  {
    forall k :: 0 <= k < |rs| ==> ResourceTestsPlan(rs[k].0, EndpointsOf(rs[k].1))
  }

  // ----- the rendered file -----

  /** The main test class. */
  function TestClass(m: string, cfg: Config): seq<string>
  {
    [ "#" + " frozen_string_literal:" + " true",
      "",
      "require \"test_helper\"",
      "",
      "class " + m + "Test < Minitest::Test",
      "def setup",
      "# Reset configuration" + " before each test",
      m + ".configuration = " + m + "::Configuration.new",
      "# Configure base" + " settings",
      m + ".configure do |config|",
      "config.base_url = \"" + BaseUrlOf(cfg) + "\"",
      "end",
      "end",
      "def teardown",
      "# No need to restore" + " anything",
      "end" ]
      + ConfigTests(m, cfg) + [""]
      + ClientTests(m, Firsts(ResourcesOf(cfg))) + [""]
      + ErrorTests(m)
      + ["end"]
  }

  /** `render`: the per-resource plans are computed and dropped, so they decide only
      whether rendering raises. */
  function Render(m: string, cfg: Config): (r: Option<seq<string>>)
    ensures r.Some? <==> AllResourceTestsPlan(ResourcesOf(cfg))
  {
    if AllResourceTestsPlan(ResourcesOf(cfg)) then Some(TestClass(m, cfg)) else None
  }

  /** The rendered file depends on the resources only through their names: replacing every
      resource configuration, endpoints and test cases included, changes nothing. */
  lemma RenderIgnoresResourceConfigs(m: string, cfg: Config, rs: seq<(string, ResourceConfig)>)
    requires Firsts(rs) == Firsts(ResourcesOf(cfg))
    ensures TestClass(m, cfg.(resources := Some(rs))) == TestClass(m, cfg)
  {
  }

  /** A configuration whose endpoints carry no `tests` always renders. */
  lemma RenderWithoutTestCases(m: string, cfg: Config)
    requires forall k :: 0 <= k < |ResourcesOf(cfg)| ==>
      forall j :: 0 <= j < |EndpointsOf(ResourcesOf(cfg)[k].1)| ==> EndpointsOf(ResourcesOf(cfg)[k].1)[j].tests.None?
    ensures Render(m, cfg).Some?
  {
    var rs := ResourcesOf(cfg);
    forall k, j | 0 <= k < |rs| && 0 <= j < |EndpointsOf(rs[k].1)|
      ensures EndpointTests(rs[k].0, EndpointsOf(rs[k].1)[j]).Some?
    {
      EndpointWithoutTests(rs[k].0, EndpointsOf(rs[k].1)[j], rs[k].1);
    }
  }

  // ----- item assertions -----

  function ItemAssertion(entry: (Value, Value)): string
  {
    if entry.1.Hash? || entry.1.Arr? then "assert_not_nil result." + ToS(entry.0)
    else "assert_equal " + Inspect(entry.1) + ", result." + ToS(entry.0)
  }

  const NoItemData: string := "# No item data to assert"

  /** `generate_item_assertions`. */
  function GenerateItemAssertions(item: Value): (lines: seq<string>)
    ensures !item.Hash? || item.entries == [] ==> lines == [NoItemData]
    ensures item.Hash? && item.entries != [] ==>
      |lines| == |item.entries|
      && forall k :: 0 <= k < |lines| ==> lines[k] == ItemAssertion(item.entries[k])
  {
    if !item.Hash? || item.entries == [] then [NoItemData]
    else seq(|item.entries|, k requires 0 <= k < |item.entries| => ItemAssertion(item.entries[k]))
  }

  /** One assertion per key, in order, reading `result.<key>`: presence only for a nested
      hash or array, equality with the inspected value otherwise; the placeholder comment
      appears exactly when there is nothing to assert. */
  lemma ItemAssertionsPerKey(item: Value)
    ensures (GenerateItemAssertions(item) == [NoItemData]) <==> (!item.Hash? || item.entries == [])
    ensures item.Hash? ==> forall k :: 0 <= k < |item.entries| ==>
      var line := GenerateItemAssertions(item)[k];
      var v := item.entries[k].1;
      && ("assert_not_nil " <= line <==> v.Hash? || v.Arr?)
      && (!(v.Hash? || v.Arr?) ==> line == "assert_equal " + Inspect(v) + ", result." + ToS(item.entries[k].0))
  {
    if item.Hash? && item.entries != [] {
      var line := GenerateItemAssertions(item)[0];
      assert line[0] == 'a';
      assert NoItemData[0] == '#';
      forall k | 0 <= k < |item.entries|
        ensures var line := GenerateItemAssertions(item)[k];
          var v := item.entries[k].1;
          "assert_not_nil " <= line <==> v.Hash? || v.Arr?
      {
        var v := item.entries[k].1;
        var line := GenerateItemAssertions(item)[k];
        if !(v.Hash? || v.Arr?) {
          assert line == "assert_equal " + (Inspect(v) + ", result." + ToS(item.entries[k].0));
          assert line[7] == 'e';
          assert "assert_not_nil "[7] == 'n';
        }
      }
    }
  }
}
