/** The README of the generated gem: installation, configuration with the scheme's
    credentials, a usage example per resource, and a list of every endpoint. */
module ReadmeTemplate {
  import opened Pairs
  import opened Wrappers
  import opened Strings
  import opened Identifiers
  import opened PathTemplate
  import opened Schema
  import opened Lines
  import ConfigurationTemplate
  import DocumentationTemplate
  import ResourceTemplate

  // ----- configuration -----

  /** The credentials the configuration example assigns, with their example values. */
  function AuthSetup(cfg: Config): seq<(string, string)>
  {
    match AuthOf(cfg.authType)
    case OAuth => [("client_id", "your_client_id"), ("client_secret", "your_client_secret"),
                   ("access_token", "your_access_token")]
    case Basic => [("username", "your_username"), ("password", "your_password")]
    case ApiKey => [("api_key", "your_api_key"), ("api_key_header", ApiKeyHeaderOf(cfg))]
    case NoAuth => []
  }

  const NoAuthComment: string := "# No authentication" + " required"

  /** `auth_setup_instructions`. */
  function AuthInstructions(cfg: Config): (lines: seq<string>)
    ensures AuthOf(cfg.authType) == NoAuth ==> lines == [NoAuthComment]
    ensures AuthOf(cfg.authType) != NoAuth ==>
      |lines| == |AuthSetup(cfg)| && forall k :: 0 <= k < |lines| ==>
        lines[k] == "config." + AuthSetup(cfg)[k].0 + " = \"" + AuthSetup(cfg)[k].1 + "\""
  {
    var ss := AuthSetup(cfg);
    if ss == [] then [NoAuthComment]
    else seq(|ss|, k requires 0 <= k < |ss| => "config." + ss[k].0 + " = \"" + ss[k].1 + "\"")
  }

  /** The example assigns attributes the generated configuration declares, and no other;
      the api key header shown is the configured one or "X-Api-Key". */
  lemma AuthInstructionsUseDeclaredAttributes(cfg: Config)
    ensures var a := AuthOf(cfg.authType);
      forall n :: n in Firsts(AuthSetup(cfg)) ==> n in ConfigurationTemplate.AuthAttributes(a)
    ensures AuthOf(cfg.authType) == ApiKey ==>
      AuthInstructions(cfg)[1] == "config.api_key_header" + " = \"" + cfg.apiKeyHeader.GetOr("X-Api-Key") + "\""
    ensures AuthOf(cfg.authType) == NoAuth <==> AuthInstructions(cfg) == [NoAuthComment]
  {
    if AuthOf(cfg.authType) != NoAuth {
      var line := AuthInstructions(cfg)[0];
      assert line == "config." + AuthSetup(cfg)[0].0 + " = \"" + AuthSetup(cfg)[0].1 + "\"";
      assert line[0] == 'c' && NoAuthComment[0] == '#';
    }
  }

  // ----- usage examples -----

  function Repeat(x: string, n: nat): (r: seq<string>)
    ensures |r| == n
    ensures forall k :: 0 <= k < n ==> r[k] == x
  {
    seq(n, k => x)
  }

  const ExampleBody: string := "{name: 'value'," + " other_field:" + " 'value'}"

  /** `endpoint["path"].to_s.include?("{")`: the raw key, not defaulted to the name. */
  predicate RawPathHasBrace(e: Endpoint)
  {
    e.path.Some? && '{' in e.path.value
  }

  /** The arguments of a usage example: "123" per placeholder of the raw path when it has a
      brace, else one example body for a body verb, else none. */
  function UsageArgs(e: Endpoint): seq<string>
  {
    if RawPathHasBrace(e) then Repeat("123", |Placeholders(e.path.value)|)
    else if IsBodyVerb(MethodOf(e)) then [ExampleBody]
    else []
  }

  /** The example call; parentheses appear whenever the raw path has a brace or the verb
      sends a body. */
  function UsageCall(resource: string, e: Endpoint): string
  {
    var call := "response = client." + resource + "." + e.name;
    if RawPathHasBrace(e) || IsBodyVerb(MethodOf(e)) then call + "(" + Join(UsageArgs(e), ", ") + ")"
    else call
  }

  /** The example of one resource: nothing without endpoints, else a comment, the call of
      its first endpoint and a blank line. */
  function UsageBlock(resource: string, rc: ResourceConfig): (block: seq<string>)
    ensures EndpointsOf(rc) == [] <==> block == []
  {
    var endpoints := EndpointsOf(rc);
    if endpoints == [] then []
    else
      [ "# " + ClassName(resource) + " - " + endpoints[0].name + " example",
        UsageCall(resource, endpoints[0]),
        "" ]
  }

  function UsageBlocks(rs: seq<(string, ResourceConfig)>): (blocks: seq<seq<string>>)
    ensures |blocks| == |rs|
    ensures forall k :: 0 <= k < |rs| ==> blocks[k] == UsageBlock(rs[k].0, rs[k].1)
  {
    seq(|rs|, k requires 0 <= k < |rs| => UsageBlock(rs[k].0, rs[k].1))
  }

  /** `usage_examples`. */
  function UsageExamples(rs: seq<(string, ResourceConfig)>): seq<string>
  {
    Flatten(UsageBlocks(rs))
  }

  /** The resources that have at least one endpoint, in order. */
  function WithEndpoints(rs: seq<(string, ResourceConfig)>): (r: seq<(string, ResourceConfig)>)
    ensures |r| <= |rs|
    ensures forall k :: 0 <= k < |r| ==> EndpointsOf(r[k].1) != []
  {
    if |rs| == 0 then []
    else (if EndpointsOf(rs[0].1) != [] then [rs[0]] else []) + WithEndpoints(rs[1..])
  }

  /** The usage section shows, for each resource that has endpoints and in order, a call of
      its first endpoint, three lines each; resources without endpoints are skipped. */
  lemma {:induction false} UsageExamplesFirstEndpoints(rs: seq<(string, ResourceConfig)>)
    ensures var ex := UsageExamples(rs);
      var shown := WithEndpoints(rs);
      && |ex| == 3 * |shown|
      && forall k :: 0 <= k < |shown| ==>
           ex[3 * k + 1] == UsageCall(shown[k].0, EndpointsOf(shown[k].1)[0])
    decreases |rs|
  {
    if |rs| > 0 {
      UsageExamplesFirstEndpoints(rs[1..]);
      var blocks := UsageBlocks(rs);
      assert UsageBlocks(rs[1..]) == blocks[1..];
      assert UsageExamples(rs) == blocks[0] + UsageExamples(rs[1..]);
      var tail := WithEndpoints(rs[1..]);
      if EndpointsOf(rs[0].1) != [] {
        assert WithEndpoints(rs) == [rs[0]] + tail;
        var ex := UsageExamples(rs);
        forall k | 0 <= k < |WithEndpoints(rs)|
          ensures ex[3 * k + 1] == UsageCall(WithEndpoints(rs)[k].0, EndpointsOf(WithEndpoints(rs)[k].1)[0])
        {
          if k > 0 {
            assert ex[3 * k + 1] == UsageExamples(rs[1..])[3 * (k - 1) + 1];
            assert WithEndpoints(rs)[k] == tail[k - 1];
          }
        }
      } else {
        assert WithEndpoints(rs) == tail;
      }
    }
  }

  /** With a `path` key that has placeholders, the example passes "123" once per scanned
      placeholder, as many as the generated method takes positionally. Without a `path`
      key no placeholder argument is passed, even though the path then defaults to the
      name. */
  lemma UsageArgsPerPlaceholder(e: Endpoint, rc: ResourceConfig)
    ensures RawPathHasBrace(e) ==>
      UsageArgs(e) == Repeat("123", |Placeholders(PathOf(e))|)
      && |UsageArgs(e)| == |ResourceTemplate.EndpointMethodAsWritten(e, rc).params| - |ResourceTemplate.RequestArgs(e)|
    ensures e.path.None? ==> forall k :: 0 <= k < |UsageArgs(e)| ==> UsageArgs(e)[k] == ExampleBody
  {
  }

  // ----- the endpoint list -----

  function Backticked(names: seq<string>): (r: seq<string>)
    ensures |r| == |names|
    ensures forall k :: 0 <= k < |names| ==> r[k] == "`" + names[k] + "`"
  {
    seq(|names|, k requires 0 <= k < |names| => "`" + names[k] + "`")
  }

  function KeywordArgs(names: seq<string>): (r: seq<string>)
    ensures |r| == |names|
    ensures forall k :: 0 <= k < |names| ==> r[k] == names[k] + ": 123"
  {
    seq(|names|, k requires 0 <= k < |names| => names[k] + ": 123")
  }

  const ParamsExample: string := "{param1: 'value'," + " param2: 'value'}"
  const FieldsExample: string := "{field1: 'value'," + " field2: 'value'}"

  /** The call in the endpoint list's example; here the path is defaulted to the name. */
  function DocCall(resource: string, e: Endpoint): string
  {
    var path := PathOf(e);
    var call := "client." + resource + "." + e.name;
    if '{' in path then
      var args := Join(KeywordArgs(Placeholders(path)), ", ");
      if e.params then call + "(" + args + ", " + ParamsExample + ")" else call + "(" + args + ")"
    else if IsBodyVerb(MethodOf(e)) then call + "(" + FieldsExample + ")"
    else if e.params then call + "(" + ParamsExample + ")"
    else call
  }

  function PathParamsLine(path: string): string
  {
    "- Path" + " Parameters: " + Join(Backticked(Placeholders(path)), ", ")
  }

  const QueryLine: string := "- Accepts" + " additional query" + " parameters"

  /** One endpoint in the list. */
  function EndpointEntry(resource: string, e: Endpoint): seq<string>
  {
    var path := PathOf(e);
    [ "#### `" + e.name + "`",
      "- HTTP Method: `" + Upcase(MethodOf(e)) + "`",
      "- Path: `" + path + "`" ]
      + (if '{' in path then [PathParamsLine(path)] else [])
      + (if e.params then [QueryLine] else [])
      + ["", "```ruby", DocCall(resource, e), "```", ""]
  }

  /** Every endpoint states its upcased method (the documentation's method) and its path,
      then lists path parameters exactly when the path has a brace and query parameters
      exactly when it takes them, then the example. */
  lemma EndpointEntryStates(resource: string, e: Endpoint)
    ensures var entry := EndpointEntry(resource, e);
      var brace, query := '{' in PathOf(e), e.params;
      && |entry| == 3 + (if brace then 1 else 0) + (if query then 1 else 0) + 5
      && entry[1] == "- HTTP Method: `" + DocumentationTemplate.DocMethod(e) + "`"
      && entry[2] == "- Path: `" + e.path.GetOr(e.name) + "`"
      && (brace ==> entry[3] == PathParamsLine(PathOf(e)))
      && (query ==> entry[if brace then 4 else 3] == QueryLine)
  {
    UpcasedMethod(e);
  }

  lemma UpcasedMethod(e: Endpoint)
    ensures Upcase(MethodOf(e)) == DocumentationTemplate.DocMethod(e)
  {
    assert Upcase("get") == "GET";
  }

  /** A brace that starts no placeholder still gives the path-parameters line, with
      nothing listed: `a{}` has a brace but no placeholder. */
  lemma NoPlaceholderInBraces()
    ensures '{' in "a{}"
    ensures Placeholders("a{}") == []
    ensures PathParamsLine("a{}") == "- Path Parameters: "
  {
    assert "a{}"[1] == '{';
    assert PlaceholderAt("a{}") == None;
    assert "a{}"[1..] == "{}";
    assert "{}"[1..] == "}";
    assert IndexOf("}", '}') == Some(0);
    assert PlaceholderAt("{}") == None;
    assert PlaceholderAt("}") == None;
    assert "}"[1..] == "";
    assert Tokenize("a{}") == [Lit('a'), Lit('{'), Lit('}')];
    assert Names([Lit('a'), Lit('{'), Lit('}')]) == [];
    assert Backticked([]) == [];
  }

  function EndpointEntries(resource: string, endpoints: seq<Endpoint>): (blocks: seq<seq<string>>)
    ensures |blocks| == |endpoints|
    ensures forall k :: 0 <= k < |endpoints| ==> blocks[k] == EndpointEntry(resource, endpoints[k])
  {
    seq(|endpoints|, k requires 0 <= k < |endpoints| => EndpointEntry(resource, endpoints[k]))
  }

  function ResourceEntry(resource: string, rc: ResourceConfig): seq<string>
  {
    ["### " + ClassName(resource)] + Flatten(EndpointEntries(resource, EndpointsOf(rc)))
  }

  function ResourceEntries(rs: seq<(string, ResourceConfig)>): (blocks: seq<seq<string>>)
    ensures |blocks| == |rs|
    ensures forall k :: 0 <= k < |rs| ==> blocks[k] == ResourceEntry(rs[k].0, rs[k].1)
  {
    seq(|rs|, k requires 0 <= k < |rs| => ResourceEntry(rs[k].0, rs[k].1))
  }

  /** `generate_resource_docs`. */
  function ResourceDocs(cfg: Config): seq<string>
  {
    Flatten(ResourceEntries(ResourcesOf(cfg)))
  }

  // ----- the README -----

  /** The installation section and the start of the configuration example. */
  function Installation(apiName: string, m: string, baseUrl: string): (lines: seq<string>)
    ensures |lines| == 15
  {
    [ "# " + m + " API Client",
      "A Ruby API wrapper for " + apiName + ".",
      "## Installation",
      "Add this line to" + " your Gemfile:",
      "```ruby",
      "gem '" + apiName + "'",
      "```",
      "And then execute:",
      "$ bundle install",
      "Or install it" + " yourself as:",
      "$ gem install " + apiName,
      "## Configuration",
      "```ruby",
      m + ".configure do |config|",
      "config.base_url = \"" + baseUrl + "\"" ]
  }

  /** Everything after the credentials. */
  function Remainder(m: string, cfg: Config): seq<string>
  {
    UsageSection(m, ResourcesOf(cfg)) + ResourceDocs(cfg) + ErrorSection(m) + DocsSection() + CacheSection(m)
  }

  /** The end of the configuration example and the usage example. */
  function UsageSection(m: string, rs: seq<(string, ResourceConfig)>): (lines: seq<string>)
    ensures |lines| >= 9
  {
    [ "end", "```", "## Usage", "```ruby",
      "# Initialize the client", "client = " + m + ".client", "# Use the available" + " resources" ]
      + UsageExamples(rs)
      + [ "```", "## Available" + " Resources and" + " Endpoints" ]
  }

  function ErrorSection(m: string): (lines: seq<string>)
    ensures |lines| == 10
  {
    [ "## Error Handling",
      "```ruby",
      "begin",
      "response =" + " client.users.get(123)",
      "rescue " + m + "::Error => e",
      "puts \"Error:" + " #{e.message}\"",
      "puts \"Status:" + " #{e.status}\"",
      "puts \"Details:" + " #{e.body}\"",
      "end",
      "```" ]
  }

  function DocsSection(): (lines: seq<string>)
    ensures |lines| == 6
  {
    [ "## API Documentation",
      "Detailed API" + " documentation is" + " available in the" + " `docs/api.md` file," + " which includes:",
      "- All available" + " endpoints",
      "- Required parameters",
      "- Example requests" + " and responses",
      "- Authentication details" ]
  }

  function CacheSection(m: string): (lines: seq<string>)
    ensures |lines| == 13
  {
    [ "## Cache",
      m + " uses a caching solution" + " to improve efficiency" + " (e.g., for caching" + " tokens)."
        + " By default, it uses" + " a simple memory cache,",
      "but you can change" + " the cache method" + " by setting the `" + m + ".cache` attribute.",
      "```ruby",
      "# Use Redis cache",
      m + ".cache = Redis.new",
      "# Or use Rails cache",
      m + ".cache = Rails.cache",
      "# Or use file-based" + " cache",
      m + ".cache = " + m + "::FileCache.new",
      "# Or any object that" + " responds to" + " read/write/delete/clear",
      m + ".cache =" + " YourCustomCache.new",
      "```" ]
  }

  /** `render`. */
  function Render(apiName: string, m: string, cfg: Config): seq<string>
  {
    Installation(apiName, m, BaseUrlOf(cfg)) + (AuthInstructions(cfg) + Remainder(m, cfg))
  }

  /** The gem is installed under the api name as given, hyphens included, while the code
      is configured through the module name; the base url is the configured one or
      "https://api.example.com". */
  lemma RenderInstallation(apiName: string, m: string, cfg: Config)
    ensures var lines := Render(apiName, m, cfg);
      && lines[5] == "gem '" + apiName + "'"
      && lines[10] == "$ gem install " + apiName
      && lines[13] == m + ".configure do |config|"
      && lines[14] == "config.base_url = \"" + cfg.baseUrl.GetOr("https://api.example.com") + "\""
      && lines[15..15 + |AuthInstructions(cfg)|] == AuthInstructions(cfg)
  {
    var lines, a := Render(apiName, m, cfg), Installation(apiName, m, BaseUrlOf(cfg));
    var auth := AuthInstructions(cfg);
    RenderSplit(apiName, m, cfg);
    assert lines[5] == a[5] && lines[10] == a[10] && lines[13] == a[13] && lines[14] == a[14];
    assert lines[15..15 + |auth|] == lines[15..][..|auth|] == auth;
  }

  lemma RenderSplit(apiName: string, m: string, cfg: Config)
    ensures var lines := Render(apiName, m, cfg);
      && |lines| >= 15
      && lines[..15] == Installation(apiName, m, BaseUrlOf(cfg))
      && lines[15..] == AuthInstructions(cfg) + Remainder(m, cfg)
  {
  }
}
