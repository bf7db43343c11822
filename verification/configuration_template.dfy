/** The configuration file `lib/<api>/configuration.rb`: the settings object of the
    generated gem, with extra attributes for the chosen authentication scheme. */
module ConfigurationTemplate {
  import opened Pairs
  import opened Strings
  import opened Schema

  /** The initial value of an attribute. */
  datatype Init = NilInit | StringInit(s: string)

  /** The attributes every configuration has. */
  const BaseAttributes: seq<string> := ["base_url", "timeout", "headers"]

  /** The attributes the authentication scheme adds. */
  function AuthAttributes(a: Auth): (names: seq<string>)
    ensures a == NoAuth <==> names == []
    ensures forall k :: 0 <= k < |names| ==> names[k] !in BaseAttributes
  {
    match a
    case OAuth => ["client_id", "client_secret", "token_url", "access_token"]
    case Basic => ["username", "password"]
    case ApiKey => ["api_key", "api_key_header"]
    case NoAuth => []
  }

  function Symbols(names: seq<string>): (r: seq<string>)
    ensures |r| == |names|
    ensures forall k :: 0 <= k < |names| ==> r[k] == ":" + names[k]
  {
    seq(|names|, k requires 0 <= k < |names| => ":" + names[k])
  }

  /** `auth_config_attributes`: one `attr_accessor` line, or nothing. */
  function AttributeLine(a: Auth): (line: string)
    ensures line == "" <==> a == NoAuth
  {
    var names := AuthAttributes(a);
    if names == [] then "" else "attr_accessor " + Join(Symbols(names), ", ")
  }

  /** `auth_config_initialization`: the assignments the constructor adds, in order. The
      token url and the api key header take the configured value or their default; every
      credential starts as `nil`. */
  function AuthInitialization(a: Auth, cfg: Config): seq<(string, Init)>
  {
    match a
    case OAuth => [("client_id", NilInit), ("client_secret", NilInit),
                   ("token_url", StringInit(TokenUrlOf(cfg))), ("access_token", NilInit)]
    case Basic => [("username", NilInit), ("password", NilInit)]
    case ApiKey => [("api_key", NilInit), ("api_key_header", StringInit(ApiKeyHeaderOf(cfg)))]
    case NoAuth => []
  }

  function InitLine(assignment: (string, Init)): string
  {
    "@" + assignment.0 + " = " +
      match assignment.1
      case NilInit => "nil"
      case StringInit(s) => "\"" + s + "\""
  }

  function InitLines(assignments: seq<(string, Init)>): (lines: seq<string>)
    ensures |lines| == |assignments|
    ensures forall k :: 0 <= k < |assignments| ==> lines[k] == InitLine(assignments[k])
  {
    seq(|assignments|, k requires 0 <= k < |assignments| => InitLine(assignments[k]))
  }

  /** The settings every generated configuration starts with, whatever the scheme. */
  const TimeoutAndHeaders: seq<string> := [
    "@timeout = 30",
    "@headers = {",
    "\"Content-Type\" =>" + " \"application/json\",",
    "\"Accept\" =>" + " \"application/json\"",
    "}" ]

  function Render(m: string, cfg: Config): (lines: seq<string>)
    ensures |lines| == 9 + |TimeoutAndHeaders| + |AuthInitialization(AuthOf(cfg.authType), cfg)| + 3
  {
    var a := AuthOf(cfg.authType);
    [ "#" + " frozen_string_literal:" + " true",
      "",
      "module " + m,
      "class Configuration",
      "attr_accessor" + " :base_url," + " :timeout, :headers",
      AttributeLine(a),
      "",
      "def initialize",
      "@base_url = \"" + BaseUrlOf(cfg) + "\"" ]
      + TimeoutAndHeaders
      + InitLines(AuthInitialization(a, cfg))
      + ["end", "end", "end"]
  }

  /** The constructor initialises exactly the attributes the scheme declares, in the order
      they are declared. */
  lemma InitializesDeclaredAttributes(a: Auth, cfg: Config)
    ensures Firsts(AuthInitialization(a, cfg)) == AuthAttributes(a)
  {
  }

  /** Credentials start as `nil`; the two settings with defaults start as the configured
      value or the default. */
  lemma InitialValues(cfg: Config)
    ensures var a := AuthOf(cfg.authType);
      forall k :: 0 <= k < |AuthInitialization(a, cfg)| ==>
        var (n, v) := AuthInitialization(a, cfg)[k];
        (n == "token_url" ==> v == StringInit(cfg.tokenUrl.GetOr("https://api.example.com/oauth/token")))
        && (n == "api_key_header" ==> v == StringInit(cfg.apiKeyHeader.GetOr("X-Api-Key")))
        && (n != "token_url" && n != "api_key_header" ==> v == NilInit)
  {
  }

  /** The base url, timeout and JSON headers come out the same for every scheme; a missing
      or unknown `auth_type` adds no attribute line text and no assignment. */
  lemma SchemeIndependentPart(m: string, cfg: Config)
    ensures var lines := Render(m, cfg);
      && lines[8] == "@base_url = \"" + cfg.baseUrl.GetOr("https://api.example.com") + "\""
      && lines[9..14] == TimeoutAndHeaders
      && (AuthOf(cfg.authType) == NoAuth ==> lines[5] == "" && |lines| == 17)
  {
  }
}
