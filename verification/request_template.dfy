/** The request file `lib/<api>/request.rb`: one method per HTTP verb, the authentication
    step of the connection, and the response check of the generated gem. */
module RequestTemplate {
  import opened Wrappers
  import opened Strings
  import opened RubyValue
  import opened Schema
  import ConfigurationTemplate
  import ResourceTemplate

  /** The authentication step of the connection, naming the configuration attributes it
      reads. */
  datatype AuthClause =
    | Bearer(token: string)
    | BasicAuth(user: string, password: string)
    | HeaderKey(header: string, key: string)
    | NoClause

  /** `connection_auth_config`. */
  function ConnectionAuth(a: Auth): AuthClause
  {
    match a
    case OAuth => Bearer("access_token")
    case Basic => BasicAuth("username", "password")
    case ApiKey => HeaderKey("api_key_header", "api_key")
    case NoAuth => NoClause
  }

  function Attr(n: string): string { "@config." + n }

  /** The statement of the clause, before its guard. */
  function Action(c: AuthClause): string
  {
    match c
    case Bearer(t) => "conn.request" + " :authorization," + " 'Bearer', " + Attr(t)
    case BasicAuth(u, p) => "conn.basic_auth(" + Attr(u) + ", " + Attr(p) + ")"
    case HeaderKey(h, k) => "conn.headers[" + Attr(h) + "] = " + Attr(k)
    case NoClause => ""
  }

  /** `a && b && ...` over the guarded attributes. */
  function GuardText(names: seq<string>): string
  {
    if |names| == 0 then ""
    else if |names| == 1 then Attr(names[0])
    else Attr(names[0]) + " && " + GuardText(names[1..])
  }

  /** The line the template emits: the statement followed by its presence test. */
  function ClauseText(c: AuthClause): string
  {
    if c == NoClause then "" else Action(c) + " if " + GuardText(Guard(c))
  }

  /** Every configuration attribute the clause reads. */
  function Reads(c: AuthClause): seq<string>
  {
    match c
    case Bearer(t) => [t]
    case BasicAuth(u, p) => [u, p]
    case HeaderKey(h, k) => [h, k]
    case NoClause => []
  }

  /** The credentials the clause sends. */
  function Credentials(c: AuthClause): seq<string>
  {
    match c
    case Bearer(t) => [t]
    case BasicAuth(u, p) => [u, p]
    case HeaderKey(_, k) => [k]
    case NoClause => []
  }

  /** The attributes the clause's trailing `if` tests. */
  function Guard(c: AuthClause): seq<string>
  {
    match c
    case Bearer(t) => [t]
    case BasicAuth(u, p) => [u, p]
    case HeaderKey(_, k) => [k]
    case NoClause => []
  }

  /** The generated connection only reads attributes that the generated configuration
      declares for the same scheme, and is empty exactly when there is no scheme. */
  lemma AuthClauseReadsDeclaredAttributes(a: Auth)
    ensures forall n :: n in Reads(ConnectionAuth(a)) ==> n in ConfigurationTemplate.AuthAttributes(a)
    ensures ClauseText(ConnectionAuth(a)) == "" <==> a == NoAuth
  {
  }

  /** Every credential a non-empty clause sends is checked for presence first; basic
      authentication needs both user name and password. */
  lemma CredentialsAreGuarded(a: Auth)
    ensures forall n :: n in Credentials(ConnectionAuth(a)) ==> n in Guard(ConnectionAuth(a))
    ensures a == Basic ==> Guard(ConnectionAuth(a)) == ["username", "password"]
    ensures a != NoAuth ==> |Guard(ConnectionAuth(a))| > 0
  {
  }

  /** The verb methods of the generated `Request`, with the one keyword each accepts
      besides `headers:`. */
  const Verbs: seq<(string, string)> := [("get", "params"), ("post", "body"), ("put", "body"),
                                          ("patch", "body"), ("delete", "params")]

  /** The keywords the generated verb method accepts, or `None` for a verb it lacks. */
  function Accepts(verb: string): (r: Option<seq<string>>)
    ensures r.Some? <==> verb in ["get", "post", "put", "patch", "delete"]
  {
    if verb == "get" || verb == "delete" then Some(["params", "headers"])
    else if IsBodyVerb(verb) then Some(["body", "headers"])
    else None
  }

  function VerbLines(v: (string, string)): seq<string>
  {
    [ "def " + v.0 + "(" + v.1 + ": {}, headers: {})",
      "make_request(:" + v.0 + ", " + v.1 + ": " + v.1 + ", headers: headers)",
      "end" ]
  }

  /** A verb takes a body exactly when the resource template would pass it one. */
  lemma VerbKeywords()
    ensures forall k :: 0 <= k < |Verbs| ==>
      Accepts(Verbs[k].0) == Some([Verbs[k].1, "headers"])
      && (Verbs[k].1 == "body" <==> IsBodyVerb(Verbs[k].0))
  {
  }

  /** The keyword names a generated endpoint method passes to its verb. */
  function ForwardedKeywords(e: Endpoint): seq<string>
  {
    (if e.params then ["params"] else []) + (if IsBodyVerb(MethodOf(e)) then ["body"] else [])
  }

  lemma ForwardedKeywordsMatchArgs(e: Endpoint)
    ensures |ForwardedKeywords(e)| == |ResourceTemplate.RequestArgs(e)|
    ensures forall i :: 0 <= i < |ForwardedKeywords(e)| ==>
      ResourceTemplate.RequestArgs(e)[i] == ResourceTemplate.Forwarded(ForwardedKeywords(e)[i])
  {
  }

  /** For the five verbs the request class defines, a generated endpoint method's call is
      accepted exactly when it does not combine query parameters with a body verb: a
      `post` with `params: true` passes `params:`, which `post` does not take. */
  lemma EndpointCallAccepted(e: Endpoint)
    requires Accepts(MethodOf(e)).Some?
    ensures (forall n :: n in ForwardedKeywords(e) ==> n in Accepts(MethodOf(e)).value)
            <==> !(e.params && IsBodyVerb(MethodOf(e)))
  {
    if e.params && IsBodyVerb(MethodOf(e)) {
      assert "params" in ForwardedKeywords(e);
    }
  }

  /** The generated `handle_response`: its outcome is the body, or an error with a message,
      the body and the status. */
  datatype Outcome = ReturnsBody(body: Value) | RaisesError(message: Value, body: Value, status: int)

  /** The error message the generated code computes: for a hash body its `"message"`, else
      its `"error"`, else `"Error <status>"` (the generated connection parses JSON with string
      keys). */
  function GeneratedMessage(status: int, body: Value): Value
  {
    var fallback := Str("Error " + IntToString(status));
    match body
    case Hash(entries) => Or(Lookup(entries, Str("message")), Or(Lookup(entries, Str("error")), fallback))
    case _ => fallback
  }

  function GeneratedHandleResponse(status: int, body: Value): (o: Outcome)
    ensures o.ReturnsBody? <==> 200 <= status <= 299
    ensures o.ReturnsBody? ==> o.body == body
    ensures o.RaisesError? ==> o.body == body && o.status == status
  {
    if 200 <= status <= 299 then ReturnsBody(body)
    else RaisesError(GeneratedMessage(status, body), body, status)
  }

  /** The message is a truthy `"message"`, else a truthy `"error"`, else the status text. */
  lemma GeneratedMessageChoice(status: int, entries: seq<(Value, Value)>)
    ensures var msg := GeneratedMessage(status, Hash(entries));
      && (Truthy(Lookup(entries, Str("message"))) ==> msg == Lookup(entries, Str("message")))
      && (!Truthy(Lookup(entries, Str("message"))) && Truthy(Lookup(entries, Str("error"))) ==> msg == Lookup(entries, Str("error")))
      && (!Truthy(Lookup(entries, Str("message"))) && !Truthy(Lookup(entries, Str("error"))) ==> msg == Str("Error " + IntToString(status)))
  {
  }

  /** The requires, the module and class, and the constructor. */
  function Prologue(m: string): (lines: seq<string>)
    ensures |lines| == 12
  {
    [ "#" + " frozen_string_literal:" + " true",
      "",
      "require \"faraday\"",
      "require \"json\"",
      "",
      "module " + m,
      "class Request",
      "def initialize(path," + " config = " + m + ".configuration)",
      "@path = path",
      "@config = config",
      "@base_url =" + " config.base_url",
      "end" ]
  }

  /** One method per verb, in the order of `Verbs`. */
  function VerbMethods(): (lines: seq<string>)
    ensures |lines| == 15
  {
    VerbLines(Verbs[0]) + VerbLines(Verbs[1]) + VerbLines(Verbs[2])
      + VerbLines(Verbs[3]) + VerbLines(Verbs[4])
  }

  /** `make_request`: the one request path every verb goes through. */
  function MakeRequest(): (lines: seq<string>)
    ensures |lines| == 10
  {
    [ "def" + " make_request(method," + " params: {}, body:" + " nil, headers: {})",
      "response =" + " connection.public_send(method)" + " do |req|",
      "req.url @path",
      "req.params = params" + " if params &&" + " !params.empty?",
      "req.body =" + " body.to_json if" + " body &&" + " !body.empty?",
      "req.headers.merge!(headers)" + " if headers &&" + " !headers.empty?",
      "req.options.timeout" + " = @config.timeout",
      "end",
      "handle_response(response)",
      "end" ]
  }

  /** The memoised connection with the scheme's auth step. */
  function Connection(cfg: Config): (lines: seq<string>)
    ensures |lines| == 8
    ensures lines[2] == ClauseText(ConnectionAuth(AuthOf(cfg.authType)))
  {
    [ "def connection",
      "@connection ||=" + " Faraday.new(url:" + " @base_url) do" + " |conn|",
      ClauseText(ConnectionAuth(AuthOf(cfg.authType))),
      "conn.headers =" + " @config.headers",
      "conn.response :json," + " content_type:" + " /\\bjson$/",
      "conn.adapter" + " Faraday.default_adapter",
      "end",
      "end" ]
  }

  /** `handle_response`: the body for a success, otherwise the module's `Error`. Its
      behaviour is `GeneratedHandleResponse`. */
  function HandleResponseLines(m: string): (lines: seq<string>)
    ensures |lines| == 9
    ensures lines[7] == "raise " + m + "::Error.new(error_message," + " response.body," + " response.status)"
  {
    [ "def" + " handle_response(response)",
      "return response.body" + " if" + " response.status.between?(200," + " 299)",
      "error_message = if" + " response.body.is_a?(Hash)",
      "response.body[\"message\"]" + " ||" + " response.body[\"error\"]" + " || \"Error" + " #{response.status}\"",
      "else",
      "\"Error" + " #{response.status}\"",
      "end",
      "raise " + m + "::Error.new(error_message," + " response.body," + " response.status)",
      "end" ]
  }

  /** The private helpers and the closing lines of the class and the module. */
  function Epilogue(m: string, cfg: Config): (lines: seq<string>)
    ensures |lines| == 30
  {
    ["private"] + MakeRequest() + Connection(cfg) + HandleResponseLines(m) + ["end", "end"]
  }

  function Render(m: string, cfg: Config): seq<string>
  {
    Prologue(m) + VerbMethods() + Epilogue(m, cfg)
  }

  /** The module name appears in the constructor's default configuration and in the error
      class raised, and the auth step is the one the scheme selects. */
  lemma RenderMentionsModule(m: string, cfg: Config)
    ensures var lines := Render(m, cfg);
      && lines[7] == "def initialize(path," + " config = " + m + ".configuration)"
      && lines[|lines| - 4] == "raise " + m + "::Error.new(error_message," + " response.body," + " response.status)"
      && lines[40] == ClauseText(ConnectionAuth(AuthOf(cfg.authType)))
  {
    var lines, tail := Render(m, cfg), Epilogue(m, cfg);
    var c, h := Connection(cfg), HandleResponseLines(m);
    assert tail == ["private"] + MakeRequest() + c + h + ["end", "end"];
    assert tail[13] == c[2] && tail[26] == h[7];
    assert lines[7] == Prologue(m)[7];
    assert lines[40] == tail[13] && lines[|lines| - 4] == tail[26];
  }
}
