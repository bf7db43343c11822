/** The API documentation (`docs/api.md`): a table of contents, the authentication notes,
    and per resource one section per endpoint with its url, parameters, an example call
    and an example response. */
module DocumentationTemplate {
  import opened Pairs
  import opened Wrappers
  import opened Strings
  import opened Identifiers
  import opened PathTemplate
  import opened Schema
  import opened Lines
  import ResourceTemplate
  import ConfigurationTemplate

  // ----- one endpoint -----

  /** `"#{base_url.chomp("/")}/#{path}"`. */
  function EndpointUrl(baseUrl: string, path: string): string
  {
    Chomp(baseUrl, '/') + "/" + path
  }

  /** Exactly one slash is added between a base url and the path: a trailing slash of the
      base is used instead of a new one, and only one trailing slash is removed. */
  lemma EndpointUrlJoin(baseUrl: string, path: string)
    ensures EndsWith(baseUrl, '/') ==> EndpointUrl(baseUrl, path) == baseUrl + path
    ensures !EndsWith(baseUrl, '/') ==> EndpointUrl(baseUrl, path) == baseUrl + "/" + path
  {
    if EndsWith(baseUrl, '/') {
      assert Chomp(baseUrl, '/') + "/" == baseUrl;
    }
  }

  /** `endpoint["method"]&.upcase || "GET"`. */
  function DocMethod(e: Endpoint): string
  {
    match e.verb
    case None => "GET"
    case Some(v) => Upcase(v)
  }

  const DocBodyVerbs: seq<string> := ["POST", "PUT", "PATCH"]

  /** The documentation's body test, made on the upcased method. */
  predicate DocBody(e: Endpoint)
  {
    DocMethod(e) in DocBodyVerbs
  }

  /** The arguments of the example call: the placeholders as scanned, then `params`, then
      `body`. */
  function ExampleArgs(e: Endpoint): seq<string>
  {
    Placeholders(PathOf(e)) + (if e.params then ["params"] else []) + (if DocBody(e) then ["body"] else [])
  }

  function ClientCall(resource: string, e: Endpoint): string
  {
    "client." + resource + "." + e.name + "(" + Join(ExampleArgs(e), ", ") + ")"
  }

  lemma UpCharOfNonUpper(c: char)
    requires !IsUpper(c)
    ensures DownChar(UpChar(c)) == c
  {
  }

  lemma DowncaseUpcase(v: string)
    requires forall i :: 0 <= i < |v| ==> !IsUpper(v[i])
    ensures Downcase(Upcase(v)) == v
  {
    forall i | 0 <= i < |v| ensures Downcase(Upcase(v))[i] == v[i] {
      UpCharOfNonUpper(v[i]);
    }
  }

  /** For a method written without capitals, the documentation's body test agrees with the
      generator's. */
  lemma DocBodyOfLowercaseVerb(e: Endpoint)
    requires forall v :: e.verb == Some(v) ==> forall i :: 0 <= i < |v| ==> !IsUpper(v[i])
    ensures DocBody(e) <==> IsBodyVerb(MethodOf(e))
  {
    if e.verb.Some? {
      var v := e.verb.value;
      DowncaseUpcase(v);
      assert Upcase("post") == "POST" && Upcase("put") == "PUT" && Upcase("patch") == "PATCH";
      if DocBody(e) {
        assert v == Downcase(Upcase(v));
        assert Downcase("POST") == "post" && Downcase("PUT") == "put" && Downcase("PATCH") == "patch";
      }
    }
  }

  /** For a method written without capitals the example call passes one argument per
      parameter of the method the resource file defines, in the same order: every scanned
      placeholder, then `params` and `body` where the signature has `params = {}` and
      `body = {}`. */
  lemma ExampleArgsMatchSignature(e: Endpoint, rc: ResourceConfig)
    requires forall v :: e.verb == Some(v) ==> forall i :: 0 <= i < |v| ==> !IsUpper(v[i])
    ensures var sig := ResourceTemplate.EndpointMethodAsWritten(e, rc).params;
      var n := |Placeholders(PathOf(e))|;
      && |ExampleArgs(e)| == |sig|
      && ExampleArgs(e)[..n] == sig[..n]
      && forall k :: n <= k < |sig| ==> sig[k] == ResourceTemplate.Defaulted(ExampleArgs(e)[k])
  {
    DocBodyOfLowercaseVerb(e);
    var ph := Placeholders(PathOf(e));
    var xs := (if e.params then ["params"] else []) + (if DocBody(e) then ["body"] else []);
    var ys := (if e.params then [ResourceTemplate.Defaulted("params")] else [])
      + (if DocBody(e) then [ResourceTemplate.Defaulted("body")] else []);
    assert ExampleArgs(e) == ph + xs;
    ResourceTemplate.AsWrittenParams(e, rc);
    ResourceTemplate.SignatureOfFlags(ph, e, DocBody(e));
    OptionalArgs(e.params, DocBody(e));
    SharedPrefix(ph, xs, ys);
  }

  lemma SharedPrefix(ph: seq<string>, xs: seq<string>, ys: seq<string>)
    requires |xs| == |ys|
    requires forall k :: 0 <= k < |ys| ==> ys[k] == ResourceTemplate.Defaulted(xs[k])
    ensures |ph + xs| == |ph + ys|
    ensures (ph + xs)[..|ph|] == (ph + ys)[..|ph|]
    ensures forall k :: |ph| <= k < |ph + ys| ==> (ph + ys)[k] == ResourceTemplate.Defaulted((ph + xs)[k])
  {
    assert (ph + xs)[..|ph|] == ph == (ph + ys)[..|ph|];
  }

  /** The optional arguments of the example call and the defaulted parameters of the
      signature, for the same two flags. */
  lemma OptionalArgs(p: bool, b: bool)
    ensures var xs := (if p then ["params"] else []) + (if b then ["body"] else []);
      var ys := (if p then [ResourceTemplate.Defaulted("params")] else [])
        + (if b then [ResourceTemplate.Defaulted("body")] else []);
      && |xs| == |ys|
      && forall k :: 0 <= k < |ys| ==> ys[k] == ResourceTemplate.Defaulted(xs[k])
  {
  }

  lemma {:induction false} NamesHaveNoClose(ps: seq<Piece>, s: string)
    requires ps == Tokenize(s)
    ensures forall k :: 0 <= k < |Names(ps)| ==> '}' !in Names(ps)[k]
    decreases |s|
  {
    if |s| > 0 {
      match PlaceholderAt(s)
      case Some(n) =>
        NamesHaveNoClose(Tokenize(s[|n| + 2..]), s[|n| + 2..]);
        assert ps[1..] == Tokenize(s[|n| + 2..]);
      case None =>
        NamesHaveNoClose(Tokenize(s[1..]), s[1..]);
        assert ps[1..] == Tokenize(s[1..]);
    }
  }

  lemma PlaceholdersHaveNoClose(path: string)
    ensures forall k :: 0 <= k < |Placeholders(path)| ==> '}' !in Placeholders(path)[k]
  {
    NamesHaveNoClose(Tokenize(path), path);
  }

  /** A method written in capitals is sent a body by the documentation's example but gets
      none in the generated method: `POST` is not one of the generator's body verbs. */
  lemma CapitalVerbDiverges()
    ensures var e := Endpoint("create", Some("POST"), Some("users"), false, None, None, None);
      DocBody(e) && !IsBodyVerb(MethodOf(e))
  {
    assert Upcase("POST") == "POST";
  }

  // ----- parameter descriptions -----

  predicate AllWordChars(s: string)
  {
    forall i :: 0 <= i < |s| ==> IsWordChar(s[i])
  }

  /** A line the pattern `^(\w+)_id$` matches whole: word characters only, at least one of
      them before the `_id`. */
  predicate IdLine(line: string)
  {
    |line| >= 4 && AllWordChars(line) && line[|line| - 3..] == "_id"
  }

  /** The first line matched by `^(\w+)_id$`, which anchors at every line start and end. */
  function FirstIdLine(lines: seq<string>): (r: Option<string>)
    ensures r.Some? ==> IdLine(r.value) && r.value in lines
    ensures r.None? <==> forall k :: 0 <= k < |lines| ==> !IdLine(lines[k])
  {
    if |lines| == 0 then None
    else if IdLine(lines[0]) then Some(lines[0])
    else FirstIdLine(lines[1..])
  }

  const UniqueIdText: string := "The unique" + " identifier of the" + " resource."
  const NoDescription: string := "Description not" + " available."

  function IdentifierOf(stem: string): string
  {
    "The identifier of the " + stem + "."
  }

  /** `param_description`. */
  function ParamDescription(param: string): string
  {
    if param == "id" then UniqueIdText
    else if param == "customer_id" then IdentifierOf("customer")
    else match FirstIdLine(Split(param, '\n'))
      case Some(line) => IdentifierOf(line[..|line| - 3])
      case None => NoDescription
  }

  lemma SplitSingleLine(s: string)
    requires '\n' !in s
    ensures Split(s, '\n') == [s]
  {
    assert IndexOf(s, '\n').None?;
  }

  /** A one-line identifier `<x>_id` is described as the identifier of `x`, the fixed text
      for `customer_id` included; a one-line name without the `_id` suffix gets no
      description. */
  lemma ParamDescriptionOfIdentifier(x: string)
    requires |x| > 0 && AllWordChars(x)
    ensures ParamDescription(x + "_id") == IdentifierOf(x)
    ensures ParamDescription("id") == UniqueIdText
  {
    var p := x + "_id";
    assert '\n' !in p by {
      forall i | 0 <= i < |p| ensures p[i] != '\n' {
        if i < |x| { assert p[i] == x[i]; }
      }
    }
    SplitSingleLine(p);
    assert p[|p| - 3..] == "_id" && p[..|p| - 3] == x;
    assert IdLine(p);
    assert p != "id";
  }

  lemma ParamDescriptionWithoutSuffix(param: string)
    requires '\n' !in param && param != "id" && param != "customer_id"
    requires |param| < 3 || param[|param| - 3..] != "_id"
    ensures ParamDescription(param) == NoDescription
  {
    SplitSingleLine(param);
  }

  lemma SplitTwoLines(a: string, b: string)
    requires '\n' !in a && '\n' !in b
    ensures Split(a + "\n" + b, '\n') == [a, b]
  {
    var s := a + "\n" + b;
    assert s[..|a|] == a && s[|a|] == '\n';
    IndexOfFirst(s, '\n', |a|);
    assert s[|a| + 1..] == b;
    SplitSingleLine(b);
  }

  /** The anchors are per line: in `"x\na_id"` the second line matches. */
  lemma ParamDescriptionPerLine()
    ensures ParamDescription("x\na_id") == IdentifierOf("a")
  {
    SplitTwoLines("x", "a_id");
    assert "x" + "\n" + "a_id" == "x\na_id";
    assert !IdLine("x");
    assert IdLine("a_id");
    assert FirstIdLine(["x", "a_id"]) == FirstIdLine(["a_id"]);
    assert "a_id"[..1] == "a";
  }

  const NoParameters: string := "This" + " endpoint does not" + " require any" + " parameters."

  function ParamLines(names: seq<string>): (lines: seq<string>)
    ensures |lines| == |names|
    ensures forall k :: 0 <= k < |names| ==>
      lines[k] == "- `" + names[k] + "`: Required. " + ParamDescription(names[k])
  {
    seq(|names|, k requires 0 <= k < |names| => "- `" + names[k] + "`: Required. " + ParamDescription(names[k]))
  }

  predicate Listed(line: string)
  {
    |line| > 0 && (line[0] == '*' || line[0] == '-')
  }

  function PathPart(pp: seq<string>): (lines: seq<string>)
    ensures forall k :: 0 <= k < |lines| ==> Listed(lines[k])
    ensures "**Path Parameters:**" in lines <==> |pp| > 0
    ensures "**Query Parameters:**" !in lines && "**Request Body:**" !in lines
  {
    if |pp| == 0 then []
    else
      var ls := ["**Path Parameters:**"] + ParamLines(pp);
      assert forall k :: 0 < k < |ls| ==> ls[k][0] == '-';
      ls
  }

  function QueryPart(params: bool): (lines: seq<string>)
    ensures forall k :: 0 <= k < |lines| ==> Listed(lines[k])
    ensures "**Query Parameters:**" in lines <==> params
    ensures "**Path Parameters:**" !in lines && "**Request Body:**" !in lines
  {
    if params then
      var ls := ["**Query Parameters:**", "- " + "This endpoint" + " accepts additional" + " query parameters."];
      assert ls[0][0] == '*' && ls[1][0] == '-';
      ls
    else []
  }

  function BodyPart(body: bool): (lines: seq<string>)
    ensures forall k :: 0 <= k < |lines| ==> Listed(lines[k])
    ensures "**Request Body:**" in lines <==> body
    ensures "**Path Parameters:**" !in lines && "**Query Parameters:**" !in lines
  {
    if body then
      var ls := ["**Request Body:**", "- " + "This endpoint" + " accepts a request" + " body with the" + " resource" + " attributes."];
      assert ls[0][0] == '*' && ls[1][0] == '-';
      ls
    else []
  }

  /** The parameter section of an endpoint. */
  function ParamSection(e: Endpoint): seq<string>
  {
    var pp := Placeholders(PathOf(e));
    if |pp| == 0 && !e.params && !DocBody(e) then [NoParameters]
    else PathPart(pp) + QueryPart(e.params) + BodyPart(DocBody(e))
  }

  /** The no-parameters notice appears exactly when the example call has no argument; then
      it is the whole section. Otherwise each kind of argument gets its own heading. */
  lemma NoParametersNotice(e: Endpoint)
    ensures NoParameters in ParamSection(e) <==> ExampleArgs(e) == []
    ensures ExampleArgs(e) == [] ==> ParamSection(e) == [NoParameters]
    ensures "**Path Parameters:**" in ParamSection(e) <==> |Placeholders(PathOf(e))| > 0
    ensures "**Query Parameters:**" in ParamSection(e) <==> e.params
    ensures "**Request Body:**" in ParamSection(e) <==> DocBody(e)
  {
    var pp := Placeholders(PathOf(e));
    if ExampleArgs(e) != [] {
      var a, b, c := PathPart(pp), QueryPart(e.params), BodyPart(DocBody(e));
      var s := a + b + c;
      assert ParamSection(e) == s;
      assert forall x :: x in s ==> x in a || x in b || x in c;
      assert !Listed(NoParameters) by {
        assert NoParameters[0] == "This"[0] == 'T';
      }
    }
  }

  // ----- response examples -----

  /** The six shapes of response example, chosen by the endpoint name. */
  datatype ResponseKind = ListKind | ItemKind | CreatedKind | UpdatedKind | DeletedKind | OtherKind

  function KindOf(name: string): ResponseKind
  {
    if name in ["list", "all", "index", "search"] then ListKind
    else if name in ["get", "find", "show"] then ItemKind
    else if name == "create" then CreatedKind
    else if name == "update" then UpdatedKind
    else if name in ["delete", "destroy", "remove"] then DeletedKind
    else OtherKind
  }

  /** `response_example(name, singular, collection)`; the third argument is not read. */
  function ResponseExample(name: string, singular: string, isCollection: Option<bool>): seq<string>
  {
    ["```ruby"] +
    match KindOf(name)
    case ListKind =>
      [ "# Returns a" + " Collection object",
        "collection.data.each" + " do |" + singular + "|",
        "puts " + singular + ".id",
        "puts " + singular + ".name",
        "# Other attributes...",
        "end",
        "# Pagination information",
        "puts" + " collection.next_href" + "  # URL for the next" + " page, if available",
        "```" ]
    case ItemKind =>
      [ "# Returns a single" + " Object", "puts " + singular + ".id", "puts " + singular + ".name",
        "# Other attributes...", "```" ]
    case CreatedKind =>
      [ "# Returns the" + " created object", "puts " + singular + ".id", "puts " + singular + ".created_at",
        "# Other attributes...", "```" ]
    case UpdatedKind =>
      [ "# Returns the" + " updated object", "puts " + singular + ".id", "puts " + singular + ".updated_at",
        "# Other attributes...", "```" ]
    case DeletedKind =>
      [ "# Returns a success" + " indicator or the" + " deleted object", "puts \"Resource" + " deleted" + " successfully\"", "```" ]
    case OtherKind =>
      [ "# Returns a response" + " specific to this" + " endpoint", "puts response  #" + " Examine the" + " response structure", "```" ]
  }

  /** The example is a collection exactly for the conventional collection names, whatever
      the endpoint's `collection` setting says; it agrees with the generated method unless
      `collection: true` is set on another name. */
  lemma ResponseExampleIgnoresCollectionFlag(e: Endpoint, singular: string, rc: ResourceConfig)
    ensures forall f :: ResponseExample(e.name, singular, f) == ResponseExample(e.name, singular, None)
    ensures KindOf(e.name) == ListKind <==> e.name in CollectionNames
    ensures e.collection != Some(true) ==>
      (KindOf(e.name) == ListKind <==> ResourceTemplate.TransformOf(e, rc) == ResourceTemplate.FromCollection)
  {
  }

  /** An endpoint declared a collection under another name is documented as something
      else, while its generated method returns a collection. */
  lemma DeclaredCollectionDocumentedOtherwise(rc: ResourceConfig)
    ensures var e := Endpoint("recent", None, None, false, Some(true), None, None);
      KindOf(e.name) == OtherKind && ResourceTemplate.TransformOf(e, rc) == ResourceTemplate.FromCollection
  {
  }

  /** `render_endpoint_docs`. */
  function EndpointDocs(e: Endpoint, resource: string, singular: string, baseUrl: string): seq<string>
  {
    [ "### " + e.name,
      "**" + DocMethod(e) + "** `" + EndpointUrl(baseUrl, PathOf(e)) + "`",
      e.description.GetOr("No description provided."),
      "#### Parameters" ]
      + ParamSection(e)
      + [ "#### Example Usage", "```ruby", ClientCall(resource, e), "```", "#### Response" ]
      + ResponseExample(e.name, singular, e.collection)
  }

  function EndpointBlocks(endpoints: seq<Endpoint>, resource: string, baseUrl: string): (blocks: seq<seq<string>>)
    ensures |blocks| == |endpoints|
    ensures forall k :: 0 <= k < |endpoints| ==> blocks[k] == EndpointDocs(endpoints[k], resource, Singular(resource), baseUrl)
  {
    seq(|endpoints|, k requires 0 <= k < |endpoints| => EndpointDocs(endpoints[k], resource, Singular(resource), baseUrl))
  }

  function Anchor(resource: string): string
  {
    "<a name=\"" + resource + "\"></a>"
  }

  /** `render_resource_docs`: an anchor, a heading, then the endpoints in order. */
  function ResourceDocs(resource: string, rc: ResourceConfig, baseUrl: string): seq<string>
  {
    [Anchor(resource), "## " + ClassName(resource)]
      + Flatten(EndpointBlocks(EndpointsOf(rc), resource, baseUrl))
  }

  function ResourceSections(rs: seq<(string, ResourceConfig)>, baseUrl: string): (blocks: seq<seq<string>>)
    ensures |blocks| == |rs|
    ensures forall k :: 0 <= k < |rs| ==> blocks[k] == ResourceDocs(rs[k].0, rs[k].1, baseUrl)
  {
    seq(|rs|, k requires 0 <= k < |rs| => ResourceDocs(rs[k].0, rs[k].1, baseUrl))
  }

  function TocLine(resource: string): string
  {
    "- [" + ClassName(resource) + "](#" + resource + ")"
  }

  function Toc(names: seq<string>): (lines: seq<string>)
    ensures |lines| == |names|
    ensures forall k :: 0 <= k < |names| ==> lines[k] == TocLine(names[k])
  {
    seq(|names|, k requires 0 <= k < |names| => TocLine(names[k]))
  }

  // ----- authentication -----

  function AuthIntro(a: Auth, cfg: Config): string
  {
    match a
    case OAuth => "This API uses OAuth" + " 2.0 authentication." + " You need to obtain" + " an access token" + " from the" + " authorization" + " server."
    case Basic => "This API uses HTTP" + " Basic" + " Authentication."
    case ApiKey => "This API uses API" + " Key authentication." + " The key should be" + " provided in the `" + ApiKeyHeaderOf(cfg) + "` header."
    case NoAuth => "This API does not" + " require" + " authentication."
  }

  /** The credentials the snippet assigns. */
  function SnippetAttributes(a: Auth): seq<string>
  {
    match a
    case OAuth => ["client_id", "client_secret"]
    case Basic => ["username", "password"]
    case ApiKey => ["api_key"]
    case NoAuth => []
  }

  /** `config.<name> = "YOUR_<NAME>"` */
  function SnippetLine(name: string): string
  {
    "config." + name + " = \"YOUR_" + Upcase(name) + "\""
  }

  function AuthSnippetSettings(a: Auth): (lines: seq<string>)
    ensures |lines| == |SnippetAttributes(a)|
    ensures forall k :: 0 <= k < |lines| ==> lines[k] == SnippetLine(SnippetAttributes(a)[k])
  {
    var names := SnippetAttributes(a);
    seq(|names|, k requires 0 <= k < |names| => SnippetLine(names[k]))
  }

  /** `render_authentication_docs`: `None` when a scheme is set but `api_name` is not, as
      the snippet calls `gsub` on it. The snippet's module name is the documentation's own
      derivation. */
  function AuthDocs(cfg: Config): (r: Option<seq<string>>)
    ensures r.None? <==> AuthOf(cfg.authType) != NoAuth && cfg.apiName.None?
    ensures AuthOf(cfg.authType) == NoAuth ==> r == Some(["This API does not" + " require" + " authentication."])
    ensures r.Some? && AuthOf(cfg.authType) != NoAuth ==>
      |r.value| > 3 && r.value[3] == DocModuleName(cfg.apiName.value) + ".configure do |config|"
  {
    var a := AuthOf(cfg.authType);
    if a == NoAuth then Some([AuthIntro(a, cfg)])
    else if cfg.apiName.None? then None
    else
      var snippet := DocModuleName(cfg.apiName.value) + ".configure do |config|";
      Some([AuthIntro(a, cfg), "", "```ruby", snippet] + AuthSnippetSettings(a) + ["end", "```"])
  }

  /** The snippet assigns only credentials the generated configuration declares, and no
      setting that has a default; the api key notes name the configured header or
      "X-Api-Key". */
  lemma AuthDocsSettings(cfg: Config)
    ensures var a := AuthOf(cfg.authType);
      forall n :: n in SnippetAttributes(a) ==>
        n in ConfigurationTemplate.AuthAttributes(a) && n != "token_url" && n != "api_key_header"
    ensures AuthOf(cfg.authType) == ApiKey && cfg.apiName.Some? ==>
      AuthDocs(cfg).value[0] == "This API uses API" + " Key authentication." + " The key should be" + " provided in the `"
                                + cfg.apiKeyHeader.GetOr("X-Api-Key") + "` header."
  {
  }

  // ----- the document -----

  function Header(m: string, baseUrl: string): seq<string>
  {
    [ "# " + m + " API Documentation",
      "",
      "This document" + " provides detailed" + " information about" + " the endpoints" + " available in the " + m + " API client.",
      "",
      "**API Base URL:** `" + baseUrl + "`",
      "",
      "## Table of Contents",
      "",
      "-" + " [Authentication](#authentication)" ]
  }

  /** `render`; `None` exactly when the authentication notes fail. */
  function Render(m: string, cfg: Config): (r: Option<seq<string>>)
    ensures r.Some? <==> AuthDocs(cfg).Some?
  {
    var rs := ResourcesOf(cfg);
    match AuthDocs(cfg)
    case None => None
    case Some(auth) =>
      Some(Header(m, BaseUrlOf(cfg))
           + Toc(Firsts(rs))
           + ["", "## Authentication", ""] + auth
           + ["", "## Resources", ""]
           + Flatten(ResourceSections(rs, BaseUrlOf(cfg))))
  }

  /** Table of contents and sections follow the resources in order: entry `k` links to
      the anchor that opens section `k`, under the resource's class name. */
  lemma TocLinksToSections(cfg: Config)
    ensures var rs := ResourcesOf(cfg);
      var toc := Toc(Firsts(rs));
      var sections := ResourceSections(rs, BaseUrlOf(cfg));
      && |toc| == |sections| == |rs|
      && forall k :: 0 <= k < |rs| ==>
           toc[k] == "- [" + ClassName(rs[k].0) + "](#" + rs[k].0 + ")"
           && sections[k][0] == Anchor(rs[k].0)
           && sections[k][1] == "## " + ClassName(rs[k].0)
  {
  }

  /** Each endpoint section states the documented method and the url built from the base
      url and the (defaulted) path, and calls the endpoint by name on its resource. */
  lemma EndpointSectionStates(e: Endpoint, resource: string, baseUrl: string)
    ensures var d := EndpointDocs(e, resource, Singular(resource), baseUrl);
      && d[0] == "### " + e.name
      && d[1] == "**" + (if e.verb.None? then "GET" else Upcase(e.verb.value)) + "** `" + EndpointUrl(baseUrl, e.path.GetOr(e.name)) + "`"
      && d[4 + |ParamSection(e)| + 2] == ClientCall(resource, e)
  {
  }
}
