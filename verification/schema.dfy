/** The configuration tree the generator reads (the parsed YAML), with the defaults and
    the derived facts that several templates compute from it. An absent key is `None`. */
module Schema {
  import opened Pairs
  import opened Wrappers
  import opened RubyValue

  datatype Pagination = Pagination(nextPageKey: Option<string>)

  /** A `response_format` hash. */
  datatype ResponseFormat = ResponseFormat(
    itemRoot: Option<string>,
    collectionRoot: Option<string>,
    pagination: Option<Pagination>)

  /** The `request` part of a test case; `pathParams` is a hash from placeholder name to
      value. */
  datatype TestRequest = TestRequest(
    pathParams: Option<seq<(string, Value)>>,
    params: Option<Value>,
    body: Option<Value>)

  datatype TestResponse = TestResponse(status: Option<int>, body: Option<Value>)

  /** One entry of an endpoint's `tests` list. */
  datatype TestCase = TestCase(
    description: Option<string>,
    request: Option<TestRequest>,
    response: Option<TestResponse>)

  /** One endpoint. `params` is the truthiness of the `params` key. */
  datatype Endpoint = Endpoint(
    name: string,
    verb: Option<string>,
    path: Option<string>,
    params: bool,
    collection: Option<bool>,
    description: Option<string>,
    tests: Option<seq<TestCase>>)

  datatype ResourceConfig = ResourceConfig(
    endpoints: Option<seq<Endpoint>>,
    responseFormat: Option<ResponseFormat>)

  /** The whole tree; `resources` keeps the YAML mapping's order. */
  datatype Config = Config(
    apiName: Option<string>,
    baseUrl: Option<string>,
    authType: Option<string>,
    tokenUrl: Option<string>,
    apiKeyHeader: Option<string>,
    responseFormat: Option<ResponseFormat>,
    resources: Option<seq<(string, ResourceConfig)>>)

  const DefaultBaseUrl: string := "https://api.example.com"
  const DefaultTokenUrl: string := "https://api.example.com/oauth/token"
  const DefaultApiKeyHeader: string := "X-Api-Key"
  const DefaultMethod: string := "get"

  /** The endpoint names that make an endpoint a collection when it does not say so. */
  const CollectionNames: seq<string> := ["all", "list", "index", "search"]

  /** The verbs whose generated method takes a request body. */
  const BodyVerbs: seq<string> := ["post", "put", "patch"]

  /** The four authentication schemes every template distinguishes. */
  datatype Auth = OAuth | Basic | ApiKey | NoAuth

  /** The scheme named by `auth_type`: any other value, or none, means no authentication. */
  function AuthOf(authType: Option<string>): (a: Auth)
    ensures a == OAuth <==> authType == Some("oauth")
    ensures a == Basic <==> authType == Some("basic")
    ensures a == ApiKey <==> authType == Some("api_key")
  {
    match authType
    case Some("oauth") => OAuth
    case Some("basic") => Basic
    case Some("api_key") => ApiKey
    case _ => NoAuth
  }

  function BaseUrlOf(cfg: Config): string { cfg.baseUrl.GetOr(DefaultBaseUrl) }
  function TokenUrlOf(cfg: Config): string { cfg.tokenUrl.GetOr(DefaultTokenUrl) }
  function ApiKeyHeaderOf(cfg: Config): string { cfg.apiKeyHeader.GetOr(DefaultApiKeyHeader) }
  function ResourcesOf(cfg: Config): seq<(string, ResourceConfig)> { cfg.resources.GetOr([]) }
  function EndpointsOf(rc: ResourceConfig): seq<Endpoint> { rc.endpoints.GetOr([]) }

  function MethodOf(e: Endpoint): string { e.verb.GetOr(DefaultMethod) }

  /** The path of an endpoint defaults to its name. */
  function PathOf(e: Endpoint): string { e.path.GetOr(e.name) }

  predicate IsBodyVerb(verb: string) { verb in BodyVerbs }

  /** `endpoint["collection"] || %w[all list index search].include?(name)`: an explicit
      `false` does not override the name test. */
  predicate IsCollection(e: Endpoint)
  {
    e.collection == Some(true) || e.name in CollectionNames
  }

  /** `response_format || {}`. */
  function FormatOf(rc: ResourceConfig): ResponseFormat
  {
    rc.responseFormat.GetOr(ResponseFormat(None, None, None))
  }

  /** The `item_root` of a resource's own `response_format`, if any. */
  function ItemRootOf(rc: ResourceConfig): Option<string>
  {
    FormatOf(rc).itemRoot
  }

  /** Setting `collection: false` cannot make a conventionally named endpoint a single
      item, and `collection: true` makes any endpoint a collection. */
  lemma ExplicitCollectionFlag(e: Endpoint)
    ensures e.collection == Some(true) ==> IsCollection(e)
    ensures e.collection != Some(true) ==> (IsCollection(e) <==> e.name in CollectionNames)
    ensures IsCollection(e.(collection := Some(false))) == IsCollection(e.(collection := None))
  {
  }
}
