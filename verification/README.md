# wrappix generator core in Dafny

wrappix reads a configuration (api name, base url, auth type, and resources with their
endpoints) and writes the Ruby source of an API client gem. This project models the
generator as pure functions from that configuration to lines of text. It proves what the
generated files contain and how the pieces agree with each other.

The modules follow the repository:

- `Schema` is the parsed configuration. Every `config[...] || default` lookup is an `Option`
  with a named default. Resources and endpoints are sequences of pairs, so insertion order
  is kept.
- `RubyValue` holds the few Ruby values the templates inspect: truthiness, hash lookup,
  `||`, `inspect`, `to_s` and `any?`.
- `Identifiers` covers the module name (`split('-')` and `capitalize`), the resource class
  name, the naive singular, and the documentation's own module name.
- `PathTemplate` is the placeholder scan `/\{([^}]+)\}/`, as a tokenizer with a round trip.
  It also holds the `{p}` → `#{p}` rewrite, both the sequential `gsub` loop as written and
  a single-pass splice.
- `ResourceTemplate`, `MainTemplate`, `ClientTemplate`, `ConfigurationTemplate` and
  `RequestTemplate` model the generated Ruby files. `DocumentationTemplate`,
  `ReadmeTemplate` and `TestsTemplate` model the generated docs, README and test file.
  The per-endpoint test plan is a sequence of `TestMethod` records.
- `Builder` is the write plan: the ordered `(path, template)` list of `build`.
  `BuildOutput` renders that plan with the single module name.
- `RuntimeRequest` is the library's own `handle_response` and `Error`.
  `RuntimeConfiguration` is its resource registry.

Generated files are sequences of lines. Heredoc indentation is dropped, and a line is
compared as a whole string. Long text literals are written as concatenations of short
pieces, which the verifier handles much more cheaply. The text they spell is unchanged.

Where the code and the repository's tests or documentation disagree, the model follows
the code. The two defects under "## Findings" are the exception. For those, the resource
file and the test plan are built from the corrected definitions. The code's own behaviour
is stated beside them, and it agrees with the corrected one whenever the defect is not
triggered. The disagreements are stated as lemmas:

- File paths keep the hyphens of `api_name`, though the builder tests expect underscores
  (`Builder.PathsKeepHyphens`).
- The main file requires `<api>/<singular>` and `<api>/<singular>_resource`, plus
  `version`, `object`, `collection` and `cache`. None of these is written
  (`Builder.MainRequiresUnwrittenBaseFiles`, `Builder.ResourceRequiresAreUnwritten`,
  `Builder.UsersExample`).
- Resource files never read the global `response_format` (resource.rb:39,
  `BuildOutput.ResourceFilesIgnoreGlobalFormat`). Only the generated tests' response
  assertions read it, and those are left out.
  `generate_response_transform` is dead code (`ResourceTemplate.DeadTransformVersusLive`).
- `collection: false` does not override the name heuristic (`Schema.ExplicitCollectionFlag`).
- A `post` with `params: true` passes `params:` to a `post` that does not accept it
  (`RequestTemplate.EndpointCallAccepted`).
- The documentation's module name differs from the builder's for hyphenated names
  (`Identifiers.DocModuleNameDiverges`).
- The documentation's response example ignores the `collection` flag
  (`DocumentationTemplate.DeclaredCollectionDocumentedOtherwise`).
- The generated `handle_response` reads string keys. The library's own reads symbol keys
  (`RequestTemplate.GeneratedMessageChoice`, `RuntimeRequest.StringKeysAreNotRead`).

## Model

| member | source | states |
|---|---|---|
| Identifiers.ModuleNameByCharacters | lib/wrappix/builder.rb:18 | The module name built by splitting on `-`, capitalizing and joining equals a character-level definition: hyphens dropped, a segment's first character upcased, all others downcased. |
| Identifiers.ModuleNameShape | lib/wrappix/builder.rb:18 | The module name contains no `-`, and its length is the api name's length minus its hyphens. `_` is kept. |
| Identifiers.ModuleNameInitial | lib/wrappix/builder.rb:18 | A module name never starts with a lower-case letter. |
| Identifiers.ModuleNameOfPlainName | lib/wrappix/builder.rb:18 | An api name without `-` gives its plain `capitalize`. |
| Identifiers.ClassNameVersusModuleName | lib/wrappix/templates/resource.rb:13 | A resource class name (`capitalize`) equals the module-name rule applied to the same name exactly when the name has no hyphen. |
| Identifiers.SingularInvertsPlural | lib/wrappix/templates/main.rb:9 | Singular removes exactly one trailing `s`, and leaves a name without one unchanged (both directions). |
| Identifiers.SingularIsNaive | lib/wrappix/templates/main.rb:9 | Irregular plurals come out wrong: `categories` → `categorie`, `status` → `statu`. |
| Identifiers.DocModuleNameDiverges | lib/wrappix/templates/documentation.rb:46 | The documentation snippet's module name (`gsub("-","_").capitalize`) equals the builder's exactly when the api name has no hyphen. |
| Strings.CapitalizeIdempotent | lib/wrappix/templates/resource.rb:13 | Capitalizing a capitalized name changes nothing. |
| Strings.Split | lib/wrappix/builder.rb:18 | Splitting on `-` gives hyphen-free segments that join back to the original string. |
| PathTemplate.TokenizeRoundTrip | lib/wrappix/templates/resource.rb:46 | Reading the scanned pieces back, with placeholders in braces, gives the original path. |
| PathTemplate.PlaceholderAt | lib/wrappix/templates/resource.rb:46 | A placeholder match is `{name}` with a non-empty name free of `}`. When a `{` does not match, no `}` follows it, or it is followed directly by `}`. |
| PathTemplate.InterpolateAddsOneHashPerSite | lib/wrappix/templates/resource.rb:46-64 | The interpolated path is longer than the path by exactly the number of placeholder occurrences, repeats included: one `#` per site. |
| PathTemplate.GsubEachSplices | lib/wrappix/templates/resource.rb:62-64 | The `gsub` loop over distinct identifier names rewrites exactly the placeholder sites with those names. |
| PathTemplate.DedupedGsubIsInterpolate | lib/wrappix/templates/resource.rb:61-64 | The template's loop, run over the de-duplicated placeholder list, equals the single-pass splice. |
| PathTemplate.AsWrittenAgreesWithoutRepeats | lib/wrappix/templates/resource.rb:61-64 | When no placeholder repeats, the loop as written equals the single-pass splice. |
| PathTemplate.RepeatedPlaceholderAsWritten | lib/wrappix/templates/resource.rb:46-64 | For any identifier `n` and the path `{n}{n}`, the scan keeps `n` twice. The loop as written produces `##{n}##{n}`, the single-pass splice produces `#{n}#{n}`, and the two differ. |
| PathTemplate.Distinct | lib/wrappix/templates/tests.rb:153-154 | De-duplication keeps the same set of names, has no repeats, and is the identity on a repeat-free list. |
| PathTemplate.DistinctPrefix | lib/wrappix/templates/tests.rb:153-154 | De-duplicating a prefix of the names gives a prefix of the de-duplicated list, so names keep the order of their first occurrence, as a Ruby hash keeps insertion order. |
| PathTemplate.DistinctKeepsFirstOccurrence | lib/wrappix/templates/tests.rb:153-154 | `[a, b, a]` de-duplicates to `[a, b]`: a later repeat does not move the name. |
| Schema.AuthOf | lib/wrappix/templates/configuration.rb:29-40 | The four-way scheme: `oauth`, `basic` and `api_key` select their scheme, and any other value or none selects no authentication. |
| Schema.ExplicitCollectionFlag | lib/wrappix/templates/resource.rb:42 | `collection: true` makes an endpoint a collection. Otherwise it is a collection iff its name is all, list, index or search, so `collection: false` acts like an absent flag. |
| ResourceTemplate.SignatureLayout | lib/wrappix/templates/resource.rb:45-52 | The parameters are the placeholders unchanged, then `params = {}` iff the params flag is set, then `body = {}` iff the method is post/put/patch, with `body` last. |
| ResourceTemplate.OptionsForwardSignature | lib/wrappix/templates/resource.rb:55-57 | Each request option forwards the optional parameter at the same position under its own name, and nothing else is forwarded. |
| ResourceTemplate.RequestOptions | lib/wrappix/templates/resource.rb:58 | The options text is empty iff there are no options. Otherwise it is the options joined by ", " inside parentheses. |
| ResourceTemplate.EndpointMethod | lib/wrappix/templates/resource.rb:33-86 | The corrected method declares each placeholder once, with the same set of names as the path, followed by its request options. |
| ResourceTemplate.CollectionsIgnoreResponseFormat | lib/wrappix/templates/resource.rb:67-68 | A collection endpoint always emits `M::Collection.from_response(response, type: M::Object)`, whatever the resource's `response_format` says. |
| ResourceTemplate.ItemsReadOnlyItemRoot | lib/wrappix/templates/resource.rb:69-76 | A single-item endpoint depends only on the resource's `item_root`, and wraps the whole response iff there is none. |
| ResourceTemplate.TransformLine | lib/wrappix/templates/resource.rb:67-76 | Every response transform is qualified by the module name. |
| ResourceTemplate.AsWrittenAgreesWithoutRepeats | lib/wrappix/templates/resource.rb:45-64 | With distinct identifier placeholders, the method as written equals the corrected method. |
| ResourceTemplate.RepeatedPlaceholderMethod | lib/wrappix/templates/resource.rb:45-64 | For any identifier `n` and the path `{n}{n}`, the method as written declares `(n, n)` and requests `##{n}##{n}`. The corrected method declares `(n)` and requests `#{n}#{n}`. |
| ResourceTemplate.AsWrittenParamCount | lib/wrappix/templates/resource.rb:45-52 | The template's method declares one more parameter than the corrected method for every repeated placeholder occurrence. |
| ResourceTemplate.PlainGetSignature | lib/wrappix/templates/resource.rb:35-52 | An endpoint with no method and no params flag takes exactly its placeholders. |
| ResourceTemplate.Render | lib/wrappix/templates/resource.rb:6-31 | The file declares `class <name.capitalize>`. Without endpoints it is the prologue and the closing lines only. |
| ResourceTemplate.DefinedMethods | lib/wrappix/templates/resource.rb:7-79 | The file's `def` lines are the constructor, then one per endpoint in configuration order, each with that endpoint's name and parameters. |
| ResourceTemplate.DefinedMethodsAsWritten | lib/wrappix/templates/resource.rb:7-79 | When no endpoint repeats an identifier placeholder, the file's `def` lines carry exactly the parameter lists the template writes. |
| ResourceTemplate.DeadTransformVersusLive | lib/wrappix/templates/resource.rb:88-112 | The unused helper agrees with the live transform on single items and differs from it on every collection. |
| ResourceTemplate.RenderIgnoresCollectionSettings | lib/wrappix/templates/resource.rb:39-92 | `collection_root` and `pagination` never change the resource file. |
| MainTemplate.RenderLayout | lib/wrappix/templates/main.rb:7-41 | The main file has the seven base requires in the fixed order with the api name verbatim. Each resource, in order, adds exactly two requires: `<api>/<singular>`, then `<api>/<singular>_resource`. The module wiring, the same for every configuration, comes last. |
| MainTemplate.NoResourcesNoResourceRequires | lib/wrappix/templates/main.rb:7-11 | Without resources, only the base files are required. |
| ClientTemplate.AccessorsInOrder | lib/wrappix/templates/client.rb:22-32 | The client defines one `def <name>` per resource key, in insertion order, and nothing else. |
| ClientTemplate.AccessorInstantiatesResourceClass | lib/wrappix/templates/client.rb:28 | Each accessor memoises `Resources::<name.capitalize>`, the same class the resource file declares. |
| ClientTemplate.ResourceMethods | lib/wrappix/templates/client.rb:22-23 | No resources yields no accessor lines. |
| ConfigurationTemplate.AuthAttributes | lib/wrappix/templates/configuration.rb:29-40 | Only the absent or unknown scheme declares no attributes. No scheme attribute clashes with base_url, timeout or headers. |
| ConfigurationTemplate.AttributeLine | lib/wrappix/templates/configuration.rb:29-40 | The attribute line is empty exactly for no authentication. |
| ConfigurationTemplate.InitializesDeclaredAttributes | lib/wrappix/templates/configuration.rb:42-64 | The initialised attributes are exactly the declared ones, in declaration order. |
| ConfigurationTemplate.InitialValues | lib/wrappix/templates/configuration.rb:45-60 | `token_url` and `api_key_header` start as the configured value or their defaults. Every other credential starts as nil. |
| ConfigurationTemplate.SchemeIndependentPart | lib/wrappix/templates/configuration.rb:16-22 | `@base_url` is the configured url or the default, and timeout 30 with the JSON headers follows for every scheme. No scheme leaves the attribute line empty and adds no assignment. |
| RequestTemplate.AuthClauseReadsDeclaredAttributes | lib/wrappix/templates/request.rb:80-91 | The connection's auth clause reads only attributes the configuration declares for the same scheme. It is empty iff there is no scheme. |
| RequestTemplate.CredentialsAreGuarded | lib/wrappix/templates/request.rb:83-87 | Every credential sent is presence-checked first, and basic authentication needs both username and password. |
| RequestTemplate.Accepts | lib/wrappix/templates/request.rb:21-39 | The generated request defines exactly the five verbs get, post, put, patch and delete. |
| RequestTemplate.VerbKeywords | lib/wrappix/templates/request.rb:21-39 | get and delete take `params:`, while post, put and patch take `body:`. All take `headers:`. A verb takes a body exactly when it is a body verb of the resource template. |
| RequestTemplate.ForwardedKeywordsMatchArgs | lib/wrappix/templates/resource.rb:55-57 | The keywords an endpoint method passes correspond one to one, in order, with its request options. |
| RequestTemplate.EndpointCallAccepted | lib/wrappix/templates/request.rb:25 | A generated call is accepted by the verb iff it does not combine the params flag with a body verb. |
| RequestTemplate.GeneratedHandleResponse | lib/wrappix/templates/request.rb:64-73 | The generated handler returns the body exactly for 200..299. Otherwise the error it raises carries the body and the status. |
| RequestTemplate.GeneratedMessageChoice | lib/wrappix/templates/request.rb:66-70 | The generated message is a truthy `"message"`, else a truthy `"error"`, else `Error <status>`. |
| RequestTemplate.RenderMentionsModule | lib/wrappix/templates/request.rb:15-73 | The module name appears in the constructor default and in the raised error class, and the auth clause is the one the scheme selects. |
| DocumentationTemplate.EndpointUrlJoin | lib/wrappix/templates/documentation.rb:100-104 | The url is the base url and the path with exactly one `/` between them: a trailing slash of the base is reused. |
| DocumentationTemplate.DocBodyOfLowercaseVerb | lib/wrappix/templates/documentation.rb:99-111 | For a method written without capitals, the documentation sends a body exactly when the generator does. |
| DocumentationTemplate.CapitalVerbDiverges | lib/wrappix/templates/documentation.rb:99-111 | A method written `POST` is documented with a body that the generated method does not take. |
| DocumentationTemplate.ExampleArgsMatchSignature | lib/wrappix/templates/documentation.rb:102-111 | The example call has one argument per parameter of the generated method, in the same order. The defaulted ones are passed by name. |
| DocumentationTemplate.ParamDescriptionOfIdentifier | lib/wrappix/templates/documentation.rb:163-174 | `<x>_id` is described as the identifier of x, with `customer_id` getting its fixed text, and `id` gets the unique-identifier text. |
| DocumentationTemplate.ParamDescriptionWithoutSuffix | lib/wrappix/templates/documentation.rb:163-174 | A one-line name that is not `id` or `customer_id` and does not end in `_id` gets "Description not available.". |
| DocumentationTemplate.ParamDescriptionPerLine | lib/wrappix/templates/documentation.rb:170 | The `^`/`$` anchors match at line boundaries, so `"x\na_id"` is described through its second line. |
| DocumentationTemplate.FirstIdLine | lib/wrappix/templates/documentation.rb:170 | The match is a line of the input matching `^(\w+)_id$`, and there is none iff no line matches. |
| DocumentationTemplate.NoParametersNotice | lib/wrappix/templates/documentation.rb:113-126 | The no-parameters notice appears iff the example call has no arguments, and then it is the whole section. The path, query and body headings appear iff their kind of argument exists. |
| DocumentationTemplate.ResponseExampleIgnoresCollectionFlag | lib/wrappix/templates/documentation.rb:176-234 | The example depends on the endpoint name alone. It is a list exactly for the collection names, and agrees with the generated method unless `collection: true` is set. |
| DocumentationTemplate.DeclaredCollectionDocumentedOtherwise | lib/wrappix/templates/documentation.rb:176-234 | An endpoint `recent` with `collection: true` is documented as a generic response but returns a collection. |
| DocumentationTemplate.AuthDocs | lib/wrappix/templates/documentation.rb:39-77 | Without a scheme the notes are the no-authentication sentence. With a scheme they fail exactly when `api_name` is missing, and otherwise configure the documentation's module name. |
| DocumentationTemplate.AuthDocsSettings | lib/wrappix/templates/documentation.rb:39-77 | The snippet assigns only declared credentials without defaults. The api-key note names the configured header or `X-Api-Key`. |
| DocumentationTemplate.Render | lib/wrappix/templates/documentation.rb:6-37 | The document renders exactly when the authentication notes do. |
| DocumentationTemplate.TocLinksToSections | lib/wrappix/templates/documentation.rb:21-86 | Table-of-contents entry k links to the anchor that opens section k, and both follow resource order under `name.capitalize`. |
| DocumentationTemplate.EndpointSectionStates | lib/wrappix/templates/documentation.rb:97-161 | Each endpoint section gives the name, the upcased method (default GET), the joined url, and a call of the endpoint on its resource. |
| ReadmeTemplate.AuthInstructions | lib/wrappix/templates/readme.rb:98-119 | No scheme gives `# No authentication required`. Otherwise there is one `config.<attr> = "<value>"` line per setting. |
| ReadmeTemplate.AuthInstructionsUseDeclaredAttributes | lib/wrappix/templates/readme.rb:98-119 | The README assigns only attributes the configuration declares. The api-key header is the configured one or `X-Api-Key`. |
| ReadmeTemplate.UsageExamplesFirstEndpoints | lib/wrappix/templates/readme.rb:121-155 | The usage section calls the first endpoint of every resource that has endpoints, in order, and skips the others. |
| ReadmeTemplate.UsageArgsPerPlaceholder | lib/wrappix/templates/readme.rb:132-141 | A raw path with placeholders gets one `"123"` per placeholder, as many as the generated method's positional parameters. Without a `path` key no placeholder argument is passed. |
| ReadmeTemplate.UsageBlock | lib/wrappix/templates/readme.rb:125-127 | A resource's usage block is empty iff it has no endpoints. |
| ReadmeTemplate.EndpointEntryStates | lib/wrappix/templates/readme.rb:163-204 | Each entry gives the upcased method and the path. A path-parameters line appears iff the path contains `{`, and a query line appears iff the params flag is set. |
| ReadmeTemplate.NoPlaceholderInBraces | lib/wrappix/templates/readme.rb:175-178 | The path `a{}` contains `{`, so the path-parameters line is printed, but it has no placeholder, so the line lists nothing. |
| ReadmeTemplate.RenderInstallation | lib/wrappix/templates/readme.rb:7-37 | The gem lines use the api name verbatim, and configuration goes through the module name. The base url is the configured one or the default, and the auth lines follow. |
| TestsTemplate.ConfigTestsCheckWhatTheySet | lib/wrappix/templates/tests.rb:46-102 | The configuration test assigns declared attributes in declaration order (all but OAuth's access token). It checks only values it assigned, and checks nothing iff there is no scheme. |
| TestsTemplate.SettingsMatchInitialValues | lib/wrappix/templates/tests.rb:47-66 | The values the test assigns to defaulted settings equal the generated configuration's initial values. The api-key header defaults to `X-Api-Key`. |
| TestsTemplate.ClientTestsMatchAccessors | lib/wrappix/templates/tests.rb:104-117 | The client test expects, in order, exactly the accessors the generated client defines. |
| TestsTemplate.DefaultTestCaseShape | lib/wrappix/templates/tests.rb:147-173 | The default case maps each placeholder once to "123". Its params are non-empty iff the flag is set, its body is non-empty iff the method is post/put/patch, and its response has `data` iff the endpoint is a collection. |
| TestsTemplate.MethodNameSuffix | lib/wrappix/templates/tests.rb:178 | The suffix has the description's length and only `[a-z0-9_]`, mapping each character by lower-casing or replacing it with `_`. |
| TestsTemplate.MethodNameSuffixIdempotent | lib/wrappix/templates/tests.rb:178 | Normalising twice is normalising once, and a normal-form description is kept. |
| TestsTemplate.RelativeStubUrl | lib/wrappix/templates/tests.rb:192-202 | A substituted url that is not absolute http(s) is stubbed as is. |
| TestsTemplate.AbsoluteStubUrl | lib/wrappix/templates/tests.rb:198-202 | An absolute url loses its scheme, its host and the single slash after it. |
| TestsTemplate.GenerateTestMethod | lib/wrappix/templates/tests.rb:175-238 | A planned method exists iff the params and body have `any?`. It keeps the verb, calls `client.<resource>.<endpoint>`, and expects an error iff the status is at least 400. |
| TestsTemplate.GenerateTestMethodAsWritten | lib/wrappix/templates/tests.rb:175-272 | As written, no method is produced for a status of 400 or more. |
| TestsTemplate.CallArguments | lib/wrappix/templates/tests.rb:176-208 | The call passes the path values in order, then the params iff non-empty, then the body iff non-empty. It is named from the resource, the endpoint and the normalised description. |
| TestsTemplate.DefaultCaseMatchesSignature | lib/wrappix/templates/tests.rb:147-208 | The default case plans a call with as many arguments as the corrected method has parameters, the "123" values first. Against the method the template writes, it is short by exactly the number of repeated placeholder occurrences. |
| TestsTemplate.ErrorCaseAsWritten | lib/wrappix/templates/tests.rb:262-272 | Below 400 the template as written and the corrected plan agree. At 400 or more the corrected plan expects an error where the template raises, for example on a 404 case. |
| TestsTemplate.CaseTests | lib/wrappix/templates/tests.rb:132-145 | An endpoint's cases are planned one method each, in order, and planning fails iff one case fails. |
| TestsTemplate.EndpointWithoutTests | lib/wrappix/templates/tests.rb:138-156 | Without `tests`, one default test is planned. It has one argument per parameter of the corrected method, and is short of the template's method by the number of repeated placeholder occurrences. |
| TestsTemplate.RepeatedPlaceholderDefaultCase | lib/wrappix/templates/tests.rb:147-208 | For the path `{n}{n}` the default test passes the single argument `"123"`, while the template's method declares two parameters. |
| TestsTemplate.Render | lib/wrappix/templates/tests.rb:6-44 | The test file renders exactly when every per-resource plan succeeds, although the plans themselves are discarded. |
| TestsTemplate.RenderIgnoresResourceConfigs | lib/wrappix/templates/tests.rb:38-43 | The rendered test class depends on the resources only through their names. |
| TestsTemplate.RenderWithoutTestCases | lib/wrappix/templates/tests.rb:6-44 | A configuration without test cases always renders. |
| TestsTemplate.GenerateItemAssertions | lib/wrappix/templates/tests.rb:330-340 | A nil, non-Hash or empty item gives the placeholder comment. Otherwise there is one assertion per key, in order. |
| TestsTemplate.ItemAssertionsPerKey | lib/wrappix/templates/tests.rb:330-340 | The placeholder appears iff there is nothing to assert. A key gets `assert_not_nil` iff its value is a Hash or Array, and `assert_equal` with the inspected value otherwise. |
| Builder.BuildOrder | lib/wrappix/builder.rb:21-65 | The write order is configuration, client, request, error, the main file, one resource file per key in order, then the README. |
| Builder.AbsentResourcesStillWriteBase | lib/wrappix/builder.rb:40 | Without `resources`, no resource file is written, but the base files, the main file and the README still are. |
| Builder.BuildPaths | lib/wrappix/builder.rb:30-64 | Paths embed `api_name` verbatim: `lib/<api>/{configuration,client,request,error}.rb`, `lib/<api>.rb`, `lib/<api>/resources/<name>.rb` and `README.md`. |
| Builder.WrittenPathsExactly | lib/wrappix/builder.rb:21-65 | A path is written iff it is the README, the main file, a base file or a resource file. No other file, such as object, collection, cache, docs or tests, is written. |
| Builder.MainRequiresUnwrittenBaseFiles | lib/wrappix/builder.rb:29-35 | The main file requires version, object, collection and cache, and none of these files is written. |
| Builder.ResourceRequiresAreUnwritten | lib/wrappix/builder.rb:43 | The `<singular>_resource` file the main file requires is never written, while `resources/<name>.rb` is. |
| Builder.PathsKeepHyphens | lib/wrappix/builder.rb:30 | With a hyphenated api name, the underscored path is not written. |
| Builder.UsersExample | lib/wrappix/builder.rb:43 | A `users` resource is written to `lib/shop/resources/users.rb`, while the main file requires `shop/user`, which is not written. |
| BuildOutput.OneModuleName | lib/wrappix/builder.rb:18-64 | Every Ruby file opens `module <M>`, and the README configures `<M>`, for the one module name computed from the api name. |
| BuildOutput.ResourceFilesIgnoreGlobalFormat | lib/wrappix/templates/resource.rb:39 | Changing the global `response_format` changes neither the plan nor any resource file. |
| RuntimeRequest.HandleResponse | lib/wrappix/request.rb:52-62 | A status in 200..299 returns the response unchanged. Any other status raises an error that carries the body and status, with a truthy message. |
| RuntimeRequest.MessageChoice | lib/wrappix/request.rb:55-58 | For a Hash body the message is a truthy `:message`, else a truthy `:error`, else `Error <status>`. A non-Hash body always gives `Error <status>`. |
| RuntimeRequest.StringKeysAreNotRead | lib/wrappix/request.rb:56 | A body with the string key `"message"` still gives `Error 404`. |
| RuntimeRequest.NewError | lib/wrappix/request.rb:65-73 | `Error.new(msg)` keeps the message and leaves body and status nil. |
| RuntimeRequest.Message | lib/wrappix/request.rb:65-73 | The error's `message` is the constructor argument through `to_s`, or the class name `Wrappix::Error` when the argument is nil. |
| RuntimeRequest.RaisedMessageText | lib/wrappix/request.rb:52-62 | An error raised by `handle_response` reads as its chosen message through `to_s`, and as `Error <status>` for a body that is not a Hash. |
| RuntimeConfiguration.New | lib/wrappix/configuration.rb:8-13 | A new configuration has no base url, empty headers, timeout 30 and no resources. |
| RuntimeConfiguration.StoreThenGet | lib/wrappix/configuration.rb:16 | After a store the key reads back the new value, every other key reads as before, and keys stay unique. |
| RuntimeConfiguration.AddResource | lib/wrappix/configuration.rb:15-17 | Adding succeeds iff the name has `to_sym`, and leaves the base url, headers and timeout unchanged. |
| RuntimeConfiguration.AddResourceByName | lib/wrappix/configuration.rb:15-17 | A string and a symbol with the same text address the same entry, and re-adding overwrites only that entry. |
| RuntimeConfiguration.SetResourcesKeepsKeys | lib/wrappix/configuration.rb:19-23 | Assigning a hash never removes an existing key. |
| RuntimeConfiguration.SetResourcesRegistersEvery | lib/wrappix/configuration.rb:19-23 | Every name in an assigned hash ends up registered. |
| RuntimeConfiguration.SetResourcesStores | lib/wrappix/configuration.rb:15-23 | After assigning a hash, each key holds the options of the hash's last entry for it, whether named by string or symbol. A key the hash does not name keeps its value, and keys stay unique. |
| RuntimeConfiguration.SetResourcesFails | lib/wrappix/configuration.rb:15-23 | Assigning a hash raises exactly when one of its names has no `to_sym`. |
| RuntimeConfiguration.SetResourcesInPlace | lib/wrappix/configuration.rb:15-23 | The in-place loop raises exactly when `SetResources` fails, and otherwise leaves the same configuration. Base url, headers and timeout are never touched. |
| RuntimeConfiguration.InPlaceStopsAtFirstBadName | lib/wrappix/configuration.rb:15-23 | When the first name without `to_sym` is at position `j`, the loop raises there, and the configuration is what assigning the entries before `j` gives. |
| RuntimeConfiguration.PartialAssignmentStores | lib/wrappix/configuration.rb:15-23 | After a raising assignment, each key holds the options of its last entry before the bad name, or its old value, and keys stay unique. |
| RuntimeConfiguration.UsersKeptWhenLaterNameFails | lib/wrappix/configuration.rb:15-23 | `resources = {users: {}, 1 => {}}` raises at `1.to_sym` with `:users` already registered. |

## Left out

- Reading the YAML file, the working directory used as the default api name, and writing
  files and console output. The directory's base name is a parameter of `Builder.Build`,
  and the writes are the returned plan.
- The command line interface, the global configuration in `lib/wrappix.rb`, and the
  runtime client in `lib/wrappix/client.rb`. lib/wrappix/cli.rb is not part of this
  model.
- The Faraday connection of the library's request, and HTTP in general.
- The object, collection and cache templates are not part of this model. The error
  template is fixed text around the module name.
- Case mapping is ASCII only. Ruby's `upcase`, `downcase` and `capitalize` also map
  non-ASCII letters.
- Regex metacharacters in placeholder names and backslashes in `gsub` replacements. The
  splice lemmas require identifier-like names.
- Heredoc indentation and blank-line layout. Lines are compared as whole strings.
- `inspect` formats strings without escaping, which is enough for the values the test
  plan compares.
- The response assertions of the generated tests (tests.rb:274-328), including where they
  fail.
- `verify_request_env` in tests.rb, which no method calls.
- The rendered Ruby text of a planned test method. The plan is the `TestMethod` record.
- A resource whose configuration is nil (the template would raise), and an endpoint
  without a name. The model takes a resource configuration and a name to be present.
- RuntimeConfiguration.AddResourceDefault: has no contract of its own. It is
  `AddResource` with an empty hash.
- Builder.ResourceRequiresAreUnwritten: requires resource names without `/`. With
  slashes a required path can coincide with a written one.
- ResourceTemplate.Render: renders each endpoint with the corrected method, and so does
  the built resource file. For a path that repeats a placeholder, it declares
  `def show(id)` and requests `#{id}#{id}`, where the template writes `def show(id, id)` and
  `##{id}##{id}`. The two agree when no placeholder repeats
  (`ResourceTemplate.AsWrittenAgreesWithoutRepeats`).
- ResourceTemplate.DefinedMethods: states the corrected parameter lists.
  `ResourceTemplate.DefinedMethodsAsWritten` gives the template's lists when no placeholder
  repeats.
- TestsTemplate.Render: plans every case with the corrected `GenerateTestMethod`. A case
  with a status of 400 or more therefore renders, where the template raises NameError (see
  "## Findings"). Below 400 the two plans agree (`TestsTemplate.ErrorCaseAsWritten`).
  It also renders where the left-out response assertions raise. One example is a `list`
  case whose response body is an Array: `body["data"]` at tests.rb:298 raises TypeError.
  So "renders exactly when every plan succeeds" describes the model, not every input the
  template rejects.
- TestsTemplate.CaseTests: plans with the corrected `GenerateTestMethod`, for the same
  reason as `TestsTemplate.Render`.
- RuntimeConfiguration.AddResource: stores the options as a value. Ruby stores a
  reference to the caller's hash, so later changes to that hash show up in the registry.
  Object identity and mutation are not modelled. The same holds for `SetResources` and
  `SetResourcesInPlace`.
- Strings.Split: keeps trailing empty segments, which Ruby drops. The module name is
  unaffected because `"".capitalize` is empty.

## Findings

| source | as written | input that shows it | evidently intended | confidence | as-written member | corrected member |
|---|---|---|---|---|---|---|
| lib/wrappix/templates/resource.rb:45-64 | The placeholder list keeps repeats, so the method declares the same parameter twice. The `gsub` loop runs once per occurrence, and the second pass rewrites `#{a}` to `##{a}`. | an endpoint whose path names one identifier placeholder twice, e.g. `{a}{a}` | each placeholder is declared once and each site is spliced once | not executed | ResourceTemplate.EndpointMethodAsWritten, ResourceTemplate.RepeatedPlaceholderMethod, PathTemplate.RepeatedPlaceholderAsWritten | ResourceTemplate.EndpointMethod |
| lib/wrappix/templates/tests.rb:262-272 | The error branch calls `module_name`, which is not defined in that scope, so generating a test for a status of 400 or more raises NameError. | a test case whose response status is 404 (`TestsTemplate.NotFoundCase`) | the test expects the generated module's `Error` | not executed | TestsTemplate.GenerateTestMethodAsWritten, TestsTemplate.ErrorCaseAsWritten | TestsTemplate.GenerateTestMethod |
