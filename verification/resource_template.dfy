/** The resource template: for each resource a class `Resources::<Name>` holding one
    method per endpoint, each of which builds a request path, calls one verb on a
    `Request` and wraps the response. */
module ResourceTemplate {
  import opened Wrappers
  import opened Strings
  import opened Identifiers
  import opened PathTemplate
  import opened Schema
  import opened Lines

  /** How a generated method wraps the parsed response. */
  datatype Transform = FromCollection | ItemAt(root: string) | WholeItem

  /** A generated endpoint method before rendering: `def name(params)`, the request path
      literal, the verb called on the request, its keyword arguments, the response wrap. */
  datatype MethodDef = MethodDef(
    name: string,
    params: seq<string>,
    requestPath: string,
    verb: string,
    requestArgs: seq<string>,
    transform: Transform)

  /** An optional parameter with an empty-hash default, and its forwarding as a keyword. */
  function Defaulted(n: string): string { n + " = {}" }
  function Forwarded(n: string): string { n + ": " + n }

  /** The parameter list: the positional names, then `params = {}` when the endpoint takes
      query parameters, then `body = {}` when its verb sends a body. */
  function SignatureParams(positional: seq<string>, e: Endpoint): seq<string>
  {
    positional
      + (if e.params then [Defaulted("params")] else [])
      + (if IsBodyVerb(MethodOf(e)) then [Defaulted("body")] else [])
  }

  /** The keyword arguments passed to the request verb. */
  function RequestArgs(e: Endpoint): seq<string>
  {
    (if e.params then [Forwarded("params")] else [])
      + (if IsBodyVerb(MethodOf(e)) then [Forwarded("body")] else [])
  }

  /** The text after `request.<verb>`: nothing at all when there are no arguments. */
  function RequestOptions(args: seq<string>): (r: string)
    ensures r == "" <==> |args| == 0
    ensures |args| > 0 ==> |r| >= 2 && r[0] == '(' && r[|r| - 1] == ')' && r[1..|r| - 1] == Join(args, ", ")
  {
    if |args| == 0 then "" else "(" + Join(args, ", ") + ")"
  }

  /** The response wrap: a collection by the collection rule, else the resource's own
      `item_root`, else the whole response. */
  function TransformOf(e: Endpoint, rc: ResourceConfig): Transform
  {
    if IsCollection(e) then FromCollection
    else match ItemRootOf(rc)
      case Some(root) => ItemAt(root)
      case None => WholeItem
  }

  /** `line` starts with the constant path `m::`. */
  predicate Qualified(line: string, m: string)
  {
    |line| > |m| && line[..|m|] == m && line[|m|] == ':'
  }

  /** `M::Collection.from_response(response, type: M::Object)` */
  function CollectionLine(m: string): (line: string)
    ensures Qualified(line, m)
  {
    m + ("::" + ("Collection.from_response(response," + " type: " + m + "::Object)"))
  }

  /** `M::Object.new(response[:r] || response["r"] || response)` */
  function ItemLine(m: string, root: string): (line: string)
    ensures Qualified(line, m)
  {
    m + ("::" + ("Object.new(response[:" + root + "] || response[\"" + root + "\"] || response)"))
  }

  /** `M::Object.new(response)` */
  function WholeLine(m: string): (line: string)
    ensures Qualified(line, m)
  {
    m + "::Object.new(response)"
  }

  function TransformLine(m: string, t: Transform): (line: string)
    ensures Qualified(line, m)
  {
    match t
    case FromCollection => CollectionLine(m)
    case ItemAt(root) => ItemLine(m, root)
    case WholeItem => WholeLine(m)
  }

  /** The method as the template writes it: every placeholder occurrence becomes a
      positional parameter and the path is rewritten by one `gsub` per occurrence. */
  function EndpointMethodAsWritten(e: Endpoint, rc: ResourceConfig): MethodDef
  {
    var path := PathOf(e);
    MethodDef(e.name, SignatureParams(Placeholders(path), e), InterpolateAsWritten(path),
              MethodOf(e), RequestArgs(e), TransformOf(e, rc))
  }

  /** The method with each placeholder name taken once, in order of first occurrence, and
      every placeholder site spliced once. */
  function EndpointMethod(e: Endpoint, rc: ResourceConfig): (d: MethodDef)
    ensures d.name == e.name
    ensures |d.params| == |Distinct(Placeholders(PathOf(e)))| + |d.requestArgs|
    ensures NoDuplicates(d.params[..|d.params| - |d.requestArgs|])
    ensures SetOf(d.params[..|d.params| - |d.requestArgs|]) == SetOf(Placeholders(PathOf(e)))
  {
    var path := PathOf(e);
    var positional := Distinct(Placeholders(path));
    var d := MethodDef(e.name, SignatureParams(positional, e), Interpolate(path),
                       MethodOf(e), RequestArgs(e), TransformOf(e, rc));
    assert d.params[..|positional|] == positional;
    d
  }

  /** The corrected method takes one parameter per distinct placeholder, plus `params` and
      `body` as the endpoint takes them. */
  lemma CorrectedParamCount(e: Endpoint, rc: ResourceConfig)
    ensures |EndpointMethod(e, rc).params| == |Distinct(Placeholders(PathOf(e)))|
      + (if e.params then 1 else 0) + (if IsBodyVerb(MethodOf(e)) then 1 else 0)
  {
    assert EndpointMethod(e, rc).requestArgs == RequestArgs(e);
  }

  /** The positional parameters come first and unchanged; `params = {}` is present exactly
      when the endpoint takes query parameters and `body = {}` exactly for a body verb,
      `body` last. A placeholder can never look like either, since it holds no `}`. */
  lemma SignatureLayout(positional: seq<string>, e: Endpoint)
    requires forall k :: 0 <= k < |positional| ==> '}' !in positional[k]
    ensures var r := SignatureParams(positional, e);
      && r[..|positional|] == positional
      && |r| == |positional| + |RequestArgs(e)|
      && (Defaulted("params") in r <==> e.params)
      && (Defaulted("body") in r <==> IsBodyVerb(MethodOf(e)))
      && (IsBodyVerb(MethodOf(e)) ==> r[|r| - 1] == Defaulted("body"))
  {
    var r := SignatureParams(positional, e);
    assert '}' in Defaulted("params") && '}' in Defaulted("body") by {
      assert Defaulted("params")[10] == '}' && Defaulted("body")[8] == '}';
    }
    assert r[..|positional|] == positional;
    assert Defaulted("params") !in positional && Defaulted("body") !in positional;
  }

  /** Every optional parameter of the signature is forwarded to the verb under its own
      name, in the same order, and nothing else is forwarded. */
  lemma OptionsForwardSignature(positional: seq<string>, e: Endpoint)
    ensures |SignatureParams(positional, e)| == |positional| + |RequestArgs(e)|
    ensures forall i :: 0 <= i < |RequestArgs(e)| ==>
      (RequestArgs(e)[i] == Forwarded("params") && SignatureParams(positional, e)[|positional| + i] == Defaulted("params"))
      || (RequestArgs(e)[i] == Forwarded("body") && SignatureParams(positional, e)[|positional| + i] == Defaulted("body"))
  {
  }

  /** A collection endpoint wraps its response the same way whatever the resource's
      `response_format` says. */
  lemma CollectionsIgnoreResponseFormat(m: string, e: Endpoint, rc1: ResourceConfig, rc2: ResourceConfig)
    requires IsCollection(e)
    ensures TransformOf(e, rc1) == TransformOf(e, rc2) == FromCollection
    ensures TransformLine(m, TransformOf(e, rc1)) == CollectionLine(m)
  {
  }

  /** A single-item endpoint reads only the resource's own `item_root`. */
  lemma ItemsReadOnlyItemRoot(e: Endpoint, rc1: ResourceConfig, rc2: ResourceConfig)
    requires !IsCollection(e) && ItemRootOf(rc1) == ItemRootOf(rc2)
    ensures TransformOf(e, rc1) == TransformOf(e, rc2)
    ensures TransformOf(e, rc1) == WholeItem <==> ItemRootOf(rc1).None?
  {
  }

  /** With distinct identifier placeholders the template's method is the corrected one. */
  lemma AsWrittenAgreesWithoutRepeats(e: Endpoint, rc: ResourceConfig)
    requires forall n :: n in Placeholders(PathOf(e)) ==> IsIdentifier(n)
    requires NoDuplicates(Placeholders(PathOf(e)))
    ensures EndpointMethodAsWritten(e, rc) == EndpointMethod(e, rc)
  {
    PathTemplate.AsWrittenAgreesWithoutRepeats(PathOf(e));
  }

  /** The signature, for a body flag known to agree with the endpoint's verb. */
  lemma SignatureOfFlags(positional: seq<string>, e: Endpoint, body: bool)
    requires body == IsBodyVerb(MethodOf(e))
    ensures SignatureParams(positional, e)
      == positional + ((if e.params then [Defaulted("params")] else []) + (if body then [Defaulted("body")] else []))
  {
  }

  lemma AsWrittenParams(e: Endpoint, rc: ResourceConfig)
    ensures EndpointMethodAsWritten(e, rc).params == SignatureParams(Placeholders(PathOf(e)), e)
  {
  }

  /** The template's method declares one more parameter than the corrected method for
      every repeated placeholder occurrence, and the same optional parameters. */
  lemma AsWrittenParamCount(e: Endpoint, rc: ResourceConfig)
    ensures |EndpointMethodAsWritten(e, rc).params| + |Distinct(Placeholders(PathOf(e)))|
         == |EndpointMethod(e, rc).params| + |Placeholders(PathOf(e))|
  {
    OptionsForwardSignature(Placeholders(PathOf(e)), e);
  }

  /** A path naming one placeholder twice, such as `{a}{a}`: the template declares the
      parameter twice (`def show(a, a)`, which Ruby rejects) and its second `gsub` pass turns
      `#{a}` into `##{a}`; the corrected method declares `a` once and splices each site once. */
  lemma RepeatedPlaceholderMethod(n: string, rc: ResourceConfig)
    requires IsIdentifier(n)
    ensures var e := Endpoint("show", None, Some(Brace(n) + Brace(n)), false, None, None, None);
      && EndpointMethodAsWritten(e, rc).params == [n, n]
      && EndpointMethodAsWritten(e, rc).requestPath == "#" + Splice(n) + "#" + Splice(n)
      && EndpointMethod(e, rc).params == [n]
      && EndpointMethod(e, rc).requestPath == Splice(n) + Splice(n)
  {
    var e := Endpoint("show", None, Some(Brace(n) + Brace(n)), false, None, None, None);
    RepeatedPlaceholderAsWritten(n);
    PlainGetSignature(e, [n, n]);
    PlainGetSignature(e, [n]);
    DistinctOfRepeated(n);
  }

  lemma PlainGetSignature(e: Endpoint, positional: seq<string>)
    requires e.verb.None? && !e.params
    ensures SignatureParams(positional, e) == positional
  {
    assert !IsBodyVerb(MethodOf(e));
  }

  lemma DistinctOfRepeated(n: string)
    ensures Distinct([n, n]) == [n]
  {
    assert [n, n][..1] == [n];
    assert NoDuplicates([n]);
  }

  /** One endpoint method as lines. */
  function RenderMethod(m: string, d: MethodDef): (lines: seq<string>)
    ensures |lines| == 6
  {
    [ "def " + d.name + "(" + Join(d.params, ", ") + ")",
      "request = " + m + "::Request.new(\"" + d.requestPath + "\")",
      "response = request." + d.verb + RequestOptions(d.requestArgs),
      "",
      TransformLine(m, d.transform),
      "end" ]
  }

  /** The module name is empty or starts with something other than a lower-case letter. */
  predicate ConstantLike(m: string)
  {
    m == "" || !IsLower(m[0])
  }

  lemma RenderMethodHeaded(m: string, d: MethodDef)
    requires ConstantLike(m)
    ensures HeadedBy(RenderMethod(m, d), "def ")
  {
    var lines := RenderMethod(m, d);
    var t := TransformLine(m, d.transform);
    assert Qualified(t, m);
    if m != "" {
      assert t[0] == t[..|m|][0] == m[0];
    }
    assert lines[1][0] == 'r' && lines[2][0] == 'r' && lines[5][0] == 'e';
  }

  function Methods(eps: seq<Endpoint>, rc: ResourceConfig): (ds: seq<MethodDef>)
    ensures |ds| == |eps|
    ensures forall i :: 0 <= i < |eps| ==> ds[i] == EndpointMethod(eps[i], rc)
  {
    seq(|eps|, i requires 0 <= i < |eps| => EndpointMethod(eps[i], rc))
  }

  function MethodBlocks(m: string, ds: seq<MethodDef>): (blocks: seq<seq<string>>)
    ensures |blocks| == |ds|
    ensures forall i :: 0 <= i < |ds| ==> blocks[i] == RenderMethod(m, ds[i])
  {
    seq(|ds|, i requires 0 <= i < |ds| => RenderMethod(m, ds[i]))
  }

  function Prologue(m: string, resourceName: string): (lines: seq<string>)
    ensures |lines| == 10
    ensures lines[4] == "class " + ClassName(resourceName)
  {
    [ "#" + " frozen_string_literal:" + " true",
      "",
      "module " + m,
      "module Resources",
      "class " + ClassName(resourceName),
      "def initialize(client)",
      "@client = client",
      "@config = " + m + ".configuration",
      "end",
      "" ]
  }

  const Epilogue: seq<string> := ["end", "end", "end"]

  /** The resource file: the class prologue, the endpoint methods separated by blank
      lines, and the three closing `end`s. */
  function Render(m: string, resourceName: string, rc: ResourceConfig): (lines: seq<string>)
    ensures |lines| >= 13
    ensures lines[4] == "class " + ClassName(resourceName)
    ensures EndpointsOf(rc) == [] ==> lines == Prologue(m, resourceName) + Epilogue
  {
    var blocks := MethodBlocks(m, Methods(EndpointsOf(rc), rc));
    Prologue(m, resourceName) + JoinBlocks(blocks) + Epilogue
  }

  /** Of the prologue, only the constructor line starts with `def `. */
  lemma PrologueDefines(m: string, resourceName: string)
    ensures LinesStartingWith(Prologue(m, resourceName), "def ") == ["def initialize(client)"]
  {
    var pro := Prologue(m, resourceName);
    assert pro[5] == "def initialize(client)";
    assert pro[0][0] == '#' && pro[1] == "" && pro[2][0] == 'm' && pro[3][0] == 'm' && pro[4][0] == 'c';
    assert pro[6][0] == '@' && pro[7][0] == '@' && pro[8][0] == 'e' && pro[9] == "";
    OnlyLineStartingWith(pro, 5, "def ");
  }

  lemma EpilogueDefinesNothing()
    ensures LinesStartingWith(Epilogue, "def ") == []
  {
    assert Epilogue[0][0] == Epilogue[1][0] == Epilogue[2][0] == 'e';
    NoLineStartingWith(Epilogue, "def ");
  }

  lemma MethodBlocksHeaded(m: string, ds: seq<MethodDef>)
    requires ConstantLike(m)
    ensures forall i :: 0 <= i < |ds| ==> HeadedBy(MethodBlocks(m, ds)[i], "def ")
  {
    forall i | 0 <= i < |ds| ensures HeadedBy(MethodBlocks(m, ds)[i], "def ") {
      RenderMethodHeaded(m, ds[i]);
    }
  }

  /** The `def` lines of a resource file are the constructor's and then exactly one per
      endpoint, in configuration order, each with that endpoint's name and parameters. */
  lemma {:induction false} DefinedMethods(m: string, resourceName: string, rc: ResourceConfig)
    requires ConstantLike(m)
    ensures var eps := EndpointsOf(rc);
      var defs := LinesStartingWith(Render(m, resourceName, rc), "def ");
      && |defs| == 1 + |eps|
      && defs[0] == "def initialize(client)"
      && forall i :: 0 <= i < |eps| ==>
           defs[i + 1] == "def " + eps[i].name + "(" + Join(EndpointMethod(eps[i], rc).params, ", ") + ")"
  {
    var eps := EndpointsOf(rc);
    var heads := Heads(MethodBlocks(m, Methods(eps, rc)));
    RenderDefs(m, resourceName, rc);
    MethodHeads(m, eps, rc);
    var defs := LinesStartingWith(Render(m, resourceName, rc), "def ");
    assert defs == ["def initialize(client)"] + heads;
    assert forall i :: 0 <= i < |heads| ==> defs[i + 1] == heads[i];
  }

  /** When no endpoint repeats a placeholder, the `def` lines carry the parameter lists the
      template itself writes. */
  lemma DefinedMethodsAsWritten(m: string, resourceName: string, rc: ResourceConfig)
    requires ConstantLike(m)
    requires forall i :: 0 <= i < |EndpointsOf(rc)| ==>
      NoDuplicates(Placeholders(PathOf(EndpointsOf(rc)[i])))
      && forall n :: n in Placeholders(PathOf(EndpointsOf(rc)[i])) ==> IsIdentifier(n)
    ensures var eps := EndpointsOf(rc);
      var defs := LinesStartingWith(Render(m, resourceName, rc), "def ");
      && |defs| == 1 + |eps|
      && forall i :: 0 <= i < |eps| ==>
           defs[i + 1] == "def " + eps[i].name + "(" + Join(EndpointMethodAsWritten(eps[i], rc).params, ", ") + ")"
  {
    var eps := EndpointsOf(rc);
    DefinedMethods(m, resourceName, rc);
    forall i | 0 <= i < |eps| ensures EndpointMethodAsWritten(eps[i], rc) == EndpointMethod(eps[i], rc) {
      AsWrittenAgreesWithoutRepeats(eps[i], rc);
    }
  }

  /** The heads of the method blocks declare the endpoints in order. */
  lemma {:induction false} MethodHeads(m: string, eps: seq<Endpoint>, rc: ResourceConfig)
    ensures var heads := Heads(MethodBlocks(m, Methods(eps, rc)));
      && |heads| == |eps|
      && forall i :: 0 <= i < |eps| ==>
           heads[i] == "def " + eps[i].name + "(" + Join(EndpointMethod(eps[i], rc).params, ", ") + ")"
  {
    var blocks := MethodBlocks(m, Methods(eps, rc));
    forall i | 0 <= i < |eps|
      ensures Heads(blocks)[i] == "def " + eps[i].name + "(" + Join(EndpointMethod(eps[i], rc).params, ", ") + ")"
    {
      MethodHead(m, eps[i], rc);
    }
  }

  /** The first line of an endpoint's method declares it under the endpoint's name. */
  lemma MethodHead(m: string, e: Endpoint, rc: ResourceConfig)
    ensures RenderMethod(m, EndpointMethod(e, rc))[0]
      == "def " + e.name + "(" + Join(EndpointMethod(e, rc).params, ", ") + ")"
  {
  }

  /** The `def` lines of a resource file are the constructor's followed by the heads of
      the method blocks. */
  lemma {:induction false} RenderDefs(m: string, resourceName: string, rc: ResourceConfig)
    requires ConstantLike(m)
    ensures LinesStartingWith(Render(m, resourceName, rc), "def ")
      == ["def initialize(client)"] + Heads(MethodBlocks(m, Methods(EndpointsOf(rc), rc)))
  {
    var blocks := MethodBlocks(m, Methods(EndpointsOf(rc), rc));
    var pro := Prologue(m, resourceName);
    MethodBlocksHeaded(m, Methods(EndpointsOf(rc), rc));
    HeadsOfJoinedBlocks(blocks, "def ");
    PrologueDefines(m, resourceName);
    EpilogueDefinesNothing();
    LinesStartingWithAppend(pro, JoinBlocks(blocks), "def ");
    LinesStartingWithAppend(pro + JoinBlocks(blocks), Epilogue, "def ");
  }

  /** `generate_response_transform`, which no caller reaches: it would read
      `collection_root` (default `data`) and `pagination.next_page_key` (default
      `next_href`) for collections. */
  function DeadResponseTransform(m: string, isCollection: bool, rf: ResponseFormat): seq<string>
  {
    if isCollection then
      var root := rf.collectionRoot.GetOr("data");
      var next := (match rf.pagination case None => None case Some(p) => p.nextPageKey).GetOr("next_href");
      [ "data = response[:" + root + "] || response[\"" + root + "\"] || []",
        "next_href = response[:" + next + "] || response[\"" + next + "\"]",
        "",
        m + "::Collection.from_response({",
        "data: data,",
        "next_href: next_href",
        "}, type: " + m + "::Object)" ]
    else
      match rf.itemRoot
      case Some(root) => [TransformLine(m, ItemAt(root))]
      case None => [TransformLine(m, WholeItem)]
  }

  /** The unused helper agrees with the live code on single items and differs from it on
      every collection. */
  lemma DeadTransformVersusLive(m: string, e: Endpoint, rc: ResourceConfig)
    ensures !IsCollection(e) ==> DeadResponseTransform(m, false, FormatOf(rc)) == [TransformLine(m, TransformOf(e, rc))]
    ensures IsCollection(e) ==> DeadResponseTransform(m, true, FormatOf(rc)) != [TransformLine(m, TransformOf(e, rc))]
  {
  }

  /** Since only the unused helper reads them, `collection_root` and `pagination` leave the
      resource file unchanged. */
  lemma RenderIgnoresCollectionSettings(m: string, resourceName: string, rc: ResourceConfig, root: Option<string>, p: Option<Pagination>)
    ensures var rc2 := rc.(responseFormat := Some(FormatOf(rc).(collectionRoot := root, pagination := p)));
      Render(m, resourceName, rc2) == Render(m, resourceName, rc)
  {
    var rc2 := rc.(responseFormat := Some(FormatOf(rc).(collectionRoot := root, pagination := p)));
    assert EndpointsOf(rc2) == EndpointsOf(rc);
    assert Methods(EndpointsOf(rc2), rc2) == Methods(EndpointsOf(rc), rc);
  }
}
