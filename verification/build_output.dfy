/** The files the write plan produces: each template rendered with the module name computed
    once from the api name and with the whole configuration. */
module BuildOutput {
  import opened Wrappers
  import opened Identifiers
  import opened Schema
  import opened Builder
  import ConfigurationTemplate
  import ClientTemplate
  import RequestTemplate
  import MainTemplate
  import ResourceTemplate
  import ReadmeTemplate

  /** The error class file: fixed text around the module name. */
  function ErrorRender(m: string): (lines: seq<string>)
    ensures |lines| == 12 && lines[2] == "module " + m
  {
    [ "#" + " frozen_string_literal:" + " true",
      "",
      "module " + m,
      "class Error <" + " StandardError",
      "attr_reader :body," + " :status",
      "def" + " initialize(message," + " body = nil, status" + " = nil)",
      "@body = body",
      "@status = status",
      "super(message)",
      "end",
      "end",
      "end" ]
  }

  /** What a write puts in its file, given the api name, the module name and the
      configuration every template receives. */
  function Render(t: Template, api: string, m: string, cfg: Config): seq<string>
  {
    match t
    case ConfigurationFile => ConfigurationTemplate.Render(m, cfg)
    case ClientFile => ClientTemplate.Render(m, cfg)
    case RequestFile => RequestTemplate.Render(m, cfg)
    case ErrorFile => ErrorRender(m)
    case MainFile => MainTemplate.Render(api, m, cfg)
    case ResourceFile(name, rc) => ResourceTemplate.Render(m, name, rc)
    case ReadmeFile => ReadmeTemplate.Render(api, m, cfg)
  }

  /** The contents of the plan's files in write order, all rendered with the module name
      computed once from the api name. */
  function Contents(cfg: Config, cwdBase: string): (cs: seq<seq<string>>)
    ensures |cs| == |Build(cfg, cwdBase)|
  {
    var plan, api := Build(cfg, cwdBase), ApiName(cfg, cwdBase);
    seq(|plan|, i requires 0 <= i < |plan| => Render(plan[i].template, api, ModuleName(api), cfg))
  }

  /** Where a Ruby file other than the main file opens its module: after the two requires
      in the request file, after the magic comment elsewhere. */
  function ModuleLineIndex(t: Template): nat
  {
    if t == RequestFile then 5 else 2
  }

  /** Each template other than the main file and the README opens `module <m>`. */
  lemma OpensModule(t: Template, api: string, m: string, cfg: Config)
    requires t != MainFile && t != ReadmeFile
    ensures ModuleLineIndex(t) < |Render(t, api, m, cfg)|
    ensures Render(t, api, m, cfg)[ModuleLineIndex(t)] == "module " + m
  {
    match t
    case ConfigurationFile => ConfigurationOpensModule(m, cfg);
    case ClientFile => ClientOpensModule(m, cfg);
    case RequestFile => RequestOpensModule(m, cfg);
    case ErrorFile =>
    case ResourceFile(name, rc) => ResourceOpensModule(m, name, rc);
  }

  lemma ConfigurationOpensModule(m: string, cfg: Config)
    ensures ConfigurationTemplate.Render(m, cfg)[2] == "module " + m
  {
  }

  lemma ClientOpensModule(m: string, cfg: Config)
    ensures |ClientTemplate.Render(m, cfg)| > 2 && ClientTemplate.Render(m, cfg)[2] == "module " + m
  {
  }

  lemma RequestOpensModule(m: string, cfg: Config)
    ensures |RequestTemplate.Render(m, cfg)| > 5 && RequestTemplate.Render(m, cfg)[5] == "module " + m
  {
  }

  lemma ResourceOpensModule(m: string, name: string, rc: ResourceConfig)
    ensures ResourceTemplate.Render(m, name, rc)[2] == "module " + m
  {
    assert ResourceTemplate.Render(m, name, rc)[2] == ResourceTemplate.Prologue(m, name)[2];
  }

  function ContentAt(cfg: Config, cwdBase: string, k: nat): (c: seq<string>)
    requires k < |Build(cfg, cwdBase)|
    ensures c == Render(Build(cfg, cwdBase)[k].template, ApiName(cfg, cwdBase), ModuleName(ApiName(cfg, cwdBase)), cfg)
  {
    Contents(cfg, cwdBase)[k]
  }

  /** Every file is rendered with the one module name derived from the api name: each Ruby
      file opens `module <M>`, the main file's wiring opens it too, and the README
      configures `<M>`. */
  lemma OneModuleName(cfg: Config, cwdBase: string)
    ensures var cs, api := Contents(cfg, cwdBase), ApiName(cfg, cwdBase);
      var plan, mod := Build(cfg, cwdBase), "module " + ModuleName(api);
      && (forall i :: 0 <= i < |cs| - 1 && i != 4 ==>
            ModuleLineIndex(plan[i].template) < |cs[i]| && cs[i][ModuleLineIndex(plan[i].template)] == mod)
      && |cs[4]| >= 13 && cs[4][|cs[4]| - 13] == mod
      && |cs[|cs| - 1]| > 13 && cs[|cs| - 1][13] == ModuleName(api) + ".configure do |config|"
  {
    var plan, cs, api := Build(cfg, cwdBase), Contents(cfg, cwdBase), ApiName(cfg, cwdBase);
    var m := ModuleName(api);
    forall i | 0 <= i < |cs| - 1 && i != 4
      ensures ModuleLineIndex(plan[i].template) < |cs[i]| && cs[i][ModuleLineIndex(plan[i].template)] == "module " + m
    {
      FileOpensModule(cfg, cwdBase, i);
      assert cs[i] == ContentAt(cfg, cwdBase, i);
    }
    MainModuleLine(cfg, cwdBase);
    ReadmeModuleLine(cfg, cwdBase);
  }

  lemma FileOpensModule(cfg: Config, cwdBase: string, i: nat)
    requires i < |Build(cfg, cwdBase)| - 1 && i != 4
    ensures var plan, api := Build(cfg, cwdBase), ApiName(cfg, cwdBase);
      var c := ContentAt(cfg, cwdBase, i);
      ModuleLineIndex(plan[i].template) < |c| && c[ModuleLineIndex(plan[i].template)] == "module " + ModuleName(api)
  {
    var plan, api := Build(cfg, cwdBase), ApiName(cfg, cwdBase);
    assert plan[i].template != MainFile && plan[i].template != ReadmeFile;
    OpensModule(plan[i].template, api, ModuleName(api), cfg);
  }

  lemma ReadmeRender(api: string, m: string, cfg: Config)
    ensures Render(ReadmeFile, api, m, cfg) == ReadmeTemplate.Render(api, m, cfg)
  {
  }

  lemma MainRender(api: string, m: string, cfg: Config)
    ensures Render(MainFile, api, m, cfg) == MainTemplate.Render(api, m, cfg)
  {
  }

  lemma MainModuleLine(cfg: Config, cwdBase: string)
    ensures var cs, api := Contents(cfg, cwdBase), ApiName(cfg, cwdBase);
      |cs[4]| >= 13 && cs[4][|cs[4]| - 13] == "module " + ModuleName(api)
  {
    var cs, api := Contents(cfg, cwdBase), ApiName(cfg, cwdBase);
    var m := ModuleName(api);
    assert Build(cfg, cwdBase)[4].template == MainFile;
    MainRender(api, m, cfg);
    assert cs[4] == ContentAt(cfg, cwdBase, 4);
    MainTemplate.RenderLayout(api, m, cfg);
    assert cs[4][|cs[4]| - 13] == MainTemplate.Wiring(m)[0];
  }

  lemma ReadmeModuleLine(cfg: Config, cwdBase: string)
    ensures var cs, api := Contents(cfg, cwdBase), ApiName(cfg, cwdBase);
      |cs[|cs| - 1]| > 13 && cs[|cs| - 1][13] == ModuleName(api) + ".configure do |config|"
  {
    var cs, api := Contents(cfg, cwdBase), ApiName(cfg, cwdBase);
    var m := ModuleName(api);
    assert Build(cfg, cwdBase)[|cs| - 1].template == ReadmeFile;
    ReadmeRender(api, m, cfg);
    var c := ContentAt(cfg, cwdBase, |cs| - 1);
    assert cs[|cs| - 1] == c;
    assert c == ReadmeTemplate.Render(api, m, cfg);
    ReadmeTemplate.RenderInstallation(api, m, cfg);
  }

  /** The resource files are rendered from each resource's own configuration: the global
      `response_format` changes neither the plan nor any resource file. */
  lemma ResourceFilesIgnoreGlobalFormat(cfg: Config, cwdBase: string, f: Option<ResponseFormat>)
    ensures Build(cfg.(responseFormat := f), cwdBase) == Build(cfg, cwdBase)
    ensures var cs, cs2 := Contents(cfg, cwdBase), Contents(cfg.(responseFormat := f), cwdBase);
      forall i :: 5 <= i < |cs| - 1 ==> cs2[i] == cs[i]
  {
    var cfg2 := cfg.(responseFormat := f);
    assert ResourcesOf(cfg2) == ResourcesOf(cfg);
    assert ApiName(cfg2, cwdBase) == ApiName(cfg, cwdBase);
  }

}
