/** The main file `lib/<api>.rb`: the requires of the gem's files, then the module with its
    `configure` entry point and default cache and configuration. */
module MainTemplate {
  import opened Pairs
  import opened Identifiers
  import opened Schema

  function RequireLine(target: string): string
  {
    "require_relative \"" + target + "\""
  }

  /** The files every main file requires, in this order, under `<api>/`. */
  const BaseFiles: seq<string> := ["version", "configuration", "error", "request", "object", "collection", "cache"]

  /** The require targets of the base files; the api name is used as given. */
  function BaseTargets(apiName: string): (ts: seq<string>)
    ensures |ts| == |BaseFiles|
    ensures forall i :: 0 <= i < |BaseFiles| ==> ts[i] == apiName + "/" + BaseFiles[i]
  {
    seq(|BaseFiles|, i requires 0 <= i < |BaseFiles| => apiName + "/" + BaseFiles[i])
  }

  /** Two targets per resource, in resource order: `<api>/<singular>` and then
      `<api>/<singular>_resource`. */
  function ResourceTargets(apiName: string, names: seq<string>): (ts: seq<string>)
    ensures |ts| == 2 * |names|
    ensures forall i :: 0 <= i < |names| ==>
      ts[2 * i] == apiName + "/" + Singular(names[i])
      && ts[2 * i + 1] == apiName + "/" + Singular(names[i]) + "_resource"
  {
    if |names| == 0 then []
    else
      var stem := apiName + "/" + Singular(names[0]);
      var rest := ResourceTargets(apiName, names[1..]);
      assert forall i :: 1 <= i < |names| ==> names[i] == names[1..][i - 1];
      [stem, stem + "_resource"] + rest
  }

  function RequireLines(targets: seq<string>): (lines: seq<string>)
    ensures |lines| == |targets|
    ensures forall i :: 0 <= i < |targets| ==> lines[i] == RequireLine(targets[i])
  {
    seq(|targets|, i requires 0 <= i < |targets| => RequireLine(targets[i]))
  }

  /** The module body: accessors for configuration, cache and customer id, a `configure`
      that creates the configuration on first use, yields it when given a block and returns
      the module, and the default memory cache and configuration. */
  function Wiring(m: string): seq<string>
  {
    [ "module " + m,
      "class << self",
      "attr_accessor" + " :configuration," + " :cache," + " :customer_id",
      "def configure",
      "self.configuration" + " ||=" + " Configuration.new",
      "yield(configuration)" + " if block_given?",
      "self",
      "end",
      "end",
      "# Default to" + " memory cache",
      "self.cache =" + " MemoryCache.new",
      "self.configuration =" + " Configuration.new",
      "end" ]
  }

  /** Every require target of the main file, in order. */
  function Targets(apiName: string, cfg: Config): (ts: seq<string>)
    ensures |ts| == |BaseFiles| + 2 * |ResourcesOf(cfg)|
  {
    BaseTargets(apiName) + ResourceTargets(apiName, Firsts(ResourcesOf(cfg)))
  }

  function Render(apiName: string, m: string, cfg: Config): (lines: seq<string>)
    ensures |lines| == 4 + |Targets(apiName, cfg)| + 1 + |Wiring(m)|
  {
    ["#" + " frozen_string_literal:" + " true", ""]
      + RequireLines(BaseTargets(apiName))
      + ["", "# Resources"]
      + RequireLines(ResourceTargets(apiName, Firsts(ResourcesOf(cfg))))
      + [""]
      + Wiring(m)
  }

  /** The main file's parts in order: the seven base requires, two requires per resource,
      and the module wiring, which no configuration changes. */
  lemma RenderLayout(apiName: string, m: string, cfg: Config)
    ensures var lines := Render(apiName, m, cfg);
      var names := Firsts(ResourcesOf(cfg));
      var k := 4 + |BaseFiles|;
      && (forall i :: 0 <= i < |BaseFiles| ==> lines[2 + i] == RequireLine(apiName + "/" + BaseFiles[i]))
      && (forall i :: 0 <= i < |names| ==>
            lines[k + 2 * i] == RequireLine(apiName + "/" + Singular(names[i]))
            && lines[k + 2 * i + 1] == RequireLine(apiName + "/" + Singular(names[i]) + "_resource"))
      && lines[|lines| - |Wiring(m)|..] == Wiring(m)
  {
    var names := Firsts(ResourcesOf(cfg));
    var base := RequireLines(BaseTargets(apiName));
    var res := RequireLines(ResourceTargets(apiName, names));
    var lines := Render(apiName, m, cfg);
    var pre := ["#" + " frozen_string_literal:" + " true", ""] + base + ["", "# Resources"];
    var head := pre + res + [""];
    assert lines == head + Wiring(m);
    assert lines[|lines| - |Wiring(m)|..] == Wiring(m);
    var k := 4 + |BaseFiles|;
    assert |pre| == k;
    forall i | 0 <= i < |BaseFiles|
      ensures lines[2 + i] == RequireLine(apiName + "/" + BaseFiles[i])
    {
      assert lines[2 + i] == head[2 + i] == pre[2 + i] == base[i];
    }
    forall i | 0 <= i < |names|
      ensures lines[k + 2 * i] == RequireLine(apiName + "/" + Singular(names[i]))
      ensures lines[k + 2 * i + 1] == RequireLine(apiName + "/" + Singular(names[i]) + "_resource")
    {
      assert lines[k + 2 * i] == head[k + 2 * i] == res[2 * i];
      assert lines[k + 2 * i + 1] == head[k + 2 * i + 1] == res[2 * i + 1];
    }
  }

  /** The requires of the version, object, collection and cache files, at their fixed lines. */
  lemma SupportRequires(apiName: string, m: string, cfg: Config)
    ensures var lines := Render(apiName, m, cfg);
      && lines[2] == RequireLine(apiName + "/version")
      && lines[6] == RequireLine(apiName + "/object")
      && lines[7] == RequireLine(apiName + "/collection")
      && lines[8] == RequireLine(apiName + "/cache")
  {
    var pre := ["#" + " frozen_string_literal:" + " true", ""] + RequireLines(BaseTargets(apiName));
    var lines := Render(apiName, m, cfg);
    assert lines[..|pre|] == pre;
    assert lines[2] == pre[2] && lines[6] == pre[6] && lines[7] == pre[7] && lines[8] == pre[8];
  }

  /** Without resources the resource block is empty and only the base files are required. */
  lemma NoResourcesNoResourceRequires(apiName: string, cfg: Config)
    requires ResourcesOf(cfg) == []
    ensures Targets(apiName, cfg) == BaseTargets(apiName)
  {
    assert ResourceTargets(apiName, []) == [];
  }
}
