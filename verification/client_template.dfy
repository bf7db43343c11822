/** The client file `lib/<api>/client.rb`: a `Client` class with one memoised accessor per
    resource. */
module ClientTemplate {
  import opened Pairs
  import opened Identifiers
  import opened Schema
  import opened Lines
  import ResourceTemplate

  /** `def <name>; @<name> ||= Resources::<Name>.new(self); end` */
  function Accessor(name: string): (block: seq<string>)
    ensures |block| == 3 && block[0] == "def " + name
  {
    [ "def " + name,
      "@" + name + " ||= Resources::" + ClassName(name) + ".new(self)",
      "end" ]
  }

  function Accessors(names: seq<string>): (blocks: seq<seq<string>>)
    ensures |blocks| == |names|
    ensures forall i :: 0 <= i < |names| ==> blocks[i] == Accessor(names[i])
  {
    seq(|names|, i requires 0 <= i < |names| => Accessor(names[i]))
  }

  /** `resource_methods`: the accessors joined by blank lines. */
  function ResourceMethods(cfg: Config): (lines: seq<string>)
    ensures ResourcesOf(cfg) == [] ==> lines == []
  {
    JoinBlocks(Accessors(Firsts(ResourcesOf(cfg))))
  }

  function Render(m: string, cfg: Config): seq<string>
  {
    [ "#" + " frozen_string_literal:" + " true",
      "",
      "module " + m,
      "class Client",
      "def" + " initialize(configuration" + " = " + m + ".configuration)",
      "@configuration =" + " configuration",
      "end",
      "" ]
      + ResourceMethods(cfg)
      + ["end", "end"]
  }

  lemma AccessorHeaded(name: string)
    ensures HeadedBy(Accessor(name), "def ")
  {
    var b := Accessor(name);
    assert b[1][0] == '@' && b[2][0] == 'e';
  }

  /** One accessor per resource key, in configuration order. */
  lemma AccessorsInOrder(cfg: Config)
    ensures var names := Firsts(ResourcesOf(cfg));
      var defs := LinesStartingWith(ResourceMethods(cfg), "def ");
      && |defs| == |names|
      && forall i :: 0 <= i < |names| ==> defs[i] == "def " + names[i]
  {
    var blocks := Accessors(Firsts(ResourcesOf(cfg)));
    forall i | 0 <= i < |blocks| ensures HeadedBy(blocks[i], "def ") {
      AccessorHeaded(Firsts(ResourcesOf(cfg))[i]);
    }
    HeadsOfJoinedBlocks(blocks, "def ");
  }

  /** The class an accessor instantiates is the class the resource's own file declares. */
  lemma AccessorInstantiatesResourceClass(m: string, name: string, rc: ResourceConfig)
    ensures Accessor(name)[1] == "@" + name + " ||= Resources::" + ClassName(name) + ".new(self)"
    ensures ResourceTemplate.Render(m, name, rc)[4] == "class " + ClassName(name)
  {
  }
}
