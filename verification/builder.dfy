/** The generator's write plan: which files `build` writes, in which order, and with which
    template's output. Writing is not modelled; the plan is the ordered list of writes. */
module Builder {
  import opened Pairs
  import opened Wrappers
  import opened Strings
  import opened Identifiers
  import opened Schema
  import MainTemplate

  /** The template a write renders; a resource file carries its resource's name and
      configuration. */
  datatype Template =
    | ConfigurationFile
    | ClientFile
    | RequestFile
    | ErrorFile
    | MainFile
    | ResourceFile(name: string, rc: ResourceConfig)
    | ReadmeFile

  /** One `create_file` call: where, and which template's output. */
  datatype FileWrite = FileWrite(path: string, template: Template)

  /** `api_name`, or the base name of the working directory when the configuration has
      none; the directory name is a parameter because reading it is I/O. */
  function ApiName(cfg: Config, cwdBase: string): string
  {
    cfg.apiName.GetOr(cwdBase)
  }

  /** The directory every library file is written under: `lib/<api>/`. */
  function LibDir(api: string): string
  {
    "lib/" + api + "/"
  }

  function MainPath(api: string): string
  {
    "lib/" + api + ".rb"
  }

  const ReadmePath: string := "README.md"

  /** The file names written directly under the library directory, in write order. */
  const BaseTails: seq<string> := ["configuration.rb", "client.rb", "request.rb", "error.rb"]

  function ResourceTail(name: string): string
  {
    "resources/" + name + ".rb"
  }

  /** Every file name written under the library directory. */
  function WrittenTails(names: seq<string>): (ts: seq<string>)
    ensures |ts| == |BaseTails| + |names|
    ensures ts[..|BaseTails|] == BaseTails
    ensures forall i :: 0 <= i < |names| ==> ts[|BaseTails| + i] == ResourceTail(names[i])
  {
    BaseTails + seq(|names|, i requires 0 <= i < |names| => ResourceTail(names[i]))
  }

  /** The four base files and then the main file. */
  function BaseWrites(api: string): (ws: seq<FileWrite>)
    ensures |ws| == 5
  {
    [ FileWrite(LibDir(api) + BaseTails[0], ConfigurationFile),
      FileWrite(LibDir(api) + BaseTails[1], ClientFile),
      FileWrite(LibDir(api) + BaseTails[2], RequestFile),
      FileWrite(LibDir(api) + BaseTails[3], ErrorFile),
      FileWrite(MainPath(api), MainFile) ]
  }

  /** One write per resource, in the resources' order. */
  function ResourceWrites(api: string, rs: seq<(string, ResourceConfig)>): (ws: seq<FileWrite>)
    ensures |ws| == |rs|
    ensures forall i :: 0 <= i < |rs| ==>
      ws[i] == FileWrite(LibDir(api) + ResourceTail(rs[i].0), ResourceFile(rs[i].0, rs[i].1))
  {
    seq(|rs|, i requires 0 <= i < |rs| => FileWrite(LibDir(api) + ResourceTail(rs[i].0), ResourceFile(rs[i].0, rs[i].1)))
  }

  /** `build`: the base files and main file, the resource files, then the README. An
      absent `resources` is an empty mapping. */
  function Build(cfg: Config, cwdBase: string): seq<FileWrite>
  {
    var api := ApiName(cfg, cwdBase);
    BaseWrites(api) + ResourceWrites(api, ResourcesOf(cfg)) + [FileWrite(ReadmePath, ReadmeFile)]
  }

  function Paths(ws: seq<FileWrite>): (ps: seq<string>)
    ensures |ps| == |ws|
    ensures forall i :: 0 <= i < |ws| ==> ps[i] == ws[i].path
  {
    seq(|ws|, i requires 0 <= i < |ws| => ws[i].path)
  }

  function Templates(ws: seq<FileWrite>): (ts: seq<Template>)
    ensures |ts| == |ws|
    ensures forall i :: 0 <= i < |ws| ==> ts[i] == ws[i].template
  {
    seq(|ws|, i requires 0 <= i < |ws| => ws[i].template)
  }

  function ResourceFiles(rs: seq<(string, ResourceConfig)>): (ts: seq<Template>)
    ensures |ts| == |rs|
    ensures forall i :: 0 <= i < |rs| ==> ts[i] == ResourceFile(rs[i].0, rs[i].1)
  {
    seq(|rs|, i requires 0 <= i < |rs| => ResourceFile(rs[i].0, rs[i].1))
  }

  /** The write order: configuration, client, request, error, the main file, one resource
      file per resource key in order, and the README last. */
  lemma BuildOrder(cfg: Config, cwdBase: string)
    ensures var plan := Build(cfg, cwdBase);
      && |plan| == 6 + |ResourcesOf(cfg)|
      && Templates(plan) == [ConfigurationFile, ClientFile, RequestFile, ErrorFile, MainFile]
           + ResourceFiles(ResourcesOf(cfg)) + [ReadmeFile]
  {
    var plan := Build(cfg, cwdBase);
    var rs := ResourcesOf(cfg);
    var expected := [ConfigurationFile, ClientFile, RequestFile, ErrorFile, MainFile] + ResourceFiles(rs) + [ReadmeFile];
    assert forall i :: 5 <= i < 5 + |rs| ==> Templates(plan)[i] == expected[i];
    assert Templates(plan)[|plan| - 1] == expected[|plan| - 1];
  }

  /** Without `resources` there are no resource files, but the base files, the main file
      and the README are still written. */
  lemma AbsentResourcesStillWriteBase(cfg: Config, cwdBase: string)
    requires cfg.resources.None?
    ensures Templates(Build(cfg, cwdBase)) == [ConfigurationFile, ClientFile, RequestFile, ErrorFile, MainFile, ReadmeFile]
  {
    BuildOrder(cfg, cwdBase);
  }

  /** Paths embed the api name exactly as configured: the base files under `lib/<api>/`,
      the main file at `lib/<api>.rb`, each resource at `lib/<api>/resources/<name>.rb`. */
  lemma BuildPaths(cfg: Config, cwdBase: string)
    ensures var plan, api := Build(cfg, cwdBase), ApiName(cfg, cwdBase);
      var names := Firsts(ResourcesOf(cfg));
      && Paths(plan)[..4] == [LibDir(api) + "configuration.rb", LibDir(api) + "client.rb",
                               LibDir(api) + "request.rb", LibDir(api) + "error.rb"]
      && plan[4].path == MainPath(api)
      && (forall i :: 0 <= i < |names| ==> plan[5 + i].path == LibDir(api) + "resources/" + names[i] + ".rb")
      && plan[|plan| - 1].path == "README.md"
  {
    var plan, api := Build(cfg, cwdBase), ApiName(cfg, cwdBase);
    var names := Firsts(ResourcesOf(cfg));
    forall i | 0 <= i < |names|
      ensures plan[5 + i].path == LibDir(api) + "resources/" + names[i] + ".rb"
    {
      assert LibDir(api) + ResourceTail(names[i]) == LibDir(api) + "resources/" + names[i] + ".rb";
    }
  }

  /** Whether a path is written by the plan, stated without the plan: the README, the main
      file, or a file of `WrittenTails` under the library directory. */
  predicate Written(api: string, names: seq<string>, p: string)
  {
    || p == ReadmePath
    || p == MainPath(api)
    || (|LibDir(api)| <= |p| && p[..|LibDir(api)|] == LibDir(api) && p[|LibDir(api)|..] in WrittenTails(names))
  }

  /** Every written path is the README, the main file or a file of `WrittenTails` under
      the library directory. */
  lemma PlannedPathsAreExpected(cfg: Config, cwdBase: string, k: nat)
    requires k < |Build(cfg, cwdBase)|
    ensures Written(ApiName(cfg, cwdBase), Firsts(ResourcesOf(cfg)), Build(cfg, cwdBase)[k].path)
  {
    var plan, api := Build(cfg, cwdBase), ApiName(cfg, cwdBase);
    var names := Firsts(ResourcesOf(cfg));
    var dir, ts, p := LibDir(api), WrittenTails(names), plan[k].path;
    if k < 4 {
      assert p == dir + BaseTails[k] && p[|dir|..] == BaseTails[k];
      assert ts[k] == BaseTails[k];
    } else if 5 <= k < 5 + |names| {
      assert p == dir + ResourceTail(names[k - 5]) && p[|dir|..] == ResourceTail(names[k - 5]);
      assert ts[4 + (k - 5)] == ResourceTail(names[k - 5]);
    }
  }

  /** Where each written file name, the main file and the README sit in the plan. */
  lemma PlannedAt(cfg: Config, cwdBase: string)
    ensures var ps, api := Paths(Build(cfg, cwdBase)), ApiName(cfg, cwdBase);
      var ts := WrittenTails(Firsts(ResourcesOf(cfg)));
      && |ps| == 2 + |ts|
      && (forall j :: 0 <= j < |ts| ==> ps[if j < 4 then j else j + 1] == LibDir(api) + ts[j])
      && ps[4] == MainPath(api)
      && ps[|ps| - 1] == ReadmePath
  {
    var plan, api := Build(cfg, cwdBase), ApiName(cfg, cwdBase);
    var names := Firsts(ResourcesOf(cfg));
    var ts := WrittenTails(names);
    forall j | 0 <= j < |ts| ensures Paths(plan)[if j < 4 then j else j + 1] == LibDir(api) + ts[j] {
      if j < 4 {
        assert ts[j] == ts[..4][j] == BaseTails[j];
      } else {
        assert ts[4 + (j - 4)] == ResourceTail(names[j - 4]);
      }
    }
  }

  /** Every expected path is written. */
  lemma ExpectedPathsArePlanned(cfg: Config, cwdBase: string, p: string)
    requires Written(ApiName(cfg, cwdBase), Firsts(ResourcesOf(cfg)), p)
    ensures p in Paths(Build(cfg, cwdBase))
  {
    var ps, api := Paths(Build(cfg, cwdBase)), ApiName(cfg, cwdBase);
    var ts := WrittenTails(Firsts(ResourcesOf(cfg)));
    var dir := LibDir(api);
    PlannedAt(cfg, cwdBase);
    if p == ReadmePath {
      assert ps[|ps| - 1] == p;
    } else if p == MainPath(api) {
      assert ps[4] == p;
    } else {
      var t := p[|dir|..];
      assert p == dir + t;
      var j :| 0 <= j < |ts| && ts[j] == t;
      assert ps[if j < 4 then j else j + 1] == p;
    }
  }

  /** The written paths are exactly the base files, the main file, the resource files and
      the README: nothing else is written, in particular no object, collection, cache,
      documentation or tests file. */
  lemma WrittenPathsExactly(cfg: Config, cwdBase: string, p: string)
    ensures p in Paths(Build(cfg, cwdBase)) <==> Written(ApiName(cfg, cwdBase), Firsts(ResourcesOf(cfg)), p)
  {
    if p in Paths(Build(cfg, cwdBase)) {
      var k :| 0 <= k < |Build(cfg, cwdBase)| && Paths(Build(cfg, cwdBase))[k] == p;
      PlannedPathsAreExpected(cfg, cwdBase, k);
    }
    if Written(ApiName(cfg, cwdBase), Firsts(ResourcesOf(cfg)), p) {
      ExpectedPathsArePlanned(cfg, cwdBase, p);
    }
  }

  /** A file name under the library directory that is not one of the written ones is never
      written. */
  lemma UnwrittenTail(cfg: Config, cwdBase: string, t: string)
    requires t !in WrittenTails(Firsts(ResourcesOf(cfg)))
    ensures LibDir(ApiName(cfg, cwdBase)) + t !in Paths(Build(cfg, cwdBase))
  {
    var api := ApiName(cfg, cwdBase);
    var dir := LibDir(api);
    var p := dir + t;
    WrittenPathsExactly(cfg, cwdBase, p);
    assert p[0] == 'l' && ReadmePath[0] == 'R';
    assert p[|api| + 4] != MainPath(api)[|api| + 4];
    assert p[..|dir|] == dir && p[|dir|..] == t;
  }

  /** The main file requires `<api>/version`, `<api>/object`, `<api>/collection` and
      `<api>/cache`, but no such file is ever written. */
  lemma MainRequiresUnwrittenBaseFiles(cfg: Config, cwdBase: string)
    ensures var api := ApiName(cfg, cwdBase);
      var lines := MainTemplate.Render(api, ModuleName(api), cfg);
      && lines[2] == MainTemplate.RequireLine(api + "/version")
      && lines[6] == MainTemplate.RequireLine(api + "/object")
      && lines[7] == MainTemplate.RequireLine(api + "/collection")
      && lines[8] == MainTemplate.RequireLine(api + "/cache")
      && (forall f :: f in ["version", "object", "collection", "cache"] ==>
            LibDir(api) + f + ".rb" !in Paths(Build(cfg, cwdBase)))
  {
    var api := ApiName(cfg, cwdBase);
    MainTemplate.SupportRequires(api, ModuleName(api), cfg);
    forall f | f in ["version", "object", "collection", "cache"]
      ensures LibDir(api) + f + ".rb" !in Paths(Build(cfg, cwdBase))
    {
      UnwrittenSupportFile(cfg, cwdBase, f);
    }
  }

  /** One of the support files the main file requires is never written. */
  lemma UnwrittenSupportFile(cfg: Config, cwdBase: string, f: string)
    requires f in ["version", "object", "collection", "cache"]
    ensures LibDir(ApiName(cfg, cwdBase)) + f + ".rb" !in Paths(Build(cfg, cwdBase))
  {
    var t := f + ".rb";
    forall j | 0 <= j < |BaseTails| ensures BaseTails[j] != t {
      assert t[0] != BaseTails[j][0] || t[2] != BaseTails[j][2];
    }
    SlashFreeTail(t, Firsts(ResourcesOf(cfg)));
    UnwrittenTail(cfg, cwdBase, t);
    assert LibDir(ApiName(cfg, cwdBase)) + f + ".rb" == LibDir(ApiName(cfg, cwdBase)) + t;
  }

  /** A file name without `/` is a resource file name only if it is a base file name. */
  lemma SlashFreeTail(t: string, names: seq<string>)
    requires '/' !in t && t !in BaseTails
    ensures t !in WrittenTails(names)
  {
    var ts := WrittenTails(names);
    forall j | 0 <= j < |ts| ensures ts[j] != t {
      if j < 4 {
        assert ts[j] == BaseTails[j];
      } else {
        var n := names[j - 4];
        assert ts[j] == ResourceTail(n);
        assert ResourceTail(n)[9] == '/';
      }
    }
  }

  /** The main file requires `<api>/<singular>_resource` for each resource (see
      `MainTemplate.RenderLayout`), but that file is never written: the resource's own file
      is `resources/<name>.rb`. Resource names are taken to
      be plain file stems without `/`. */
  lemma ResourceRequiresAreUnwritten(cfg: Config, cwdBase: string, i: nat)
    requires i < |ResourcesOf(cfg)|
    requires '/' !in ResourcesOf(cfg)[i].0
    ensures var api, names := ApiName(cfg, cwdBase), Firsts(ResourcesOf(cfg));
      var stem := Singular(names[i]) + "_resource";
      && LibDir(api) + stem + ".rb" !in Paths(Build(cfg, cwdBase))
      && LibDir(api) + ResourceTail(names[i]) in Paths(Build(cfg, cwdBase))
  {
    var api, names := ApiName(cfg, cwdBase), Firsts(ResourcesOf(cfg));
    var s := Singular(names[i]);
    var t := s + "_resource" + ".rb";
    assert '/' !in s by {
      forall k | 0 <= k < |s| ensures s[k] != '/' {
        assert s[k] == names[i][k];
      }
    }
    assert '/' !in t by {
      forall k | 0 <= k < |t| ensures t[k] != '/' {
        if k >= |s| {
          assert t[k] == "_resource.rb"[k - |s|];
        }
      }
    }
    assert t != BaseTails[0] by {
      if |t| == |BaseTails[0]| {
        assert t[4] == '_' && BaseTails[0][4] == 'i';
      }
    }
    SlashFreeTail(t, names);
    UnwrittenTail(cfg, cwdBase, t);
    assert LibDir(api) + (s + "_resource") + ".rb" == LibDir(api) + t;
    var p := LibDir(api) + ResourceTail(names[i]);
    assert Build(cfg, cwdBase)[5 + i].path == p;
  }

  /** File paths keep the hyphens of the api name, so a hyphenated name is never written
      under its underscored form (`lib/test_api/...` for `test-api`). */
  lemma PathsKeepHyphens(cfg: Config, cwdBase: string)
    requires '-' in ApiName(cfg, cwdBase)
    ensures var api := ApiName(cfg, cwdBase);
      && Build(cfg, cwdBase)[0].path == LibDir(api) + "configuration.rb"
      && LibDir(ReplaceChar(api, '-', '_')) + "configuration.rb" !in Paths(Build(cfg, cwdBase))
  {
    var api := ApiName(cfg, cwdBase);
    var u := ReplaceChar(api, '-', '_');
    var p := LibDir(u) + "configuration.rb";
    var j :| 0 <= j < |api| && api[j] == '-';
    assert p[4 + j] == '_';
    var plan := Build(cfg, cwdBase);
    forall k | 0 <= k < |plan| ensures plan[k].path != p {
      if k < 4 {
        assert plan[k].path == LibDir(api) + BaseTails[k];
        assert plan[k].path[4 + j] == '-';
      } else if k == 4 {
        assert plan[k].path[4 + j] == '-';
      } else if k < |plan| - 1 {
        assert plan[k].path == LibDir(api) + ResourceTail(ResourcesOf(cfg)[k - 5].0);
        assert plan[k].path[4 + j] == '-';
      } else {
        assert plan[k].path[0] != p[0];
      }
    }
  }

  /** A resource named `users` is written to `lib/<api>/resources/users.rb`, while the main
      file requires `<api>/user` for it. */
  lemma UsersExample(cwdBase: string)
    ensures var cfg := Config(Some("shop"), None, None, None, None, None,
                              Some([("users", ResourceConfig(None, None))]));
      var plan := Build(cfg, cwdBase);
      && plan[5].path == "lib/shop/resources/users.rb"
      && MainTemplate.Render("shop", "Shop", cfg)[11] == MainTemplate.RequireLine("shop/user")
      && "lib/shop/user.rb" !in Paths(plan)
  {
    UsersPath(cwdBase);
    UsersRequire();
    UserFileUnwritten(cwdBase);
  }

  function ShopConfig(): Config
  {
    Config(Some("shop"), None, None, None, None, None, Some([("users", ResourceConfig(None, None))]))
  }

  lemma UsersPath(cwdBase: string)
    ensures Build(ShopConfig(), cwdBase)[5].path == "lib/shop/resources/users.rb"
  {
    var cfg := ShopConfig();
    assert ApiName(cfg, cwdBase) == "shop" && ResourcesOf(cfg)[0].0 == "users";
    assert Build(cfg, cwdBase)[5].path == LibDir("shop") + ResourceTail("users");
  }

  lemma UsersRequire()
    ensures MainTemplate.Render("shop", "Shop", ShopConfig())[11] == MainTemplate.RequireLine("shop/user")
  {
    var cfg := ShopConfig();
    var names := Firsts(ResourcesOf(cfg));
    assert names[0] == "users";
    assert Singular("users") == "user";
    MainTemplate.RenderLayout("shop", "Shop", cfg);
    assert 4 + |MainTemplate.BaseFiles| + 2 * 0 == 11;
  }

  lemma UserFileUnwritten(cwdBase: string)
    ensures "lib/shop/user.rb" !in Paths(Build(ShopConfig(), cwdBase))
  {
    var cfg := ShopConfig();
    var names := Firsts(ResourcesOf(cfg));
    assert names == ["users"];
    assert ApiName(cfg, cwdBase) == "shop";
    var ts := WrittenTails(names);
    forall j | 0 <= j < |ts| ensures ts[j] != "user.rb" {
      assert ts[j][1] != 's';
    }
    UnwrittenTail(cfg, cwdBase, "user.rb");
    assert LibDir("shop") + "user.rb" == "lib/shop/user.rb";
  }
}
