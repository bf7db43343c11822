/** The identifier normaliser: how the generator turns `api_name` and resource names into
    the Ruby constant names and file stems it emits. */
module Identifiers {
  import opened Wrappers
  import opened Strings

  function CapitalizeEach(xs: seq<string>): (r: seq<string>)
    ensures |r| == |xs|
    ensures forall i :: 0 <= i < |xs| ==> r[i] == Capitalize(xs[i])
  {
    seq(|xs|, i requires 0 <= i < |xs| => Capitalize(xs[i]))
  }

  /** The module name of the generated gem: `api_name.split('-').map(&:capitalize).join`.
      Only `-` separates segments; `_` is kept as an ordinary character. */
  function ModuleName(apiName: string): string
  {
    Concat(CapitalizeEach(Split(apiName, '-')))
  }

  /** Reference definition of the module name, character by character: every `-` is
      dropped, a character that starts the string or follows a `-` is upcased and every
      other character is downcased. */
  function CamelFrom(s: string, atSegmentStart: bool): (r: string)
    ensures |r| == |s| - Count(s, '-')
    ensures '-' !in r
  {
    if |s| == 0 then ""
    else if s[0] == '-' then CamelFrom(s[1..], true)
    else [if atSegmentStart then UpChar(s[0]) else DownChar(s[0])] + CamelFrom(s[1..], false)
  }

  lemma {:induction false} CamelOfPlainTail(x: string, y: string)
    requires '-' !in x
    ensures CamelFrom(x + y, false) == Downcase(x) + CamelFrom(y, false)
    decreases |x|
  {
    if |x| == 0 {
      assert x + y == y;
      assert Downcase(x) == "";
    } else {
      var xy := x + y;
      assert xy[0] == x[0] && xy[1..] == x[1..] + y;
      assert x[0] in x;
      assert '-' !in x[1..] by {
        assert forall c :: c in x[1..] ==> c in x;
      }
      calc {
        CamelFrom(xy, false);
        [DownChar(x[0])] + CamelFrom(x[1..] + y, false);
        { CamelOfPlainTail(x[1..], y); }
        [DownChar(x[0])] + (Downcase(x[1..]) + CamelFrom(y, false));
        { assert Downcase(x) == [DownChar(x[0])] + Downcase(x[1..]); }
        Downcase(x) + CamelFrom(y, false);
      }
    }
  }

  lemma CamelOfPlain(x: string, y: string)
    requires '-' !in x && |x| > 0
    ensures CamelFrom(x + y, true) == Capitalize(x) + CamelFrom(y, false)
  {
    var xy := x + y;
    assert xy[0] == x[0] && xy[1..] == x[1..] + y;
    CamelOfPlainTail(x[1..], y);
  }

  /** The module name equals the character-level reference definition. */
  lemma {:induction false} ModuleNameByCharacters(s: string)
    ensures ModuleName(s) == CamelFrom(s, true)
    decreases |s|
  {
    match IndexOf(s, '-')
    case None =>
      PlainModuleName(s);
    case Some(i) =>
      FirstSegment(s, i);
      ModuleNameByCharacters(s[i + 1..]);
  }

  /** Without a hyphen there is one segment, and both definitions capitalize it. */
  lemma PlainModuleName(s: string)
    requires '-' !in s
    ensures ModuleName(s) == CamelFrom(s, true)
  {
    assert Split(s, '-') == [s];
    if |s| > 0 {
      CamelOfPlain(s, "");
      assert s + "" == s;
      assert Concat([Capitalize(s)]) == Capitalize(s);
    } else {
      assert Concat([""]) == "";
      assert CapitalizeEach([""]) == [""];
    }
  }

  /** Both definitions capitalize the segment before the first hyphen and continue with
      the rest as a new name. */
  lemma FirstSegment(s: string, i: nat)
    requires IndexOf(s, '-') == Some(i)
    ensures ModuleName(s) == Capitalize(s[..i]) + ModuleName(s[i + 1..])
    ensures CamelFrom(s, true) == Capitalize(s[..i]) + CamelFrom(s[i + 1..], true)
  {
    var head, tail := s[..i], s[i + 1..];
    SplitAtFirst(s, i);
    CamelAtFirst(s, i);
  }

  lemma SplitAtFirst(s: string, i: nat)
    requires IndexOf(s, '-') == Some(i)
    ensures ModuleName(s) == Capitalize(s[..i]) + ModuleName(s[i + 1..])
  {
    var head, rest := s[..i], Split(s[i + 1..], '-');
    assert Split(s, '-') == [head] + rest;
    CapitalizeEachCons(head, rest);
    ConcatCons(Capitalize(head), CapitalizeEach(rest));
  }

  lemma CapitalizeEachCons(x: string, xs: seq<string>)
    ensures CapitalizeEach([x] + xs) == [Capitalize(x)] + CapitalizeEach(xs)
  {
  }

  lemma ConcatCons(x: string, xs: seq<string>)
    ensures Concat([x] + xs) == x + Concat(xs)
  {
    assert ([x] + xs)[1..] == xs;
  }

  lemma CamelAtFirst(s: string, i: nat)
    requires IndexOf(s, '-') == Some(i)
    ensures CamelFrom(s, true) == Capitalize(s[..i]) + CamelFrom(s[i + 1..], true)
  {
    var head, tail := s[..i], s[i + 1..];
    assert s == head + s[i..];
    assert s[i..][0] == '-' && s[i..][1..] == tail;
    assert CamelFrom(s[i..], false) == CamelFrom(tail, true);
    if |head| > 0 {
      CamelOfPlain(head, s[i..]);
    } else {
      assert s == s[i..];
      assert Capitalize(head) == "";
    }
  }

  /** The module name drops exactly the hyphens and keeps the length of everything else. */
  lemma ModuleNameShape(s: string)
    ensures '-' !in ModuleName(s)
    ensures |ModuleName(s)| == |s| - Count(s, '-')
  {
    ModuleNameByCharacters(s);
  }

  lemma {:induction false} CamelInitial(s: string)
    ensures CamelFrom(s, true) == "" || !IsLower(CamelFrom(s, true)[0])
    decreases |s|
  {
    if |s| > 0 && s[0] == '-' {
      CamelInitial(s[1..]);
    }
  }

  /** A module name never starts with a lower-case letter, so no generated line that starts
      with it can be mistaken for a `def`. */
  lemma ModuleNameInitial(s: string)
    ensures ModuleName(s) == "" || !IsLower(ModuleName(s)[0])
  {
    ModuleNameByCharacters(s);
    CamelInitial(s);
  }

  /** An api name with no hyphen yields its plain `capitalize`. */
  lemma ModuleNameOfPlainName(s: string)
    requires '-' !in s
    ensures ModuleName(s) == Capitalize(s)
  {
    assert Split(s, '-') == [s];
  }

  /** The class name of a resource: `resource_name.capitalize`, used both for the class the
      resource file defines and for the class the client's accessor instantiates. */
  function ClassName(resourceName: string): (r: string)
    ensures |r| == |resourceName|
  {
    Capitalize(resourceName)
  }

  /** A resource's class name agrees with the module-name rule exactly when the resource
      name has no hyphen; with one, only its first segment is capitalized. */
  lemma ClassNameVersusModuleName(resourceName: string)
    ensures ClassName(resourceName) == ModuleName(resourceName) <==> '-' !in resourceName
  {
    ModuleNameShape(resourceName);
    if '-' !in resourceName {
      ModuleNameOfPlainName(resourceName);
    }
  }

  /** The naive singular: one trailing `s` removed (`r.end_with?('s') ? r.chop : r`). */
  function Singular(name: string): (r: string)
    ensures |r| == if EndsWith(name, 's') then |name| - 1 else |name|
  {
    if EndsWith(name, 's') then name[..|name| - 1] else name
  }

  /** Singular undoes appending one `s`, and leaves names without a trailing `s` alone. */
  lemma SingularInvertsPlural(stem: string, name: string)
    ensures Singular(stem + "s") == stem
    ensures Singular(name) == name <==> !EndsWith(name, 's')
  {
    assert (stem + "s")[..|stem + "s"| - 1] == stem;
  }

  /** The heuristic is not a real singularization: irregular plurals come out wrong. */
  lemma SingularIsNaive()
    ensures Singular("categories") == "categorie"
    ensures Singular("status") == "statu"
  {
  }

  /** The module name that the documentation's authentication snippet uses:
      `api_name.gsub("-", "_").capitalize`. */
  function DocModuleName(apiName: string): (r: string)
    ensures |r| == |apiName|
  {
    Capitalize(ReplaceChar(apiName, '-', '_'))
  }

  /** The documentation's module name agrees with the Builder's exactly when the api name
      has no hyphen; `"my-api"` gives `"My_api"` there and `"MyApi"` in the generated code. */
  lemma DocModuleNameDiverges(apiName: string)
    ensures DocModuleName(apiName) == ModuleName(apiName) <==> '-' !in apiName
  {
    ModuleNameShape(apiName);
    if '-' !in apiName {
      assert ReplaceChar(apiName, '-', '_') == apiName;
      ModuleNameOfPlainName(apiName);
    }
  }
}
