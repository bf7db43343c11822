/** The path template analyser: the `{name}` placeholders of an endpoint path, found with
    Ruby's `path.scan(/\{([^}]+)\}/)`, and their rewriting into Ruby string interpolation
    `#{name}` for the generated request path. */
module PathTemplate {
  import opened Wrappers
  import opened Strings

  /** A path read as the scanner reads it: literal characters and matched placeholders. */
  datatype Piece = Lit(c: char) | Hole(name: string)

  function Brace(name: string): (r: string)
    ensures |r| == |name| + 2 && r[0] == '{' && r[|r| - 1] == '}' && r[1..|r| - 1] == name
  {
    "{" + name + "}"
  }

  function Splice(name: string): (r: string)
    ensures |r| == |name| + 3 && r[0] == '#' && r[1..] == Brace(name)
  {
    "#{" + name + "}"
  }

  /** The placeholder the regex `\{([^}]+)\}` matches at the very start of `s`: a `{`,
      then one or more characters up to the first `}`. An empty `{}` or a `{` with no
      later `}` is no match. */
  function PlaceholderAt(s: string): (r: Option<string>)
    ensures r.Some? ==> |r.value| > 0 && '}' !in r.value && |r.value| + 2 <= |s|
                        && s[..|r.value| + 2] == Brace(r.value)
    ensures r.Some? ==> '}' in s
    ensures r.None? && |s| > 0 && s[0] == '{' ==> '}' !in s[1..] || (|s| > 1 && s[1] == '}')
    ensures |s| > 0 && s[0] != '{' ==> r.None?
  {
    if |s| == 0 || s[0] != '{' then None
    else match IndexOf(s[1..], '}')
      case None => None
      case Some(i) =>
        if i == 0 then None
        else
          BraceAt(s, i);
          Some(s[1..i + 1])
  }

  /** The first `}` after a leading `{` closes a placeholder. */
  lemma BraceAt(s: string, i: nat)
    requires |s| > 0 && s[0] == '{' && IndexOf(s[1..], '}') == Some(i)
    ensures i + 2 <= |s| && '}' !in s[1..i + 1] && s[..i + 2] == Brace(s[1..i + 1])
  {
    var n := s[1..i + 1];
    assert n == s[1..][..i];
    assert s[i + 1] == s[1..][i] == '}';
    assert s[..i + 2] == [s[0]] + n + [s[i + 1]];
  }

  /** The scan, left to right: at each position either a placeholder match (after which the
      scan resumes behind its `}`) or one literal character. */
  function Tokenize(s: string): (ps: seq<Piece>)
    decreases |s|
  {
    if |s| == 0 then []
    else match PlaceholderAt(s)
      case Some(n) => [Hole(n)] + Tokenize(s[|n| + 2..])
      case None => [Lit(s[0])] + Tokenize(s[1..])
  }

  function Names(ps: seq<Piece>): (ns: seq<string>)
    ensures |ns| <= |ps|
  {
    if |ps| == 0 then []
    else if ps[0].Hole? then [ps[0].name] + Names(ps[1..])
    else Names(ps[1..])
  }

  /** `path.scan(/\{([^}]+)\}/).flatten`: every placeholder name in order of appearance,
      repeated names included. */
  function Placeholders(path: string): seq<string>
  {
    Names(Tokenize(path))
  }

  /** Renders pieces back to text: a hole whose name is in `spliced` as `#{name}`, any
      other hole as `{name}`, a literal as itself. */
  function Show(ps: seq<Piece>, spliced: set<string>): string
  {
    if |ps| == 0 then "" else ShowPiece(ps[0], spliced) + Show(ps[1..], spliced)
  }

  function ShowPiece(x: Piece, spliced: set<string>): string
  {
    match x
    case Lit(c) => [c]
    case Hole(n) => if n in spliced then Splice(n) else Brace(n)
  }

  function SetOf(xs: seq<string>): (r: set<string>)
    ensures forall x :: x in r <==> x in xs
  {
    set x | x in xs
  }

  predicate NoDuplicates(xs: seq<string>)
  {
    forall i, j :: 0 <= i < j < |xs| ==> xs[i] != xs[j]
  }

  /** `xs.uniq`: the first occurrence of every element, in order. */
  function Distinct(xs: seq<string>): (r: seq<string>)
    ensures NoDuplicates(r)
    ensures SetOf(r) == SetOf(xs)
    ensures |r| <= |xs|
    ensures NoDuplicates(xs) ==> r == xs
  {
    if |xs| == 0 then []
    else
      var front := Distinct(xs[..|xs| - 1]);
      var last := xs[|xs| - 1];
      assert xs == xs[..|xs| - 1] + [last];
      if last in front then front else front + [last]
  }

  /** De-duplicating a prefix gives a prefix of the de-duplicated list: a name keeps the
      position of its first occurrence, and later repeats never reorder what came before. */
  lemma {:induction false} DistinctPrefix(xs: seq<string>, k: nat)
    requires k <= |xs|
    ensures Distinct(xs[..k]) <= Distinct(xs)
    decreases |xs| - k
  {
    if k < |xs| {
      var front := xs[..|xs| - 1];
      assert front[..k] == xs[..k];
      DistinctPrefix(front, k);
      assert Distinct(front) <= Distinct(xs);
    } else {
      assert xs[..k] == xs;
    }
  }

  /** `[a, b, a].uniq` is `[a, b]`, not `[b, a]`. */
  lemma DistinctKeepsFirstOccurrence(a: string, b: string)
    requires a != b
    ensures Distinct([a, b, a]) == [a, b]
  {
    var xs := [a, b, a];
    assert xs[..2] == [a, b] && xs[..2][..1] == [a] && [a][..0] == [];
  }

  /** The interpolated request path: every placeholder site `{name}` becomes `#{name}`,
      every other character is kept. */
  function Interpolate(path: string): string
  {
    Show(Tokenize(path), SetOf(Placeholders(path)))
  }

  /** `s.gsub(pat, rep)` for a literal pattern: leftmost, non-overlapping replacement. */
  function ReplaceAll(s: string, pat: string, rep: string): string
    requires |pat| > 0
    decreases |s|
  {
    if |s| == 0 then ""
    else if pat <= s then rep + ReplaceAll(s[|pat|..], pat, rep)
    else [s[0]] + ReplaceAll(s[1..], pat, rep)
  }

  /** The loop of the resource template: one `gsub(/\{name\}/, "#{name}")` per listed
      name, each applied to the result of the previous one. */
  function GsubEach(s: string, names: seq<string>): string
    decreases |names|
  {
    if |names| == 0 then s
    else GsubEach(ReplaceAll(s, Brace(names[0]), Splice(names[0])), names[1..])
  }

  /** The request path exactly as the resource template builds it: the loop runs over the
      scanned names with their repetitions. */
  function InterpolateAsWritten(path: string): string
  {
    GsubEach(path, Placeholders(path))
  }

  // ----- the scan loses nothing -----

  /** Reading the pieces back with braces gives the path: the scan only classifies
      characters, and the placeholders are exactly the hole names. */
  lemma {:induction false} TokenizeRoundTrip(s: string)
    ensures Show(Tokenize(s), {}) == s
    decreases |s|
  {
    if |s| > 0 {
      match PlaceholderAt(s)
      case Some(n) =>
        TokenizeRoundTrip(s[|n| + 2..]);
        ShowCons(Hole(n), Tokenize(s[|n| + 2..]), {});
        assert s == s[..|n| + 2] + s[|n| + 2..];
      case None =>
        TokenizeRoundTrip(s[1..]);
        ShowCons(Lit(s[0]), Tokenize(s[1..]), {});
        assert s == [s[0]] + s[1..];
    }
  }

  lemma ShowCons(x: Piece, ps: seq<Piece>, spliced: set<string>)
    ensures Show([x] + ps, spliced) == ShowPiece(x, spliced) + Show(ps, spliced)
  {
    assert ([x] + ps)[1..] == ps;
  }

  /** Interpolation adds exactly one character, the `#`, per placeholder occurrence. */
  lemma InterpolateAddsOneHashPerSite(path: string)
    ensures |Interpolate(path)| == |path| + |Placeholders(path)|
  {
    var ps := Tokenize(path);
    TokenizeRoundTrip(path);
    ShowLength(ps, SetOf(Names(ps)));
  }

  /** Splicing holes whose names are all in `spliced` lengthens the text by one per hole. */
  lemma {:induction false} ShowLength(ps: seq<Piece>, spliced: set<string>)
    requires forall n :: n in Names(ps) ==> n in spliced
    ensures |Show(ps, spliced)| == |Show(ps, {})| + |Names(ps)|
    decreases |ps|
  {
    if |ps| > 0 {
      assert forall n :: n in Names(ps[1..]) ==> n in Names(ps);
      ShowLength(ps[1..], spliced);
      if ps[0].Hole? {
        assert Names(ps)[0] == ps[0].name;
      }
    }
  }

  // ----- the gsub loop against the single-pass splice -----

  predicate NoClose(ps: seq<Piece>)
  {
    forall j :: 0 <= j < |ps| ==> ps[j].Lit? && ps[j].c != '}'
  }

  /** Pieces as the scanner leaves them when every placeholder is an identifier: a literal
      `{` is followed either by a literal `}` or by no `}` at all. */
  predicate Tame(ps: seq<Piece>)
    decreases |ps|
  {
    |ps| == 0 ||
    ((ps[0].Hole? ==> IsIdentifier(ps[0].name))
     && (ps[0] == Lit('{') ==> (|ps| > 1 && ps[1] == Lit('}')) || NoClose(ps[1..]))
     && Tame(ps[1..]))
  }

  lemma {:induction false} NoCloseTokens(s: string)
    requires '}' !in s
    ensures NoClose(Tokenize(s))
    decreases |s|
  {
    if |s| > 0 {
      assert s[0] in s;
      assert forall c :: c in s[1..] ==> c in s;
      assert PlaceholderAt(s).None?;
      NoCloseTokens(s[1..]);
    }
  }

  lemma {:induction false} TokenizeTame(s: string)
    requires forall n :: n in Placeholders(s) ==> IsIdentifier(n)
    ensures Tame(Tokenize(s))
    decreases |s|
  {
    if |s| > 0 {
      match PlaceholderAt(s)
      case Some(n) =>
        var rest := s[|n| + 2..];
        assert Tokenize(s) == [Hole(n)] + Tokenize(rest);
        assert Placeholders(s) == [n] + Placeholders(rest);
        TokenizeTame(rest);
        assert ([Hole(n)] + Tokenize(rest))[1..] == Tokenize(rest);
      case None =>
        var rest := s[1..];
        assert Tokenize(s) == [Lit(s[0])] + Tokenize(rest);
        assert Placeholders(s) == Placeholders(rest);
        TokenizeTame(rest);
        assert ([Lit(s[0])] + Tokenize(rest))[1..] == Tokenize(rest);
        if s[0] == '{' {
          if '}' !in rest {
            NoCloseTokens(rest);
          } else {
            assert |rest| > 0 && rest[0] == '}';
            assert PlaceholderAt(rest).None?;
            assert Tokenize(rest)[0] == Lit('}');
          }
        }
    }
  }

  lemma {:induction false} NoCloseShow(ps: seq<Piece>, spliced: set<string>)
    requires NoClose(ps)
    ensures '}' !in Show(ps, spliced)
    decreases |ps|
  {
    if |ps| > 0 {
      NoCloseShow(ps[1..], spliced);
    }
  }

  lemma {:induction false} ReplaceAllSkip(x: string, y: string, pat: string, rep: string)
    requires |pat| > 0 && pat[0] !in x
    ensures ReplaceAll(x + y, pat, rep) == x + ReplaceAll(y, pat, rep)
    decreases |x|
  {
    if |x| == 0 {
      assert x + y == y;
    } else {
      var xy := x + y;
      assert xy[0] == x[0] && xy[1..] == x[1..] + y;
      assert pat[0] != xy[0];
      assert !(pat <= xy);
      assert forall c :: c in x[1..] ==> c in x;
      ReplaceAllSkip(x[1..], y, pat, rep);
    }
  }

  lemma BraceNotPrefix(p: string, n: string, y: string)
    requires IsIdentifier(p) && IsIdentifier(n) && p != n
    ensures !(Brace(p) <= Brace(n) + y)
  {
    var z := Brace(n) + y;
    if |n| == |p| {
      var i :| 0 <= i < |n| && n[i] != p[i];
      assert z[i + 1] == n[i] && Brace(p)[i + 1] == p[i];
    } else if |n| > |p| {
      assert z[|p| + 1] == n[|p|] && IsWordChar(n[|p|]);
      assert Brace(p)[|p| + 1] == '}';
    } else {
      assert z[|n| + 1] == '}';
      assert Brace(p)[|n| + 1] == p[|n|] && IsWordChar(p[|n|]);
    }
  }

  /** A literal the scanner left behind never starts a match of `{p}`. */
  lemma LitStep(c: char, rest: string, p: string)
    requires IsIdentifier(p)
    requires c == '{' ==> (|rest| > 0 && rest[0] == '}') || '}' !in rest
    ensures ReplaceAll([c] + rest, Brace(p), Splice(p)) == [c] + ReplaceAll(rest, Brace(p), Splice(p))
  {
    var pat := Brace(p);
    var t := [c] + rest;
    if c == '{' {
      if |rest| > 0 && rest[0] == '}' {
        assert t[1] == '}' && pat[1] == p[0] && IsWordChar(p[0]);
      } else {
        assert pat[|p| + 1] == '}';
        if |t| >= |pat| {
          assert t[|p| + 1] == rest[|p|] && rest[|p|] in rest;
        }
      }
    }
    assert !(pat <= t);
    assert t[1..] == rest;
  }

  /** The `gsub` for `p` passes over a placeholder `{n}` with another name. */
  lemma BraceSurvives(n: string, rest: string, p: string)
    requires IsIdentifier(n) && IsIdentifier(p) && n != p
    ensures ReplaceAll(Brace(n) + rest, Brace(p), Splice(p)) == Brace(n) + ReplaceAll(rest, Brace(p), Splice(p))
  {
    var pat, rep := Brace(p), Splice(p);
    var b := n + "}";
    assert '{' !in b by {
      assert forall i :: 0 <= i < |n| ==> IsWordChar(n[i]);
    }
    var t := "{" + (b + rest);
    assert Brace(n) + rest == t;
    BraceNotPrefix(p, n, rest);
    assert t[0] == '{' && t[1..] == b + rest;
    assert ReplaceAll(t, pat, rep) == "{" + ReplaceAll(b + rest, pat, rep);
    ReplaceAllSkip(b, rest, pat, rep);
  }

  /** A hole is rewritten by the `gsub` for `p` exactly when it is named `p` and not yet
      spliced; a spliced hole `#{n}` survives because `n` differs from `p`. */
  lemma HoleStep(n: string, rest: string, spliced: set<string>, p: string)
    requires IsIdentifier(n) && IsIdentifier(p) && p !in spliced
    ensures ReplaceAll(ShowPiece(Hole(n), spliced) + rest, Brace(p), Splice(p))
         == ShowPiece(Hole(n), spliced + {p}) + ReplaceAll(rest, Brace(p), Splice(p))
  {
    if n == p {
      assert ShowPiece(Hole(n), spliced) == Brace(p);
      assert ShowPiece(Hole(n), spliced + {p}) == Splice(p);
      MatchStep(p, rest);
    } else if n in spliced {
      assert ShowPiece(Hole(n), spliced) == Splice(n) == ShowPiece(Hole(n), spliced + {p});
      SpliceSurvives(n, rest, p);
    } else {
      assert ShowPiece(Hole(n), spliced) == Brace(n) == ShowPiece(Hole(n), spliced + {p});
      BraceSurvives(n, rest, p);
    }
  }

  lemma MatchStep(p: string, rest: string)
    ensures ReplaceAll(Brace(p) + rest, Brace(p), Splice(p)) == Splice(p) + ReplaceAll(rest, Brace(p), Splice(p))
  {
    var pat := Brace(p);
    assert pat <= pat + rest;
    assert (pat + rest)[|pat|..] == rest;
  }

  lemma SpliceSurvives(n: string, rest: string, p: string)
    requires IsIdentifier(n) && IsIdentifier(p) && n != p
    ensures ReplaceAll(Splice(n) + rest, Brace(p), Splice(p)) == Splice(n) + ReplaceAll(rest, Brace(p), Splice(p))
  {
    var pat, rep := Brace(p), Splice(p);
    var t := Brace(n) + rest;
    var done := ReplaceAll(rest, pat, rep);
    assert Splice(n) == "#" + Brace(n);
    assert Splice(n) + rest == "#" + t;
    assert pat[0] == '{';
    ReplaceAllSkip("#", t, pat, rep);
    BraceSurvives(n, rest, p);
    assert "#" + (Brace(n) + done) == Splice(n) + done;
  }

  /** One `gsub` of the loop turns exactly the not-yet-spliced holes named `p` into `#{p}`. */
  lemma {:induction false} GsubStep(ps: seq<Piece>, spliced: set<string>, p: string)
    requires Tame(ps) && IsIdentifier(p) && p !in spliced
    ensures ReplaceAll(Show(ps, spliced), Brace(p), Splice(p)) == Show(ps, spliced + {p})
    decreases |ps|
  {
    if |ps| > 0 {
      var rest := Show(ps[1..], spliced);
      GsubStep(ps[1..], spliced, p);
      match ps[0]
      case Lit(c) =>
        if c == '{' {
          if |ps| > 1 && ps[1] == Lit('}') {
            assert rest[0] == '}';
          } else {
            NoCloseShow(ps[1..], spliced);
          }
        }
        LitStep(c, rest, p);
      case Hole(n) =>
        HoleStep(n, rest, spliced, p);
    }
  }

  /** The whole loop over distinct identifier names splices exactly the holes so named. */
  lemma {:induction false} GsubEachSplices(ps: seq<Piece>, spliced: set<string>, names: seq<string>)
    requires Tame(ps) && NoDuplicates(names)
    requires forall k :: 0 <= k < |names| ==> IsIdentifier(names[k]) && names[k] !in spliced
    ensures GsubEach(Show(ps, spliced), names) == Show(ps, spliced + SetOf(names))
    decreases |names|
  {
    if |names| > 0 {
      var n0, tail := names[0], names[1..];
      var s0 := Show(ps, spliced);
      GsubStep(ps, spliced, n0);
      assert GsubEach(s0, names) == GsubEach(ReplaceAll(s0, Brace(n0), Splice(n0)), tail);
      FreshTail(spliced, names);
      GsubEachSplices(ps, spliced + {n0}, tail);
    } else {
      assert spliced + SetOf(names) == spliced;
    }
  }

  /** After the first name is spliced, the remaining names are still distinct, unspliced
      identifiers, and together they splice the same set. */
  lemma FreshTail(spliced: set<string>, names: seq<string>)
    requires |names| > 0 && NoDuplicates(names)
    requires forall k :: 0 <= k < |names| ==> IsIdentifier(names[k]) && names[k] !in spliced
    ensures var tail := names[1..];
      && NoDuplicates(tail)
      && (forall k :: 0 <= k < |tail| ==> IsIdentifier(tail[k]) && tail[k] !in spliced + {names[0]})
      && spliced + {names[0]} + SetOf(tail) == spliced + SetOf(names)
  {
    var n0, tail := names[0], names[1..];
    assert forall k :: 0 <= k < |tail| ==> tail[k] == names[k + 1];
    assert names == [n0] + tail;
    assert SetOf(names) == {n0} + SetOf(tail);
  }

  /** The resource template's loop, run over the placeholders with repetitions removed,
      is the single-pass splice. */
  lemma DedupedGsubIsInterpolate(path: string)
    requires forall n :: n in Placeholders(path) ==> IsIdentifier(n)
    ensures GsubEach(path, Distinct(Placeholders(path))) == Interpolate(path)
  {
    var ps := Tokenize(path);
    TokenizeRoundTrip(path);
    TokenizeTame(path);
    var ns := Distinct(Placeholders(path));
    assert forall k :: 0 <= k < |ns| ==> ns[k] in SetOf(ns);
    GsubEachSplices(ps, {}, ns);
    assert {} + SetOf(ns) == SetOf(Placeholders(path));
  }

  /** Where no placeholder repeats, the request path as written is the single-pass splice. */
  lemma AsWrittenAgreesWithoutRepeats(path: string)
    requires forall n :: n in Placeholders(path) ==> IsIdentifier(n)
    requires NoDuplicates(Placeholders(path))
    ensures InterpolateAsWritten(path) == Interpolate(path)
  {
    DedupedGsubIsInterpolate(path);
  }

  /** A placeholder at the front is scanned as one hole. */
  lemma TokenizeBrace(n: string, rest: string)
    requires |n| > 0 && '}' !in n
    ensures Tokenize(Brace(n) + rest) == [Hole(n)] + Tokenize(rest)
  {
    var s := Brace(n) + rest;
    var t := s[1..];
    assert t == n + "}" + rest;
    assert t[..|n|] == n;
    IndexOfFirst(t, '}', |n|);
    assert s[1..|n| + 1] == n;
    assert s[|n| + 2..] == rest;
  }

  /** A path naming the placeholder `n` twice is scanned as two holes. */
  lemma ScanOfRepeated(n: string)
    requires IsIdentifier(n)
    ensures Tokenize(Brace(n) + Brace(n)) == [Hole(n), Hole(n)]
  {
    IdentifierHasNoBrace(n);
    TokenizeBrace(n, "");
    TokenizeBrace(n, Brace(n));
    assert Brace(n) + "" == Brace(n);
    assert Tokenize("") == [];
  }

  lemma IdentifierHasNoBrace(n: string)
    requires IsIdentifier(n)
    ensures |n| > 0 && '}' !in n
  {
    forall i | 0 <= i < |n| ensures n[i] != '}' {
      assert IsWordChar(n[i]);
    }
  }

  lemma NamesOfTwo(n: string)
    ensures Names([Hole(n), Hole(n)]) == [n, n]
  {
    var one := [Hole(n)];
    assert one[1..] == [] && Names(one) == [n];
    assert [Hole(n), Hole(n)][1..] == one;
  }

  lemma ShowOfTwo(n: string, spliced: set<string>)
    requires n in spliced
    ensures Show([Hole(n), Hole(n)], spliced) == Splice(n) + Splice(n)
  {
    var one := [Hole(n)];
    assert one[1..] == [] && Show(one, spliced) == Splice(n);
    assert [Hole(n), Hole(n)][1..] == one;
  }

  /** The `gsub` for `n` finds `{n}` inside a spliced `#{n}` and splices it again. */
  lemma ResplicedOnce(n: string, rest: string)
    requires IsIdentifier(n)
    ensures ReplaceAll(Splice(n) + rest, Brace(n), Splice(n))
         == "#" + Splice(n) + ReplaceAll(rest, Brace(n), Splice(n))
  {
    var pat := Brace(n);
    assert Splice(n) + rest == ['#'] + (pat + rest);
    LitStep('#', pat + rest, n);
    MatchStep(n, rest);
  }

  /** The `gsub` for `n` applied to the once-spliced path finds `{n}` inside each `#{n}`. */
  lemma SecondPassOfRepeated(n: string)
    requires IsIdentifier(n)
    ensures ReplaceAll(Splice(n) + Splice(n), Brace(n), Splice(n)) == "#" + Splice(n) + "#" + Splice(n)
  {
    ResplicedOnce(n, Splice(n));
    ResplicedOnce(n, "");
    assert Splice(n) + "" == Splice(n);
  }

  /** The scanned names of a path naming `n` twice. */
  lemma PlaceholdersOfRepeated(n: string)
    requires IsIdentifier(n)
    ensures Placeholders(Brace(n) + Brace(n)) == [n, n]
  {
    ScanOfRepeated(n);
    NamesOfTwo(n);
  }

  /** The single-pass splice rewrites each of the two sites once. */
  lemma InterpolateOfRepeated(n: string)
    requires IsIdentifier(n)
    ensures Interpolate(Brace(n) + Brace(n)) == Splice(n) + Splice(n)
  {
    var path := Brace(n) + Brace(n);
    ScanOfRepeated(n);
    PlaceholdersOfRepeated(n);
    assert n in SetOf(Placeholders(path));
    ShowOfTwo(n, SetOf(Placeholders(path)));
  }

  /** The `gsub` for `n` splices both sites of a path naming `n` twice. */
  lemma FirstPassOfRepeated(n: string)
    ensures ReplaceAll(Brace(n) + Brace(n), Brace(n), Splice(n)) == Splice(n) + Splice(n)
  {
    MatchStep(n, Brace(n));
    MatchStep(n, "");
    assert Brace(n) + "" == Brace(n);
    assert ReplaceAll("", Brace(n), Splice(n)) == "";
  }

  /** The loop as written runs twice for `n`: the first pass splices both sites, the second
      finds `{n}` again inside each `#{n}`. */
  lemma AsWrittenOfRepeated(n: string)
    requires IsIdentifier(n)
    ensures InterpolateAsWritten(Brace(n) + Brace(n)) == "#" + Splice(n) + "#" + Splice(n)
  {
    var path := Brace(n) + Brace(n);
    PlaceholdersOfRepeated(n);
    FirstPassOfRepeated(n);
    SecondPassOfRepeated(n);
    var once := Splice(n) + Splice(n);
    var twice := "#" + Splice(n) + "#" + Splice(n);
    var names := [n, n];
    assert names[1..] == [n] && names[1..][1..] == [];
    assert GsubEach(path, names) == GsubEach(once, [n]);
    assert GsubEach(once, [n]) == GsubEach(twice, []);
  }

  /** A repeated placeholder is rewritten twice by the loop as written: the second
      `gsub(/\{n\}/, ...)` finds `{n}` again inside the `#{n}` the first one produced,
      while the single-pass splice rewrites each site once. */
  lemma RepeatedPlaceholderAsWritten(n: string)
    requires IsIdentifier(n)
    ensures Placeholders(Brace(n) + Brace(n)) == [n, n]
    ensures InterpolateAsWritten(Brace(n) + Brace(n)) == "#" + Splice(n) + "#" + Splice(n)
    ensures Interpolate(Brace(n) + Brace(n)) == Splice(n) + Splice(n)
    ensures InterpolateAsWritten(Brace(n) + Brace(n)) != Interpolate(Brace(n) + Brace(n))
  {
    PlaceholdersOfRepeated(n);
    AsWrittenOfRepeated(n);
    InterpolateOfRepeated(n);
    assert ("#" + Splice(n) + "#" + Splice(n))[1] == '#' != (Splice(n) + Splice(n))[1];
  }
}
