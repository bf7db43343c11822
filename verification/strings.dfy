/** Character and string helpers with Ruby's meaning, restricted to ASCII case mapping:
    `upcase`, `downcase`, `capitalize`, `split`, `join`, `chomp` and `Integer#to_s`. */
module Strings {
  import opened Wrappers

  predicate IsLower(c: char) { 'a' <= c <= 'z' }
  predicate IsUpper(c: char) { 'A' <= c <= 'Z' }
  predicate IsDigit(c: char) { '0' <= c <= '9' }

  /** The characters of Ruby's regex class `\w`. */
  predicate IsWordChar(c: char) { IsLower(c) || IsUpper(c) || IsDigit(c) || c == '_' }

  /** A non-empty run of `\w` characters: the shape of a Ruby local variable or method name. */
  predicate IsIdentifier(s: string)
  {
    |s| > 0 && forall i :: 0 <= i < |s| ==> IsWordChar(s[i])
  }

  function UpChar(c: char): (r: char)
    ensures !IsLower(r)
    ensures IsLower(c) ==> IsUpper(r)
    ensures !IsLower(c) ==> r == c
  {
    if IsLower(c) then (c as int - 32) as char else c
  }

  function DownChar(c: char): (r: char)
    ensures !IsUpper(r)
    ensures IsUpper(c) ==> IsLower(r)
    ensures !IsUpper(c) ==> r == c
  {
    if IsUpper(c) then (c as int + 32) as char else c
  }

  /** `String#upcase`. */
  function Upcase(s: string): (r: string)
    ensures |r| == |s|
    ensures forall i :: 0 <= i < |s| ==> r[i] == UpChar(s[i])
  {
    seq(|s|, i requires 0 <= i < |s| => UpChar(s[i]))
  }

  /** `String#downcase`. */
  function Downcase(s: string): (r: string)
    ensures |r| == |s|
    ensures forall i :: 0 <= i < |s| ==> r[i] == DownChar(s[i])
  {
    seq(|s|, i requires 0 <= i < |s| => DownChar(s[i]))
  }

  /** `String#capitalize`: the first character upper case, all others lower case. */
  function Capitalize(s: string): (r: string)
    ensures |r| == |s|
    ensures |s| > 0 ==> r[0] == UpChar(s[0])
    ensures forall i :: 0 < i < |s| ==> r[i] == DownChar(s[i])
  {
    if |s| == 0 then "" else [UpChar(s[0])] + Downcase(s[1..])
  }

  /** Capitalizing twice is capitalizing once. */
  lemma CapitalizeIdempotent(s: string)
    ensures Capitalize(Capitalize(s)) == Capitalize(s)
  {
  }

  /** The index of the first `c` in `s`. */
  function IndexOf(s: string, c: char): (r: Option<nat>)
    ensures r.Some? ==> r.value < |s| && s[r.value] == c && c !in s[..r.value]
    ensures r.None? <==> c !in s
  {
    if |s| == 0 then None
    else if s[0] == c then Some(0)
    else match IndexOf(s[1..], c)
      case None => None
      case Some(i) => Some(i + 1)
  }

  /** The first occurrence is the one with no earlier occurrence. */
  lemma IndexOfFirst(s: string, c: char, k: nat)
    requires k < |s| && s[k] == c && c !in s[..k]
    ensures IndexOf(s, c) == Some(k)
  {
    assert s[k] == c;
    var r := IndexOf(s, c).value;
    NotBefore(s, c, k);
    NotBefore(s, c, r);
  }

  lemma NotBefore(s: string, c: char, k: nat)
    requires k <= |s| && c !in s[..k]
    ensures forall j :: 0 <= j < k ==> s[j] != c
  {
    forall j | 0 <= j < k ensures s[j] != c {
      assert s[..k][j] == s[j];
    }
  }

  /** `xs.join(sep)`. */
  function Join(xs: seq<string>, sep: string): string
  {
    if |xs| == 0 then ""
    else if |xs| == 1 then xs[0]
    else xs[0] + sep + Join(xs[1..], sep)
  }

  /** `xs.join` with no separator. */
  function Concat(xs: seq<string>): (r: string)
    ensures |xs| == 0 ==> r == ""
  {
    if |xs| == 0 then "" else xs[0] + Concat(xs[1..])
  }

  lemma ConcatAppend(xs: seq<string>, ys: seq<string>)
    ensures Concat(xs + ys) == Concat(xs) + Concat(ys)
  {
    if |xs| > 0 {
      assert (xs + ys)[1..] == xs[1..] + ys;
      ConcatAppend(xs[1..], ys);
    } else {
      assert xs + ys == ys;
    }
  }

  /** Splits `s` at every `d`, keeping empty segments. Ruby's `split` additionally drops
      trailing empty segments; callers that only concatenate transformed segments whose
      transform maps "" to "" see no difference. */
  function Split(s: string, d: char): (parts: seq<string>)
    ensures |parts| >= 1
    ensures forall k :: 0 <= k < |parts| ==> d !in parts[k]
    ensures Join(parts, [d]) == s
    decreases |s|
  {
    match IndexOf(s, d)
    case None => [s]
    case Some(i) =>
      var rest := Split(s[i + 1..], d);
      assert s == s[..i] + [d] + s[i + 1..];
      [s[..i]] + rest
  }

  /** The number of occurrences of `c` in `s`. */
  function Count(s: string, c: char): (n: nat)
    ensures n <= |s|
    ensures n == 0 <==> c !in s
  {
    if |s| == 0 then 0 else (if s[0] == c then 1 else 0) + Count(s[1..], c)
  }

  /** `s.gsub(a, b)` for two one-character strings. */
  function ReplaceChar(s: string, a: char, b: char): (r: string)
    ensures |r| == |s|
    ensures forall i :: 0 <= i < |s| ==> r[i] == (if s[i] == a then b else s[i])
  {
    seq(|s|, i requires 0 <= i < |s| => if s[i] == a then b else s[i])
  }

  /** `s.end_with?(c)` for a one-character suffix. */
  predicate EndsWith(s: string, c: char)
  {
    |s| > 0 && s[|s| - 1] == c
  }

  /** `s.chomp(c)` for a one-character argument: removes one trailing `c`. */
  function Chomp(s: string, c: char): (r: string)
    ensures EndsWith(s, c) ==> r + [c] == s
    ensures !EndsWith(s, c) ==> r == s
  {
    if EndsWith(s, c) then s[..|s| - 1] else s
  }

  function DigitChar(d: nat): (c: char)
    requires d < 10
    ensures IsDigit(c)
  {
    ('0' as int + d) as char
  }

  function NatToString(n: nat): (r: string)
    ensures |r| > 0
    ensures forall i :: 0 <= i < |r| ==> IsDigit(r[i])
  {
    if n < 10 then [DigitChar(n)] else NatToString(n / 10) + [DigitChar(n % 10)]
  }

  /** `Integer#to_s`. */
  function IntToString(n: int): (r: string)
    ensures |r| > 0
  {
    if n < 0 then "-" + NatToString(-n) else NatToString(n)
  }
}
