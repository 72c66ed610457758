/**
 * The JavaScript string operations the site relies on, over `seq<char>`:
 * ASCII case mapping (`toLowerCase` / `toUpperCase`), the `\s` character class and
 * `trim()`, `includes`, placeholder counting, decimal rendering of numbers and `join`.
 */
module Strings {
  import opened Seqs

  predicate IsAsciiUpper(c: char) { 'A' <= c <= 'Z' }
  predicate IsAsciiLower(c: char) { 'a' <= c <= 'z' }
  predicate IsDigit(c: char) { '0' <= c <= '9' }

  /** The class `[a-z0-9]`. */
  predicate IsLowerAlnum(c: char) { IsAsciiLower(c) || IsDigit(c) }

  /** ECMAScript WhiteSpace and LineTerminator code points: what `\s` matches and `trim()` strips. */
  predicate IsJsSpace(c: char) {
    c in JsSpaces
  }

  const JsSpaces: set<char> := {
    '\t', '\n', '\U{B}', '\U{C}', '\r', ' ', '\U{A0}', '\U{1680}',
    '\U{2000}', '\U{2001}', '\U{2002}', '\U{2003}', '\U{2004}', '\U{2005}',
    '\U{2006}', '\U{2007}', '\U{2008}', '\U{2009}', '\U{200A}',
    '\U{2028}', '\U{2029}', '\U{202F}', '\U{205F}', '\U{3000}', '\U{FEFF}'}

  predicate AllSpaces(s: string) {
    forall i :: 0 <= i < |s| ==> IsJsSpace(s[i])
  }

  function LowerChar(c: char): (r: char)
    ensures !IsAsciiUpper(r)
    ensures IsJsSpace(r) == IsJsSpace(c)
  {
    if IsAsciiUpper(c) then (c as int + 32) as char else c
  }

  function UpperChar(c: char): (r: char)
    ensures !IsAsciiLower(r)
    ensures IsJsSpace(r) == IsJsSpace(c)
  {
    if IsAsciiLower(c) then (c as int - 32) as char else c
  }

  /** `s.toLowerCase()` restricted to the ASCII letters. */
  function Lower(s: string): (r: string)
    ensures |r| == |s|
    ensures forall i :: 0 <= i < |s| ==> r[i] == LowerChar(s[i])
  {
    seq(|s|, i requires 0 <= i < |s| => LowerChar(s[i]))
  }

  /** `s.toUpperCase()` restricted to the ASCII letters. */
  function Upper(s: string): (r: string)
    ensures |r| == |s|
    ensures forall i :: 0 <= i < |s| ==> r[i] == UpperChar(s[i])
  {
    seq(|s|, i requires 0 <= i < |s| => UpperChar(s[i]))
  }

  /** Lower-casing a second time changes nothing. */
  lemma LowerIdempotent(s: string)
    ensures Lower(Lower(s)) == Lower(s)
  {
    assert forall i :: 0 <= i < |s| ==> Lower(Lower(s))[i] == Lower(s)[i];
  }

  /** Upper-casing a second time changes nothing. */
  lemma UpperIdempotent(s: string)
    ensures Upper(Upper(s)) == Upper(s)
  {
    assert forall i :: 0 <= i < |s| ==> Upper(Upper(s))[i] == Upper(s)[i];
  }

  /** `s.trimStart()`: the leading run of white space removed. */
  function TrimStart(s: string): (r: string)
    ensures |r| <= |s| && r == s[|s| - |r|..]
    ensures r == [] || !IsJsSpace(r[0])
    ensures AllSpaces(s[..|s| - |r|])
  {
    if s != [] && IsJsSpace(s[0]) then
      var t := TrimStart(s[1..]);
      assert s[1..][..|s| - 1 - |t|] == s[1..|s| - |t|];
      t
    else s
  }

  /** `s.trimEnd()`: the trailing run of white space removed. */
  function TrimEnd(s: string): (r: string)
    ensures |r| <= |s| && r == s[..|r|]
    ensures r == [] || !IsJsSpace(r[|r| - 1])
    ensures AllSpaces(s[|r|..])
  {
    if s != [] && IsJsSpace(s[|s| - 1]) then
      var t := TrimEnd(s[..|s| - 1]);
      assert s[|t|..] == s[..|s| - 1][|t|..] + [s[|s| - 1]];
      t
    else s
  }

  /** `s.trim()`. */
  function Trim(s: string): string {
    TrimEnd(TrimStart(s))
  }

  lemma {:induction false} TrimStartLower(s: string)
    ensures TrimStart(Lower(s)) == Lower(TrimStart(s))
  {
    if s != [] && IsJsSpace(s[0]) {
      assert Lower(s)[1..] == Lower(s[1..]);
      TrimStartLower(s[1..]);
    }
  }

  lemma {:induction false} TrimEndLower(s: string)
    ensures TrimEnd(Lower(s)) == Lower(TrimEnd(s))
  {
    if s != [] && IsJsSpace(s[|s| - 1]) {
      assert Lower(s)[..|s| - 1] == Lower(s[..|s| - 1]);
      TrimEndLower(s[..|s| - 1]);
    }
  }

  /** Trimming and lower-casing commute, since no ASCII letter is white space. */
  lemma TrimLowerCommute(s: string)
    ensures Trim(Lower(s)) == Lower(Trim(s))
  {
    TrimStartLower(s);
    TrimEndLower(TrimStart(s));
  }

  lemma {:induction false} TrimStartUpper(s: string)
    ensures TrimStart(Upper(s)) == Upper(TrimStart(s))
  {
    if s != [] && IsJsSpace(s[0]) {
      assert Upper(s)[1..] == Upper(s[1..]);
      TrimStartUpper(s[1..]);
    }
  }

  lemma {:induction false} TrimEndUpper(s: string)
    ensures TrimEnd(Upper(s)) == Upper(TrimEnd(s))
  {
    if s != [] && IsJsSpace(s[|s| - 1]) {
      assert Upper(s)[..|s| - 1] == Upper(s[..|s| - 1]);
      TrimEndUpper(s[..|s| - 1]);
    }
  }

  /** Trimming and upper-casing commute. */
  lemma TrimUpperCommute(s: string)
    ensures Trim(Upper(s)) == Upper(Trim(s))
  {
    TrimStartUpper(s);
    TrimEndUpper(TrimStart(s));
  }

  /** A trimmed text neither starts nor ends with white space, so trimming it again changes nothing. */
  lemma TrimIdempotent(s: string)
    ensures Trim(Trim(s)) == Trim(s)
    ensures Trim(s) == [] || (!IsJsSpace(Trim(s)[0]) && !IsJsSpace(Trim(s)[|Trim(s)| - 1]))
  {
    var u := TrimStart(s);
    var t := TrimEnd(u);
    if t != [] {
      assert t[0] == u[0];
    }
  }

  lemma {:induction false} TrimStartSkipsSpaces(w: string, s: string)
    requires AllSpaces(w)
    ensures TrimStart(w + s) == TrimStart(s)
  {
    if w == [] {
      assert w + s == s;
    } else {
      assert (w + s)[0] == w[0] && IsJsSpace(w[0]);
      assert (w + s)[1..] == w[1..] + s;
      TrimStartSkipsSpaces(w[1..], s);
    }
  }

  lemma {:induction false} TrimEndSkipsSpaces(s: string, w: string)
    requires AllSpaces(w)
    ensures TrimEnd(s + w) == TrimEnd(s)
  {
    if w == [] {
      assert s + w == s;
    } else {
      assert (s + w)[|s + w| - 1] == w[|w| - 1] && IsJsSpace(w[|w| - 1]);
      assert (s + w)[..|s + w| - 1] == s + w[..|w| - 1];
      TrimEndSkipsSpaces(s, w[..|w| - 1]);
    }
  }

  lemma {:induction false} TrimStartAppend(s: string, w: string)
    ensures TrimStart(s) != [] ==> TrimStart(s + w) == TrimStart(s) + w
    ensures TrimStart(s) == [] ==> TrimStart(s + w) == TrimStart(w)
  {
    if s == [] {
      assert s + w == w;
    } else if IsJsSpace(s[0]) {
      assert (s + w)[0] == s[0] && (s + w)[1..] == s[1..] + w;
      assert TrimStart(s + w) == TrimStart(s[1..] + w) && TrimStart(s) == TrimStart(s[1..]);
      TrimStartAppend(s[1..], w);
    } else {
      assert (s + w)[0] == s[0];
      assert TrimStart(s) == s && TrimStart(s + w) == s + w;
    }
  }

  /** `trim()` ignores white space added around its argument. */
  lemma TrimPadded(w1: string, s: string, w2: string)
    requires AllSpaces(w1) && AllSpaces(w2)
    ensures Trim(w1 + s + w2) == Trim(s)
  {
    assert w1 + s + w2 == w1 + (s + w2);
    TrimStartSkipsSpaces(w1, s + w2);
    TrimStartAppend(s, w2);
    if TrimStart(s) != [] {
      TrimEndSkipsSpaces(TrimStart(s), w2);
    } else {
      SpacesTrimToEmpty(w2);
    }
  }

  lemma {:induction false} SpacesTrimToEmpty(w: string)
    requires AllSpaces(w)
    ensures TrimStart(w) == []
  {
    if w != [] {
      SpacesTrimToEmpty(w[1..]);
    }
  }

  /** `s.startsWith(p)`. */
  predicate StartsWith(s: string, p: string) {
    |p| <= |s| && s[..|p|] == p
  }

  /** `s.includes(sub)`. */
  predicate Contains(s: string, sub: string)
    decreases |s|
  {
    StartsWith(s, sub) || (s != [] && Contains(s[1..], sub))
  }

  /** Number of `?` placeholders in an SQL text. */
  function Placeholders(s: string): nat {
    Count(s, '?')
  }

  lemma {:induction false} PlaceholdersConcat(a: string, b: string)
    ensures Placeholders(a + b) == Placeholders(a) + Placeholders(b)
  {
    if a != [] {
      assert (a + b)[1..] == a[1..] + b;
      PlaceholdersConcat(a[1..], b);
    } else {
      assert a + b == b;
    }
  }

  /** A piece appended only when `b` holds adds its placeholders only then. */
  lemma AppendWhen(prefix: string, b: bool, piece: string)
    ensures Placeholders(prefix + When(b, piece)) == Placeholders(prefix) + (if b then Placeholders(piece) else 0)
  {
    PlaceholdersConcat(prefix, When(b, piece));
  }

  /** A text without `?` binds nothing. */
  lemma {:induction false} NoPlaceholders(s: string)
    requires '?' !in s
    ensures Placeholders(s) == 0
  {
    if s != [] {
      assert forall c :: c in s[1..] ==> c in s;
      NoPlaceholders(s[1..]);
    }
  }

  /** `fixed + "?" + rest`: one placeholder between two texts free of `?`. */
  lemma OnePlaceholder(fixed: string, rest: string)
    requires '?' !in fixed && '?' !in rest
    ensures Placeholders(fixed + "?" + rest) == 1
  {
    NoPlaceholders(fixed);
    NoPlaceholders(rest);
    assert Placeholders("?") == 1;
    PlaceholdersConcat(fixed, "?");
    PlaceholdersConcat(fixed + "?", rest);
  }

  /** `fixed + "?"`: one placeholder after a text free of `?`. */
  lemma EndsInPlaceholder(fixed: string)
    requires '?' !in fixed
    ensures Placeholders(fixed + "?") == 1
  {
    OnePlaceholder(fixed, "");
    assert fixed + "?" + "" == fixed + "?";
  }

  function DigitChar(d: nat): (r: char)
    requires d < 10
    ensures IsDigit(r)
  {
    ('0' as int + d) as char
  }

  /** `String(n)` for a non-negative integer: its decimal digits without leading zeros. */
  function NatToString(n: nat): (r: string)
    ensures |r| >= 1
    ensures forall i :: 0 <= i < |r| ==> IsDigit(r[i])
    ensures n >= 10 ==> |r| >= 2
    ensures n >= 100 ==> |r| >= 3
    ensures n >= 1000 ==> |r| >= 4
  {
    if n < 10 then [DigitChar(n)] else NatToString(n / 10) + [DigitChar(n % 10)]
  }

  /** `parts.join(sep)`. */
  function Join(parts: seq<string>, sep: string): string {
    if |parts| == 0 then ""
    else if |parts| == 1 then parts[0]
    else parts[0] + sep + Join(parts[1..], sep)
  }

  /** Total number of placeholders over a list of SQL fragments. */
  function SumPlaceholders(parts: seq<string>): nat {
    if parts == [] then 0 else Placeholders(parts[0]) + SumPlaceholders(parts[1..])
  }

  lemma {:induction false} SumPlaceholdersConcat(a: seq<string>, b: seq<string>)
    ensures SumPlaceholders(a + b) == SumPlaceholders(a) + SumPlaceholders(b)
  {
    if a != [] {
      assert (a + b)[1..] == a[1..] + b;
      SumPlaceholdersConcat(a[1..], b);
    } else {
      assert a + b == b;
    }
  }

  lemma {:induction false} SumPlaceholdersFree(parts: seq<string>)
    requires forall i :: 0 <= i < |parts| ==> '?' !in parts[i]
    ensures SumPlaceholders(parts) == 0
  {
    if parts != [] {
      NoPlaceholders(parts[0]);
      SumPlaceholdersFree(parts[1..]);
    }
  }

  /** Joining texts free of `?` with a separator free of `?` gives a text free of `?`. */
  lemma {:induction false} JoinFree(parts: seq<string>, sep: string)
    requires '?' !in sep
    requires forall i :: 0 <= i < |parts| ==> '?' !in parts[i]
    ensures '?' !in Join(parts, sep)
  {
    if |parts| > 1 {
      JoinFree(parts[1..], sep);
    }
  }

  /** A prefix free of `?` adds no placeholder. */
  lemma PrefixFree(prefix: string, s: string)
    requires '?' !in prefix
    ensures Placeholders(prefix + s) == Placeholders(s)
  {
    NoPlaceholders(prefix);
    PlaceholdersConcat(prefix, s);
  }

  lemma SuffixFree(s: string, suffix: string)
    requires '?' !in suffix
    ensures Placeholders(s + suffix) == Placeholders(s)
  {
    NoPlaceholders(suffix);
    PlaceholdersConcat(s, suffix);
  }

  /** Joining with a separator free of `?` keeps exactly the fragments' placeholders. */
  lemma {:induction false} JoinPlaceholders(parts: seq<string>, sep: string)
    requires Placeholders(sep) == 0
    ensures Placeholders(Join(parts, sep)) == SumPlaceholders(parts)
  {
    if |parts| == 1 {
      assert parts[1..] == [];
    } else if |parts| > 1 {
      JoinPlaceholders(parts[1..], sep);
      PlaceholdersConcat(parts[0], sep);
      PlaceholdersConcat(parts[0] + sep, Join(parts[1..], sep));
    }
  }
}
