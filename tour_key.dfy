/**
 * The tour key generator of the API server (`generateTourKey`), which the admin dashboard
 * repeats as `generateTourId`. A key is three segments joined by dashes: the first four
 * characters of the lower-cased category; the lower-cased name with every character other
 * than a letter, a digit or white space dropped, each run of white space turned into one
 * dash, cut to twenty characters; and the last four digits of the clock reading.
 *
 * The clock reading is the parameter `now`.
 */
module TourKey {
  import opened Seqs
  import opened Strings

  /** A character the suffix may contain: `[a-z0-9-]`. */
  predicate SlugChar(c: char) { IsLowerAlnum(c) || c == '-' }

  predicate SlugChars(s: string) {
    forall i :: 0 <= i < |s| ==> SlugChar(s[i])
  }

  /** No two adjacent dashes. */
  predicate NoDoubleDash(s: string) {
    forall i :: 0 <= i && i + 1 < |s| ==> !(s[i] == '-' && s[i + 1] == '-')
  }

  /** Characters that survive `replace(/[^a-z0-9\s]/g, "")`. */
  predicate KeptByFilter(c: char) { IsLowerAlnum(c) || IsJsSpace(c) }

  predicate AllKept(s: string) {
    forall i :: 0 <= i < |s| ==> KeptByFilter(s[i])
  }

  /**
   * `replace(/[^a-z0-9\s]/g, "")`: every character outside `[a-z0-9]` and `\s` is dropped,
   * the others stay in their order; a text with nothing to drop is returned as it is.
   */
  function DropPunctuation(s: string): (r: string)
    ensures |r| <= |s|
    ensures AllKept(r)
    ensures IsSubsequence(r, s)
    ensures forall i :: 0 <= i < |s| && KeptByFilter(s[i]) ==> s[i] in r
    ensures AllKept(s) ==> r == s
  {
    if s == [] then []
    else
      var rest := DropPunctuation(s[1..]);
      assert forall i :: 1 <= i < |s| ==> s[i] == s[1..][i - 1];
      assert [s[0]] + s[1..] == s;
      if KeptByFilter(s[0]) then
        var r := [s[0]] + rest;
        assert r[1..] == rest;
        r
      else
        SubsequenceCons(s[0], rest, s[1..]);
        rest
  }

  /** The filter works character by character: filtering a concatenation filters each part. */
  lemma {:induction false} DropPunctuationAppend(a: string, b: string)
    ensures DropPunctuation(a + b) == DropPunctuation(a) + DropPunctuation(b)
  {
    if a == [] {
      assert a + b == b;
    } else {
      assert (a + b)[0] == a[0] && (a + b)[1..] == a[1..] + b;
      DropPunctuationAppend(a[1..], b);
      if KeptByFilter(a[0]) {
        assert [a[0]] + (DropPunctuation(a[1..]) + DropPunctuation(b))
            == ([a[0]] + DropPunctuation(a[1..])) + DropPunctuation(b);
      }
    }
  }

  /**
   * `replace(/\s+/g, "-")` on a text holding only `[a-z0-9]` and white space:
   * each maximal run of white space becomes one dash, and a text without white space is
   * returned as it is.
   */
  function DashSpaces(s: string): (r: string)
    requires AllKept(s)
    decreases |s|
    ensures |r| <= |s|
    ensures SlugChars(r) && NoDoubleDash(r)
    ensures (r == []) == (s == [])
    ensures r != [] ==> (r[0] == '-' <==> IsJsSpace(s[0]))
  {
    if s == [] then []
    else if IsJsSpace(s[0]) then
      var t := TrimStart(s);
      KeptSuffix(s, |s| - |t|);
      var rest := DashSpaces(t);
      DashThen(rest);
      "-" + rest
    else
      KeptSuffix(s, 1);
      var rest := DashSpaces(s[1..]);
      AlnumThen(s[0], rest);
      [s[0]] + rest
  }

  /** A text without white space comes out of the dash replacement as it went in. */
  lemma {:induction false} DashSpacesWithoutSpaces(s: string)
    requires AllKept(s)
    requires forall i :: 0 <= i < |s| ==> !IsJsSpace(s[i])
    ensures DashSpaces(s) == s
  {
    if s != [] {
      KeptSuffix(s, 1);
      assert forall i :: 0 <= i < |s[1..]| ==> s[1..][i] == s[i + 1];
      DashSpacesWithoutSpaces(s[1..]);
      assert [s[0]] + s[1..] == s;
    }
  }

  /** A suffix of a text that passed the filter passed it too. */
  lemma KeptSuffix(s: string, k: nat)
    requires k <= |s|
    requires AllKept(s)
    ensures AllKept(s[k..])
  {
    assert forall i :: 0 <= i < |s[k..]| ==> s[k..][i] == s[k + i];
  }

  /**
   * Reading the text left to right: a letter or digit is copied, the first white space
   * character of a run adds one dash, and the rest of the run adds nothing.
   */
  lemma {:induction false} DashSpacesSnoc(s: string, c: char)
    requires AllKept(s) && KeptByFilter(c)
    ensures AllKept(s + [c])
    ensures DashSpaces(s + [c]) ==
              if !IsJsSpace(c) then DashSpaces(s) + [c]
              else if s != [] && IsJsSpace(s[|s| - 1]) then DashSpaces(s)
              else DashSpaces(s) + "-"
    decreases |s|, 1
  {
    KeptSnoc(s, c);
    if s == [] {
      assert s + [c] == [c];
      DashSpacesOne(c);
    } else if !IsJsSpace(s[0]) {
      SnocAfterCharacter(s, c);
    } else if TrimStart(s) == [] {
      SnocAfterSpaces(s, c);
    } else {
      SnocAfterSpaceHead(s, c);
    }
  }

  /** `DashSpaces` of a text that starts with a letter or digit. */
  lemma CharacterHead(x: string)
    requires AllKept(x) && x != [] && !IsJsSpace(x[0])
    ensures AllKept(x[1..]) && DashSpaces(x) == [x[0]] + DashSpaces(x[1..])
  {
    KeptSuffix(x, 1);
  }

  /** `DashSpaces` of a text that starts with white space. */
  lemma SpaceHead(x: string)
    requires AllKept(x) && x != [] && IsJsSpace(x[0])
    ensures AllKept(TrimStart(x)) && DashSpaces(x) == "-" + DashSpaces(TrimStart(x))
  {
    KeptSuffix(x, |x| - |TrimStart(x)|);
  }

  lemma {:induction false} SnocAfterCharacter(s: string, c: char)
    requires AllKept(s) && KeptByFilter(c) && AllKept(s + [c])
    requires s != [] && !IsJsSpace(s[0])
    ensures DashSpaces(s + [c]) ==
              if !IsJsSpace(c) then DashSpaces(s) + [c]
              else if IsJsSpace(s[|s| - 1]) then DashSpaces(s)
              else DashSpaces(s) + "-"
    decreases |s|, 0
  {
    var sc := s + [c];
    assert sc[0] == s[0] && sc[1..] == s[1..] + [c];
    CharacterHead(s);
    CharacterHead(sc);
    DashSpacesSnoc(s[1..], c);
    if |s| > 1 {
      assert s[1..][|s| - 2] == s[|s| - 1];
    }
    Regroup([s[0]], DashSpaces(s[1..]), c);
  }

  lemma {:induction false} SnocAfterSpaceHead(s: string, c: char)
    requires AllKept(s) && KeptByFilter(c) && AllKept(s + [c])
    requires s != [] && IsJsSpace(s[0]) && TrimStart(s) != []
    ensures !IsJsSpace(c) ==> DashSpaces(s + [c]) == DashSpaces(s) + [c]
    ensures IsJsSpace(c) && IsJsSpace(s[|s| - 1]) ==> DashSpaces(s + [c]) == DashSpaces(s)
    ensures IsJsSpace(c) && !IsJsSpace(s[|s| - 1]) ==> DashSpaces(s + [c]) == DashSpaces(s) + "-"
    decreases |s|, 0
  {
    var t := TrimStart(s);
    SpaceHeadSnoc(s, c);
    DashSpacesSnoc(t, c);
    var d := DashSpaces(t);
    if !IsJsSpace(c) {
      assert DashSpaces(t + [c]) == d + [c];
      Regroup("-", d, c);
      assert DashSpaces(s + [c]) == "-" + (d + [c]) == ("-" + d) + [c];
    } else if IsJsSpace(s[|s| - 1]) {
      assert DashSpaces(t + [c]) == d;
      assert DashSpaces(s + [c]) == "-" + d;
    } else {
      assert DashSpaces(t + [c]) == d + "-";
      Regroup("-", d, c);
      assert DashSpaces(s + [c]) == "-" + (d + "-") == ("-" + d) + "-";
    }
  }

  /** The white space a text starts with becomes one dash, with or without one more character. */
  lemma SpaceHeadSnoc(s: string, c: char)
    requires AllKept(s) && KeptByFilter(c) && AllKept(s + [c])
    requires s != [] && IsJsSpace(s[0]) && TrimStart(s) != []
    ensures var t := TrimStart(s);
      && AllKept(t) && |t| < |s| && t[|t| - 1] == s[|s| - 1]
      && AllKept(t + [c])
      && DashSpaces(s) == "-" + DashSpaces(t)
      && DashSpaces(s + [c]) == "-" + DashSpaces(t + [c])
  {
    var sc, t := s + [c], TrimStart(s);
    assert sc[0] == s[0];
    TrimStartAppend(s, [c]);
    SpaceHead(s);
    SpaceHead(sc);
  }

  /** A run of white space followed by one more character. */
  lemma SnocAfterSpaces(s: string, c: char)
    requires AllKept(s) && KeptByFilter(c) && AllKept(s + [c])
    requires s != [] && IsJsSpace(s[0]) && TrimStart(s) == []
    ensures IsJsSpace(s[|s| - 1])
    ensures DashSpaces(s + [c]) == if IsJsSpace(c) then DashSpaces(s) else DashSpaces(s) + [c]
  {
    TrimmedAway(s);
    SpaceHead(s);
    assert DashSpaces(s) == "-";
    assert (s + [c])[0] == s[0];
    SpaceHead(s + [c]);
    TrimStartAppend(s, [c]);
    TrimStartOne(c);
    DashSpacesOne(c);
    assert DashSpaces(s + [c]) == "-" + DashSpaces(TrimStart([c]));
    if IsJsSpace(c) {
      assert TrimStart([c]) == [];
      assert DashSpaces(s + [c]) == "-";
    } else {
      assert TrimStart([c]) == [c];
      assert DashSpaces(s + [c]) == "-" + [c];
    }
  }

  /** Both ways of putting a text between a head and one more character agree, dash included. */
  lemma Regroup(head: string, rest: string, c: char)
    ensures head + (rest + [c]) == (head + rest) + [c]
    ensures head + (rest + "-") == (head + rest) + "-"
  {
  }

  lemma KeptSnoc(s: string, c: char)
    requires AllKept(s) && KeptByFilter(c)
    ensures AllKept(s + [c])
  {
    assert forall i :: 0 <= i < |s| ==> (s + [c])[i] == s[i];
  }

  lemma TrimStartOne(c: char)
    ensures TrimStart([c]) == if IsJsSpace(c) then [] else [c]
  {
    assert [c][1..] == [];
  }

  lemma DashSpacesOne(c: char)
    requires KeptByFilter(c)
    ensures DashSpaces([c]) == if IsJsSpace(c) then "-" else [c]
  {
    assert [c][1..] == [];
    TrimStartOne(c);
  }

  /** A text that trims to nothing is white space only. */
  lemma TrimmedAway(s: string)
    requires TrimStart(s) == []
    ensures AllSpaces(s)
  {
    assert s[..|s|] == s;
  }

  /** A dash in front of a slug that does not start with a dash. */
  lemma DashThen(rest: string)
    requires SlugChars(rest) && NoDoubleDash(rest) && (rest != [] ==> rest[0] != '-')
    ensures SlugChars("-" + rest) && NoDoubleDash("-" + rest)
  {
    var r := "-" + rest;
    assert forall i :: 1 <= i < |r| ==> r[i] == rest[i - 1];
  }

  /** A letter or digit in front of a slug. */
  lemma AlnumThen(c: char, rest: string)
    requires IsLowerAlnum(c) && SlugChars(rest) && NoDoubleDash(rest)
    ensures SlugChars([c] + rest) && NoDoubleDash([c] + rest)
  {
    var r := [c] + rest;
    assert forall i :: 1 <= i < |r| ==> r[i] == rest[i - 1];
  }

  /** `s.substring(0, n)`. */
  function Take(s: string, n: nat): (r: string)
    ensures |r| == if |s| <= n then |s| else n
    ensures r == s[..|r|]
  {
    if |s| <= n then s else s[..n]
  }

  /** The first segment: up to four characters of the lower-cased category. */
  function KeyPrefix(category: string): (r: string)
    ensures |r| <= 4
    ensures StartsWith(Lower(category), r)
    ensures |category| >= 4 ==> |r| == 4
  {
    Take(Lower(category), 4)
  }

  /** The middle segment, built from the tour name. */
  function KeySuffix(name: string): (r: string)
    ensures |r| <= 20
    ensures SlugChars(r) && NoDoubleDash(r)
  {
    Take(DashSpaces(DropPunctuation(Lower(name))), 20)
  }

  /** The last segment: at most the last four digits of the clock reading. */
  function KeyStamp(now: nat): (r: string)
    ensures |r| <= 4
    ensures forall i :: 0 <= i < |r| ==> IsDigit(r[i])
    ensures now >= 1000 ==> |r| == 4
    ensures var d := NatToString(now); |r| <= |d| && d[|d| - |r|..] == r
  {
    var d := NatToString(now);
    if |d| <= 4 then d else d[|d| - 4..]
  }

  function GenerateTourKey(name: string, category: string, now: nat): string {
    KeyPrefix(category) + "-" + KeySuffix(name) + "-" + KeyStamp(now)
  }

  /**
   * Every generated key reads `prefix-suffix-stamp`: a prefix of the lower-cased category of
   * at most four characters, a suffix of at most twenty characters from `[a-z0-9-]` without
   * two adjacent dashes, and at most the last four digits of the clock reading.
   */
  lemma TourKeyShape(name: string, category: string, now: nat)
    ensures exists p, s, t ::
      && GenerateTourKey(name, category, now) == p + "-" + s + "-" + t
      && |p| <= 4 && StartsWith(Lower(category), p)
      && |s| <= 20 && SlugChars(s) && NoDoubleDash(s)
      && |t| <= 4 && (forall i :: 0 <= i < |t| ==> IsDigit(t[i]))
      && (var d := NatToString(now); |t| <= |d| && d[|d| - |t|..] == t)
  {
    var p, s, t := KeyPrefix(category), KeySuffix(name), KeyStamp(now);
    assert GenerateTourKey(name, category, now) == p + "-" + s + "-" + t;
  }

  /** The key is never longer than 4 + 1 + 20 + 1 + 4 characters. */
  lemma TourKeyLength(name: string, category: string, now: nat)
    ensures |GenerateTourKey(name, category, now)| <= 30
  {
  }
}
