/** City labels: the normalised grouping key (`normalizeCityName` in
    app/page.tsx and app/sitemap.ts) and the URL slug (`createCitySlug` in
    app/sitemap.ts, the same expression inline in app/page.tsx).

    Whitespace is the ASCII part of what `String.prototype.trim` and the
    regular expression `\s` match (space, tab, line feed, vertical tab, form
    feed, carriage return); lower-casing maps `A`..`Z` only. */
module CityNames {
  import opened Wrappers
  import opened Lists

  predicate IsSpace(c: char) {
    c == ' ' || '\t' <= c <= '\r'
  }

  predicate IsUpper(c: char) {
    'A' <= c <= 'Z'
  }

  predicate NoSpace(s: string) {
    forall i :: 0 <= i < |s| ==> !IsSpace(s[i])
  }

  predicate AllSpace(s: string) {
    forall i :: 0 <= i < |s| ==> IsSpace(s[i])
  }

  predicate NoUpper(s: string) {
    forall i :: 0 <= i < |s| ==> !IsUpper(s[i])
  }

  function Lower(c: char): (d: char)
    ensures !IsUpper(d)
    ensures IsSpace(d) == IsSpace(c)
    ensures !IsUpper(c) ==> d == c
  {
    if IsUpper(c) then (c as int + 32) as char else c
  }

  /** `toLowerCase` */
  function LowerAll(s: string): (r: string)
    ensures |r| == |s| && NoUpper(r)
  {
    seq(|s|, i requires 0 <= i < |s| => Lower(s[i]))
  }

  /** Drops the leading whitespace. */
  function TrimStart(s: string): (r: string)
    ensures |r| <= |s|
  {
    if |s| > 0 && IsSpace(s[0]) then TrimStart(s[1..]) else s
  }

  /** Drops the trailing whitespace. */
  function TrimEnd(s: string): (r: string)
    ensures |r| <= |s|
  {
    if |s| > 0 && IsSpace(s[|s| - 1]) then TrimEnd(s[..|s| - 1]) else s
  }

  /** `trim` */
  function Trim(s: string): string {
    TrimEnd(TrimStart(s))
  }

  /** `trimStart` keeps a suffix, drops only whitespace, and stops at a
      non-space character. */
  lemma {:induction false} TrimStartFacts(s: string)
    ensures var r := TrimStart(s);
      && r == s[|s| - |r|..]
      && AllSpace(s[..|s| - |r|])
      && (r == [] || !IsSpace(r[0]))
    decreases |s|
  {
    if |s| > 0 && IsSpace(s[0]) {
      var r := TrimStart(s[1..]);
      TrimStartFacts(s[1..]);
      assert forall i :: 0 < i < |s| - |r| ==> s[i] == s[1..][..|s| - 1 - |r|][i - 1];
    }
  }

  /** `trimEnd` keeps a prefix, drops only whitespace, and stops at a
      non-space character. */
  lemma {:induction false} TrimEndFacts(s: string)
    ensures var r := TrimEnd(s);
      && r == s[..|r|]
      && AllSpace(s[|r|..])
      && (r == [] || !IsSpace(r[|r| - 1]))
    decreases |s|
  {
    if |s| > 0 && IsSpace(s[|s| - 1]) {
      var r := TrimEnd(s[..|s| - 1]);
      TrimEndFacts(s[..|s| - 1]);
      assert forall i :: |r| <= i < |s| - 1 ==> s[i] == s[..|s| - 1][|r|..][i - |r|];
    }
  }

  /** A trimmed label starts and ends with a non-space character. */
  lemma TrimEnds(s: string)
    ensures var r := Trim(s); r == [] || (!IsSpace(r[0]) && !IsSpace(r[|r| - 1]))
  {
    var t := TrimStart(s);
    TrimStartFacts(s);
    TrimEndFacts(t);
    var r := TrimEnd(t);
    if r != [] {
      assert r[0] == t[0];
    }
  }

  /** What `trim` keeps is a slice of the label with only whitespace around it. */
  lemma TrimIsSlice(s: string)
    ensures exists i, j :: 0 <= i <= j <= |s| && Trim(s) == s[i..j] && AllSpace(s[..i]) && AllSpace(s[j..])
  {
    var t := TrimStart(s);
    var r := TrimEnd(t);
    TrimStartFacts(s);
    TrimEndFacts(t);
    assert r == s[|s| - |t|..|s| - |t| + |r|];
    assert s[|s| - |t| + |r|..] == t[|r|..];
  }

  /** `normalizeCityName`: absent and empty labels give the empty key;
      otherwise the label is trimmed and lower-cased. */
  function NormalizeCityName(city: Option<string>): string {
    if city.None? || city.value == "" then "" else LowerAll(Trim(city.value))
  }

  /** The key of each label, in order. */
  function LabelKeys(cities: seq<Option<string>>): (ks: seq<string>)
    ensures |ks| == |cities|
  {
    seq(|cities|, i requires 0 <= i < |cities| => NormalizeCityName(cities[i]))
  }

  /** `.replace(/\s+/g, '-')`: every maximal run of whitespace becomes one hyphen. */
  function Hyphenate(s: string): (r: string)
    ensures NoSpace(r)
    decreases |s|
  {
    if s == [] then []
    else if IsSpace(s[0]) then "-" + Hyphenate(TrimStart(s))
    else [s[0]] + Hyphenate(s[1..])
  }

  /** `createCitySlug`, and the slug expression of the home page's city links. */
  function CreateCitySlug(city: string): string {
    Hyphenate(LowerAll(city))
  }

  // ---------------------------------------------------------------------
  // Trimming

  lemma {:induction false} TrimStartNoSpaceHead(s: string)
    requires s == [] || !IsSpace(s[0])
    ensures TrimStart(s) == s
  {
  }

  lemma {:induction false} TrimStartSpaces(w: string, s: string)
    requires AllSpace(w)
    ensures TrimStart(w + s) == TrimStart(s)
    decreases |w|
  {
    if w != [] {
      assert (w + s)[1..] == w[1..] + s;
      TrimStartSpaces(w[1..], s);
    } else {
      assert w + s == s;
    }
  }

  lemma {:induction false} TrimEndSpaces(s: string, w: string)
    requires AllSpace(w)
    ensures TrimEnd(s + w) == TrimEnd(s)
    decreases |w|
  {
    if w != [] {
      var w' := w[..|w| - 1];
      assert (s + w)[..|s + w| - 1] == s + w';
      TrimEndSpaces(s, w');
    } else {
      assert s + w == s;
    }
  }

  /** Leading whitespace stops at the first non-space character, so what
      follows it is kept whole. */
  lemma {:induction false} TrimStartAppend(s: string, q: string)
    requires !AllSpace(s)
    ensures TrimStart(s + q) == TrimStart(s) + q
    decreases |s|
  {
    if IsSpace(s[0]) {
      assert (s + q)[1..] == s[1..] + q;
      assert !AllSpace(s[1..]) by {
        var k :| 0 <= k < |s| && !IsSpace(s[k]);
        assert s[1..][k - 1] == s[k];
      }
      TrimStartAppend(s[1..], q);
    }
  }

  lemma {:induction false} TrimStartAllSpace(s: string)
    requires AllSpace(s)
    ensures TrimStart(s) == []
  {
    assert s == s + [];
    TrimStartSpaces(s, []);
  }

  /** Whitespace around a label does not change its trimmed form. */
  lemma {:induction false} TrimPadded(p: string, s: string, q: string)
    requires AllSpace(p) && AllSpace(q)
    ensures Trim(p + s + q) == Trim(s)
  {
    assert p + s + q == p + (s + q);
    TrimStartSpaces(p, s + q);
    if AllSpace(s) {
      assert AllSpace(s + q);
      TrimStartAllSpace(s + q);
      TrimStartAllSpace(s);
    } else {
      TrimStartAppend(s, q);
      TrimEndSpaces(TrimStart(s), q);
    }
  }

  lemma {:induction false} TrimEndNoSpaceTail(s: string)
    requires s == [] || !IsSpace(s[|s| - 1])
    ensures TrimEnd(s) == s
  {
  }

  /** A trimmed label has nothing left to trim. */
  lemma {:induction false} TrimIdempotent(s: string)
    ensures Trim(Trim(s)) == Trim(s)
  {
    var t := Trim(s);
    TrimEnds(s);
    TrimStartNoSpaceHead(t);
    TrimEndNoSpaceTail(t);
  }

  // ---------------------------------------------------------------------
  // Lower-casing

  lemma LowerAllIdempotent(s: string)
    ensures LowerAll(LowerAll(s)) == LowerAll(s)
  {
  }

  lemma LowerAllNoUpper(s: string)
    requires NoUpper(s)
    ensures LowerAll(s) == s
  {
  }

  lemma {:induction false} TrimStartLower(s: string)
    ensures TrimStart(LowerAll(s)) == LowerAll(TrimStart(s))
    decreases |s|
  {
    if |s| > 0 && IsSpace(s[0]) {
      assert LowerAll(s)[1..] == LowerAll(s[1..]);
      TrimStartLower(s[1..]);
    }
  }

  lemma {:induction false} TrimEndLower(s: string)
    ensures TrimEnd(LowerAll(s)) == LowerAll(TrimEnd(s))
    decreases |s|
  {
    if |s| > 0 && IsSpace(s[|s| - 1]) {
      assert LowerAll(s)[..|s| - 1] == LowerAll(s[..|s| - 1]);
      TrimEndLower(s[..|s| - 1]);
    }
  }

  /** Trimming and lower-casing commute, since lower-casing never turns a
      character into whitespace or whitespace into something else. */
  lemma {:induction false} TrimLower(s: string)
    ensures Trim(LowerAll(s)) == LowerAll(Trim(s))
  {
    TrimStartLower(s);
    TrimEndLower(TrimStart(s));
  }

  // ---------------------------------------------------------------------
  // Properties of the normalised key

  lemma {:induction false} TrimNotAllSpace(s: string)
    requires !AllSpace(s)
    ensures Trim(s) != []
  {
    var t := TrimStart(s);
    TrimStartFacts(s);
    TrimEndFacts(t);
  }

  /** The key is empty exactly for an absent label or one made only of whitespace. */
  lemma NormalizeEmpty(city: Option<string>)
    ensures NormalizeCityName(city) == "" <==> city.None? || AllSpace(city.value)
  {
    if city.Some? && city.value != "" {
      if AllSpace(city.value) {
        TrimStartAllSpace(city.value);
      } else {
        TrimNotAllSpace(city.value);
      }
    }
  }

  /** `normalizeCityName` applied to its own result changes nothing. */
  lemma NormalizeIdempotent(city: Option<string>)
    ensures NormalizeCityName(Some(NormalizeCityName(city))) == NormalizeCityName(city)
  {
    var k := NormalizeCityName(city);
    if k != "" {
      var t := Trim(city.value);
      assert k == LowerAll(t);
      calc {
        Trim(k);
        { TrimLower(t); }
        LowerAll(Trim(t));
        { TrimIdempotent(city.value); }
        LowerAll(t);
      }
      LowerAllIdempotent(t);
    }
  }

  /** Labels that differ only by surrounding whitespace share a key. */
  lemma NormalizeIgnoresPadding(p: string, s: string, q: string)
    requires AllSpace(p) && AllSpace(q)
    ensures NormalizeCityName(Some(p + s + q)) == NormalizeCityName(Some(s))
  {
    if AllSpace(s) {
      assert AllSpace(p + s + q);
      NormalizeEmpty(Some(p + s + q));
      NormalizeEmpty(Some(s));
    } else {
      assert s != [] && p + s + q != [];
      TrimPadded(p, s, q);
    }
  }

  /** Labels that differ only in letter case share a key. */
  lemma NormalizeIgnoresCase(s: string, t: string)
    requires LowerAll(s) == LowerAll(t)
    ensures NormalizeCityName(Some(s)) == NormalizeCityName(Some(t))
  {
    TrimLower(s);
    TrimLower(t);
    assert |s| == |t|;
  }

  /** Internal whitespace is kept: a label without surrounding whitespace
      is only lower-cased. */
  lemma NormalizeKeepsInterior(s: string)
    requires s != [] && !IsSpace(s[0]) && !IsSpace(s[|s| - 1])
    ensures NormalizeCityName(Some(s)) == LowerAll(s)
  {
    TrimStartNoSpaceHead(s);
    TrimEndNoSpaceTail(s);
  }

  /** A trimmed spelling normalises to the key of the untrimmed one; this is
      why trimming the displayed name never moves a city to another group. */
  lemma NormalizeTrimmed(s: string)
    ensures NormalizeCityName(Some(Trim(s))) == NormalizeCityName(Some(s))
  {
    TrimIdempotent(s);
    if s != "" && Trim(s) == "" {
      assert LowerAll(Trim(s)) == "";
    }
  }

  // ---------------------------------------------------------------------
  // Slugs

  /** A word without whitespace passes through unchanged. */
  lemma {:induction false} HyphenateWord(s: string)
    requires NoSpace(s)
    ensures Hyphenate(s) == s
    decreases |s|
  {
    if s != [] {
      HyphenateWord(s[1..]);
    }
  }

  /** A non-empty whitespace run followed by a word boundary becomes one hyphen. */
  lemma {:induction false} HyphenateRun(w: string, b: string)
    requires w != [] && AllSpace(w)
    requires b == [] || !IsSpace(b[0])
    ensures Hyphenate(w + b) == "-" + Hyphenate(b)
  {
    TrimStartSpaces(w, b);
    TrimStartNoSpaceHead(b);
  }

  /** A text that ends in a non-space character is hyphenated independently
      of what follows it. */
  lemma {:induction false} HyphenateSplit(a: string, b: string)
    requires a == [] || !IsSpace(a[|a| - 1])
    ensures Hyphenate(a + b) == Hyphenate(a) + Hyphenate(b)
    decreases |a|, 1
  {
    if a == [] {
      assert a + b == b;
    } else if IsSpace(a[0]) {
      HyphenateSplitRun(a, b);
    } else {
      HyphenateSplitChar(a, b);
    }
  }

  lemma {:induction false} HyphenateSplitRun(a: string, b: string)
    requires a != [] && IsSpace(a[0]) && !IsSpace(a[|a| - 1])
    ensures Hyphenate(a + b) == Hyphenate(a) + Hyphenate(b)
    decreases |a|, 0
  {
    var t := TrimStart(a);
    var ht, hb := Hyphenate(t), Hyphenate(b);
    assert Hyphenate(t + b) == ht + hb by {
      TrimStartKeepsLast(a);
      HyphenateSplit(t, b);
    }
    assert Hyphenate(a + b) == "-" + Hyphenate(t + b) && Hyphenate(a) == "-" + ht by {
      HyphenateLeadingRun(a, b);
    }
    AppendAssoc("-", ht, hb);
  }

  lemma {:induction false} HyphenateSplitChar(a: string, b: string)
    requires a != [] && !IsSpace(a[0]) && !IsSpace(a[|a| - 1])
    ensures Hyphenate(a + b) == Hyphenate(a) + Hyphenate(b)
    decreases |a|, 0
  {
    var c, rest := a[0], a[1..];
    assert a == [c] + rest;
    assert a + b == [c] + (rest + b);
    HyphenateCons(c, rest);
    HyphenateCons(c, rest + b);
    HyphenateSplit(rest, b);
    AppendAssoc([c], Hyphenate(rest), Hyphenate(b));
  }

  lemma HyphenateCons(c: char, s: string)
    requires !IsSpace(c)
    ensures Hyphenate([c] + s) == [c] + Hyphenate(s)
  {
    assert ([c] + s)[1..] == s;
  }

  lemma TrimStartKeepsLast(a: string)
    requires a != [] && IsSpace(a[0]) && !IsSpace(a[|a| - 1])
    ensures var t := TrimStart(a); t != [] && t[|t| - 1] == a[|a| - 1] && |t| < |a|
  {
    var t := TrimStart(a);
    var n := |a| - |t|;
    assert t[|t| - 1] == a[n..][|t| - 1];
  }

  /** Leading whitespace of `a` becomes one hyphen whatever follows `a`. */
  lemma HyphenateLeadingRun(a: string, b: string)
    requires a != [] && IsSpace(a[0]) && !IsSpace(a[|a| - 1])
    ensures Hyphenate(a + b) == "-" + Hyphenate(TrimStart(a) + b)
    ensures Hyphenate(a) == "-" + Hyphenate(TrimStart(a))
  {
    assert !AllSpace(a);
    TrimStartAppend(a, b);
    assert (a + b)[0] == a[0];
  }

  /** The slug never contains whitespace or an upper-case letter. */
  lemma SlugShape(city: string)
    ensures NoSpace(CreateCitySlug(city)) && NoUpper(CreateCitySlug(city))
  {
    HyphenateNoUpper(LowerAll(city));
  }

  /** Hyphenating adds no upper-case letter. */
  lemma {:induction false} HyphenateNoUpper(s: string)
    requires NoUpper(s)
    ensures NoUpper(Hyphenate(s))
    decreases |s|
  {
    if s != [] {
      if IsSpace(s[0]) {
        var t := TrimStart(s);
        TrimStartFacts(s);
        assert t == s[|s| - |t|..];
        HyphenateNoUpper(t);
      } else {
        HyphenateNoUpper(s[1..]);
      }
    }
  }

  /** Slugging a slug gives it back. */
  lemma SlugIdempotent(city: string)
    ensures CreateCitySlug(CreateCitySlug(city)) == CreateCitySlug(city)
  {
    var r := CreateCitySlug(city);
    SlugShape(city);
    LowerAllNoUpper(r);
    HyphenateWord(r);
  }

  /** The slug of a trimmed spelling depends only on the spelling's
      normalised key: every spelling grouped under one key links to the
      same URL, whichever of them is chosen for display. */
  lemma SlugDependsOnlyOnKey(spelling: string)
    ensures CreateCitySlug(Trim(spelling)) == CreateCitySlug(NormalizeCityName(Some(spelling)))
  {
    if spelling != "" {
      LowerAllIdempotent(Trim(spelling));
    }
  }

  /** Two spellings of one key give the same slug once trimmed. */
  lemma SlugAgreement(v: string, w: string)
    requires NormalizeCityName(Some(v)) == NormalizeCityName(Some(w))
    ensures CreateCitySlug(Trim(v)) == CreateCitySlug(Trim(w))
  {
    SlugDependsOnlyOnKey(v);
    SlugDependsOnlyOnKey(w);
  }
}
