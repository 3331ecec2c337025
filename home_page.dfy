/** What `getCitiesWithCounts` (app/page.tsx:33-175) returns, and the city
    links of the home page (app/page.tsx:201): the paged fetch that fails on
    any error, the grouping of `HomeGrouping`, the display name chosen by
    majority vote over the raw spellings, the stable sort by count and the
    top 24. */
module HomePage {
  import opened Wrappers
  import opened CityNames
  import opened Lists
  import opened Pagination
  import opened HomeGrouping

  /** The number of cities shown (`allCities.slice(0, 24)`). */
  const ShownCities: nat := 24

  /** One element of `allCities`. */
  datatype CitySummary = CitySummary(city: string, count: nat, avgRating: real)

  /** The value `getCitiesWithCounts` resolves to. */
  datatype HomeStats = HomeStats(cities: seq<CitySummary>, totalBusinesses: nat, totalCities: nat, overallAvgRating: real)

  // ---------------------------------------------------------------------
  // Display name: the most common spelling

  /** The largest tally among the spellings (0 for none). */
  function MaxCount(vs: seq<Variant>): (m: nat)
    ensures forall j :: 0 <= j < |vs| ==> vs[j].count <= m
    ensures vs != [] ==> exists j :: 0 <= j < |vs| && vs[j].count == m
    ensures vs == [] ==> m == 0
  {
    if vs == [] then 0
    else
      var rest := MaxCount(vs[1..]);
      assert forall j :: 1 <= j < |vs| ==> vs[j] == vs[1..][j - 1];
      if vs[0].count >= rest then vs[0].count else rest
  }

  /** Spelling `k` has the largest tally and every earlier spelling a strictly smaller one. */
  ghost predicate IsFirstMaximal(vs: seq<Variant>, k: int) {
    && 0 <= k < |vs|
    && (forall j :: 0 <= j < |vs| ==> vs[j].count <= vs[k].count)
    && (forall j :: 0 <= j < k ==> vs[j].count < vs[k].count)
  }

  /** The scan of app/page.tsx:141-148 from its current state (`mostCommonOriginal`,
      `maxCount`) over the remaining spellings, in insertion order. */
  function MostCommonFrom(vs: seq<Variant>, best: string, maxCount: nat): string {
    if vs == [] then best
    else if vs[0].count > maxCount then MostCommonFrom(vs[1..], vs[0].spelling, vs[0].count)
    else MostCommonFrom(vs[1..], best, maxCount)
  }

  /** The spelling the home page displays for a group, before trimming. */
  function MostCommon(g: CityGroup): string {
    MostCommonFrom(g.variants, g.key, 0)
  }

  /** The `forEach` over `originalCities` (app/page.tsx:141-148). */
  method MostCommonOriginal(cityData: CityGroup) returns (mostCommonOriginal: string)
    ensures mostCommonOriginal == MostCommon(cityData)
  {
    mostCommonOriginal := cityData.key;
    var maxCount: nat := 0;
    var vs := cityData.variants;
    for i := 0 to |vs|
      invariant MostCommonFrom(vs[i..], mostCommonOriginal, maxCount) == MostCommon(cityData)
    {
      assert vs[i..][1..] == vs[i + 1..];
      if vs[i].count > maxCount {
        maxCount := vs[i].count;
        mostCommonOriginal := vs[i].spelling;
      }
    }
  }

  lemma FirstMaximalShift(vs: seq<Variant>, k: int)
    requires vs != [] && IsFirstMaximal(vs[1..], k) && vs[0].count < vs[k + 1].count
    ensures IsFirstMaximal(vs, k + 1)
  {
    assert vs[k + 1] == vs[1..][k];
    forall j | 1 <= j < |vs| ensures vs[j].count <= vs[k + 1].count {
      assert vs[j] == vs[1..][j - 1];
    }
    forall j | 1 <= j < k + 1 ensures vs[j].count < vs[k + 1].count {
      assert vs[j] == vs[1..][j - 1];
    }
  }

  lemma FirstMaximalHead(vs: seq<Variant>)
    requires vs != [] && MaxCount(vs[1..]) <= vs[0].count
    ensures IsFirstMaximal(vs, 0)
  {
    forall j | 1 <= j < |vs| ensures vs[j].count <= vs[0].count {
      assert vs[j] == vs[1..][j - 1];
    }
  }

  /** The scan keeps its starting value when no spelling beats `maxCount`;
      otherwise it ends on the first spelling of largest tally (the strict
      `>` keeps the first of equal tallies). */
  lemma {:induction false} MostCommonFromSpec(vs: seq<Variant>, best: string, m: nat)
    ensures MaxCount(vs) <= m ==> MostCommonFrom(vs, best, m) == best
    ensures MaxCount(vs) > m ==> exists k :: IsFirstMaximal(vs, k) && MostCommonFrom(vs, best, m) == vs[k].spelling
  {
    if vs != [] {
      var tail := vs[1..];
      var r := MostCommonFrom(vs, best, m);
      if vs[0].count > m {
        assert r == MostCommonFrom(tail, vs[0].spelling, vs[0].count);
        MostCommonFromSpec(tail, vs[0].spelling, vs[0].count);
        if MaxCount(tail) > vs[0].count {
          var k :| IsFirstMaximal(tail, k) && r == tail[k].spelling;
          FirstMaximalShift(vs, k);
          assert r == vs[k + 1].spelling;
        } else {
          FirstMaximalHead(vs);
          assert r == vs[0].spelling;
        }
      } else {
        assert r == MostCommonFrom(tail, best, m);
        MostCommonFromSpec(tail, best, m);
        if MaxCount(tail) > m {
          var k :| IsFirstMaximal(tail, k) && r == tail[k].spelling;
          FirstMaximalShift(vs, k);
          assert r == vs[k + 1].spelling;
        }
      }
    }
  }

  /** For a group the pass built, the displayed spelling is the first of
      largest tally (the `normalizedCity` fallback is never returned), and
      once trimmed it still normalises to the group's key and links to the
      key's slug. */
  lemma DisplayNameOfGroup(g: CityGroup)
    requires GroupWellFormed(g)
    ensures exists k :: IsFirstMaximal(g.variants, k) && MostCommon(g) == g.variants[k].spelling
    ensures NormalizeCityName(Some(Trim(MostCommon(g)))) == g.key
    ensures CreateCitySlug(Trim(MostCommon(g))) == CreateCitySlug(g.key)
  {
    assert g.variants[0].count >= 1;
    MostCommonFromSpec(g.variants, g.key, 0);
    var k :| IsFirstMaximal(g.variants, k) && MostCommon(g) == g.variants[k].spelling;
    NormalizeTrimmed(g.variants[k].spelling);
    SlugDependsOnlyOnKey(g.variants[k].spelling);
  }

  /** The display name over the fetched rows: among the raw spellings of a
      city, listed in the order first seen, the name shown is the trim of
      the first one carried by the most businesses. */
  lemma DisplayNameFromRows(bs: seq<Business>, k: string)
    requires GroupFor(Aggregate(bs), k).Some?
    ensures var ss := FirstSeen(KeySpellings(bs, k));
      exists i ::
        && 0 <= i < |ss|
        && (forall j :: 0 <= j < |ss| ==> SpellingCount(bs, ss[j]) <= SpellingCount(bs, ss[i]))
        && (forall j :: 0 <= j < i ==> SpellingCount(bs, ss[j]) < SpellingCount(bs, ss[i]))
        && Summarize(GroupFor(Aggregate(bs), k).value).city == Trim(ss[i])
  {
    var gs := Aggregate(bs);
    var g := GroupFor(gs, k).value;
    var ss := FirstSeen(KeySpellings(bs, k));
    AggregateVariants(bs, k);
    AggregateWellFormed(bs);
    assert g == gs[IndexOf(Keys(gs), k).value];
    DisplayNameOfGroup(g);
    var m :| IsFirstMaximal(g.variants, m) && MostCommon(g) == g.variants[m].spelling;
    assert forall j :: 0 <= j < |ss| ==> ss[j] == g.variants[j].spelling && SpellingCount(bs, ss[j]) == g.variants[j].count;
    assert Summarize(g).city == Trim(ss[m]);
  }

  // ---------------------------------------------------------------------
  // One summary per group

  /** The `.map` callback of app/page.tsx:139-161. */
  function Summarize(g: CityGroup): CitySummary {
    CitySummary(Trim(MostCommon(g)), g.count, if g.count > 0 then g.totalRating / (g.count as real) else 0.0)
  }

  function Summaries(gs: seq<CityGroup>): (ss: seq<CitySummary>)
    ensures |ss| == |gs| && forall i :: 0 <= i < |gs| ==> ss[i] == Summarize(gs[i])
  {
    seq(|gs|, i requires 0 <= i < |gs| => Summarize(gs[i]))
  }

  // ---------------------------------------------------------------------
  // `.sort((a, b) => b.count - a.count)`: a stable sort, count descending

  ghost predicate SortedByCountDesc(s: seq<CitySummary>) {
    forall i, j :: 0 <= i < j < |s| ==> s[i].count >= s[j].count
  }

  /** Places `x` after every element whose count is at least its own. */
  function Insert(s: seq<CitySummary>, x: CitySummary): seq<CitySummary> {
    if s == [] then [x]
    else if s[0].count >= x.count then [s[0]] + Insert(s[1..], x)
    else [x] + s
  }

  /** Elements are taken in order and each is inserted after the equal ones. */
  function SortByCountDesc(s: seq<CitySummary>): seq<CitySummary> {
    if s == [] then [] else Insert(SortByCountDesc(s[..|s| - 1]), s[|s| - 1])
  }

  /** The elements with count `c`, in order. */
  function WithCount(s: seq<CitySummary>, c: nat): seq<CitySummary> {
    if s == [] then [] else (if s[0].count == c then [s[0]] else []) + WithCount(s[1..], c)
  }

  lemma {:induction false} WithCountAppend(a: seq<CitySummary>, b: seq<CitySummary>, c: nat)
    ensures WithCount(a + b, c) == WithCount(a, c) + WithCount(b, c)
  {
    if a == [] {
      assert a + b == b;
    } else {
      var h := if a[0].count == c then [a[0]] else [];
      assert (a + b)[0] == a[0];
      assert (a + b)[1..] == a[1..] + b;
      WithCountAppend(a[1..], b, c);
      AppendAssoc(h, WithCount(a[1..], c), WithCount(b, c));
    }
  }

  lemma {:induction false} WithCountNone(s: seq<CitySummary>, c: nat)
    requires forall i :: 0 <= i < |s| ==> s[i].count < c
    ensures WithCount(s, c) == []
  {
    if s != [] {
      WithCountNone(s[1..], c);
    }
  }

  lemma {:induction false} InsertPerm(s: seq<CitySummary>, x: CitySummary)
    ensures multiset(Insert(s, x)) == multiset(s) + multiset{x}
  {
    if s != [] && s[0].count >= x.count {
      InsertPerm(s[1..], x);
      assert s == [s[0]] + s[1..];
    }
  }

  lemma {:induction false} InsertBounded(s: seq<CitySummary>, x: CitySummary, bound: nat)
    requires forall i :: 0 <= i < |s| ==> s[i].count <= bound
    requires x.count <= bound
    ensures forall i :: 0 <= i < |Insert(s, x)| ==> Insert(s, x)[i].count <= bound
  {
    if s != [] && s[0].count >= x.count {
      var t := s[1..];
      InsertBounded(t, x, bound);
      var r := Insert(t, x);
      assert Insert(s, x) == [s[0]] + r;
      forall i | 0 < i < |Insert(s, x)| ensures Insert(s, x)[i].count <= bound {
        assert Insert(s, x)[i] == r[i - 1];
      }
    }
  }

  lemma {:induction false} InsertSorted(s: seq<CitySummary>, x: CitySummary)
    requires SortedByCountDesc(s)
    ensures SortedByCountDesc(Insert(s, x))
    ensures multiset(Insert(s, x)) == multiset(s) + multiset{x}
  {
    InsertPerm(s, x);
    if s != [] && s[0].count >= x.count {
      var t := s[1..];
      InsertSorted(t, x);
      InsertBounded(t, x, s[0].count);
      var r := Insert(t, x);
      var q := Insert(s, x);
      assert q == [s[0]] + r;
      forall i, j | 0 <= i < j < |q| ensures q[i].count >= q[j].count {
        assert q[j] == r[j - 1];
        if i > 0 {
          assert q[i] == r[i - 1];
        }
      }
    }
  }

  lemma {:induction false} InsertStable(s: seq<CitySummary>, x: CitySummary, c: nat)
    requires SortedByCountDesc(s)
    ensures WithCount(Insert(s, x), c) == WithCount(s, c) + (if x.count == c then [x] else [])
  {
    if s == [] {
    } else if s[0].count >= x.count {
      var t := s[1..];
      var h := if s[0].count == c then [s[0]] else [];
      InsertStable(t, x, c);
      assert ([s[0]] + Insert(t, x))[1..] == Insert(t, x);
      AppendAssoc(h, WithCount(t, c), if x.count == c then [x] else []);
    } else {
      assert ([x] + s)[1..] == s;
      if x.count == c {
        WithCountNone(s, c);
      }
    }
  }

  lemma {:induction false} SortSorted(s: seq<CitySummary>)
    ensures SortedByCountDesc(SortByCountDesc(s))
    ensures multiset(SortByCountDesc(s)) == multiset(s)
  {
    if s != [] {
      var p := s[..|s| - 1];
      var x := s[|s| - 1];
      SortSorted(p);
      InsertSorted(SortByCountDesc(p), x);
      assert s == p + [x];
    }
  }

  lemma {:induction false} SortStable(s: seq<CitySummary>, c: nat)
    ensures WithCount(SortByCountDesc(s), c) == WithCount(s, c)
  {
    if s != [] {
      var p := s[..|s| - 1];
      var x := s[|s| - 1];
      var h := if x.count == c then [x] else [];
      assert SortByCountDesc(s) == Insert(SortByCountDesc(p), x);
      SortStable(p, c);
      SortSorted(p);
      InsertStable(SortByCountDesc(p), x, c);
      assert WithCount(SortByCountDesc(s), c) == WithCount(p, c) + h;
      SplitLast(s);
      WithCountAppend(p, [x], c);
      assert [x][1..] == [];
      assert WithCount([x], c) == h;
    }
  }

  /** The sort is stable and descending: the result is ordered by count,
      is a permutation of the input, and keeps the input order among equal
      counts (here: the order in which groups were created). */
  lemma SortSpec(s: seq<CitySummary>)
    ensures SortedByCountDesc(SortByCountDesc(s))
    ensures multiset(SortByCountDesc(s)) == multiset(s)
    ensures forall c :: WithCount(SortByCountDesc(s), c) == WithCount(s, c)
  {
    SortSorted(s);
    forall c ensures WithCount(SortByCountDesc(s), c) == WithCount(s, c) {
      SortStable(s, c);
    }
  }

  // ---------------------------------------------------------------------
  // Overall average: only businesses that have a rating

  function RatedCount(bs: seq<Business>): nat {
    if bs == [] then 0 else RatedCount(bs[..|bs| - 1]) + (if bs[|bs| - 1].rating.Some? then 1 else 0)
  }

  function RatedSum(bs: seq<Business>): real {
    if bs == [] then 0.0 else RatedSum(bs[..|bs| - 1]) + (if bs[|bs| - 1].rating.Some? then bs[|bs| - 1].rating.value else 0.0)
  }

  /** `overallAvgRating` (app/page.tsx:165-167). */
  function OverallAverage(bs: seq<Business>): real {
    if RatedCount(bs) > 0 then RatedSum(bs) / (RatedCount(bs) as real) else 0.0
  }

  /** A business without a rating leaves the overall average unchanged
      (unlike a city's average, whose denominator counts it). */
  lemma OverallAverageIgnoresUnrated(bs: seq<Business>, city: Option<string>)
    ensures OverallAverage(bs + [Business(city, None)]) == OverallAverage(bs)
  {
    assert (bs + [Business(city, None)])[..|bs|] == bs;
  }

  lemma {:induction false} NoRatingsNoAverage(bs: seq<Business>)
    requires forall i :: 0 <= i < |bs| ==> bs[i].rating.None?
    ensures OverallAverage(bs) == 0.0
  {
    if bs != [] {
      NoRatingsNoAverage(bs[..|bs| - 1]);
    }
  }

  // ---------------------------------------------------------------------
  // The whole computation

  /** The result for the fetched businesses `rows`. */
  function HomeStatsOf(rows: seq<Business>): HomeStats {
    var all := SortByCountDesc(Summaries(Aggregate(rows)));
    HomeStats(all[..Min(ShownCities, |all|)], |rows|, |all|, OverallAverage(rows))
  }

  /** The paged fetch of app/page.tsx:47-78: a failed batch aborts the
      whole computation. */
  method FetchAllBusinesses(total: nat, fetch: Range -> BatchReply<Business>)
    returns (r: Result<seq<Business>, FetchError>, requested: seq<Range>)
    ensures var run := Paginate(total, fetch, 0);
      && requested == run.requested
      && r == if run.failed then Failure(BatchError(run.requested[|run.requested| - 1])) else Success(run.rows)
  {
    var allBusinesses: seq<Business> := [];
    var offset: nat := 0;
    requested := [];
    while offset < total
      invariant var rest := Paginate(total, fetch, offset);
        Paginate(total, fetch, 0) == FetchRun(allBusinesses + rest.rows, requested + rest.requested, rest.failed)
      decreases total - offset
    {
      var end := Min(offset + BatchSize - 1, total - 1);
      var range := Range(offset, end);
      Advance(total, fetch, offset, allBusinesses, requested);
      requested := requested + [range];
      var reply := fetch(range);
      if reply.BatchFailed? {
        assert Paginate(total, fetch, 0) == FetchRun(allBusinesses, requested, true);
        r := Failure(BatchError(range));
        return;
      }
      var data := reply.rows;
      if |data| > 0 {
        allBusinesses := allBusinesses + data;
      } else {
        assert Paginate(total, fetch, 0) == FetchRun(allBusinesses, requested, false);
        r := Success(allBusinesses);
        return;
      }
      offset := offset + BatchSize;
      if |data| < BatchSize {
        assert Paginate(total, fetch, 0) == FetchRun(allBusinesses, requested, false);
        r := Success(allBusinesses);
        return;
      }
    }
    Finish(total, fetch, offset, allBusinesses, requested);
    r := Success(allBusinesses);
  }

  /** The summaries of app/page.tsx:138-161, one per group in creation order. */
  method SummarizeCities(cityMap: seq<CityGroup>) returns (summaries: seq<CitySummary>)
    ensures summaries == Summaries(cityMap)
  {
    summaries := [];
    for i := 0 to |cityMap|
      invariant |summaries| == i
      invariant forall k :: 0 <= k < i ==> summaries[k] == Summarize(cityMap[k])
    {
      var cityData := cityMap[i];
      var mostCommonOriginal := MostCommonOriginal(cityData);
      var avgRating := if cityData.count > 0 then cityData.totalRating / (cityData.count as real) else 0.0;
      var summary := CitySummary(Trim(mostCommonOriginal), cityData.count, avgRating);
      assert summary == Summarize(cityData);
      summaries := summaries + [summary];
    }
  }

  /** `getCitiesWithCounts`: a failed count or a failed batch is an error;
      otherwise the statistics of every fetched business. */
  method GetCitiesWithCounts(countReply: CountReply, fetch: Range -> BatchReply<Business>)
    returns (r: Result<HomeStats, FetchError>, requested: seq<Range>)
    ensures countReply.CountFailed? ==> r == Failure(CountError) && requested == []
    ensures countReply.Counted? ==>
      var run := Paginate(TotalOf(countReply.count), fetch, 0);
      && requested == run.requested
      && r == if run.failed then Failure(BatchError(run.requested[|run.requested| - 1])) else Success(HomeStatsOf(run.rows))
  {
    if countReply.CountFailed? {
      return Failure(CountError), [];
    }
    var fetched;
    fetched, requested := FetchAllBusinesses(TotalOf(countReply.count), fetch);
    if fetched.Failure? {
      return Failure(fetched.error), requested;
    }
    var data := fetched.value;
    var cityMap := GroupByCity(data);
    var summaries := SummarizeCities(cityMap);
    var allCities := SortByCountDesc(summaries);
    r := Success(HomeStats(allCities[..Min(ShownCities, |allCities|)], |data|, |allCities|, OverallAverage(data)));
  }

  /** The link of a shown city (app/page.tsx:201): `/` and the city's slug,
      which has neither whitespace nor upper-case letters. */
  function CityHref(c: CitySummary): (href: string)
    ensures |href| >= 1 && href[0] == '/' && NoSpace(href[1..]) && NoUpper(href[1..])
  {
    SlugShape(c.city);
    var slug := CreateCitySlug(c.city);
    assert ("/" + slug)[1..] == slug;
    "/" + slug
  }

  // ---------------------------------------------------------------------
  // Properties of the result

  /** The shown cities are the first 24 of all groups sorted stably by
      count, descending; `totalCities` is the number of groups, one per
      distinct non-empty key; `totalBusinesses` counts every fetched
      business, with or without a city. */
  lemma HomeStatsShape(rows: seq<Business>)
    ensures var h := HomeStatsOf(rows);
      var all := SortByCountDesc(Summaries(Aggregate(rows)));
      && h.totalBusinesses == |rows|
      && h.totalCities == |Aggregate(rows)| == |FirstSeen(LabelKeys(Cities(rows)))|
      && |h.cities| == Min(ShownCities, h.totalCities)
      && h.cities <= all
      && SortedByCountDesc(h.cities)
      && multiset(all) == multiset(Summaries(Aggregate(rows)))
      && (forall c :: WithCount(all, c) == WithCount(Summaries(Aggregate(rows)), c))
  {
    var ss := Summaries(Aggregate(rows));
    var all := SortByCountDesc(ss);
    SortSpec(ss);
    AggregateKeys(rows);
    assert |all| == |ss| by {
      assert |multiset(all)| == |multiset(ss)|;
    }
    SortedPrefix(all, Min(ShownCities, |all|));
  }

  lemma SortedPrefix(s: seq<CitySummary>, n: nat)
    requires SortedByCountDesc(s) && n <= |s|
    ensures SortedByCountDesc(s[..n]) && s[..n] <= s
  {
  }

  /** Every shown city comes from one group: it counts the businesses with
      the group's key, its average divides the group's rating sum (missing
      ratings as 0) by that count, its name normalises back to the key, and
      its link is the key's slug. */
  lemma ShownCitiesFromGroups(rows: seq<Business>, i: nat)
    requires i < |HomeStatsOf(rows).cities|
    ensures var c := HomeStatsOf(rows).cities[i];
      exists key ::
        && key != ""
        && GroupFor(Aggregate(rows), key).Some?
        && c.count == CountKey(rows, key) > 0
        && c.avgRating == RatingSum(rows, key) / (c.count as real)
        && NormalizeCityName(Some(c.city)) == key
        && CreateCitySlug(c.city) == CreateCitySlug(key)
  {
    var gs := Aggregate(rows);
    var ss := Summaries(gs);
    var j := ShownComesFromSummary(ss, i);
    SummaryFacts(rows, j);
    var key := gs[j].key;
    assert HomeStatsOf(rows).cities[i] == Summarize(gs[j]);
  }

  /** The summary of the `j`-th group, in terms of the fetched businesses. */
  lemma SummaryFacts(rows: seq<Business>, j: nat)
    requires j < |Aggregate(rows)|
    ensures var g := Aggregate(rows)[j];
      var c := Summarize(g);
      && g.key != ""
      && GroupFor(Aggregate(rows), g.key).Some?
      && c.count == CountKey(rows, g.key) > 0
      && c.avgRating == RatingSum(rows, g.key) / (c.count as real)
      && NormalizeCityName(Some(c.city)) == g.key
      && CreateCitySlug(c.city) == CreateCitySlug(g.key)
  {
    var gs := Aggregate(rows);
    var g := gs[j];
    AggregateWellFormed(rows);
    assert GroupWellFormed(g);
    DisplayNameOfGroup(g);
    IndexOfDistinct(Keys(gs), j);
    assert GroupFor(gs, g.key) == Some(g);
    AggregateTallies(rows, g.key);
  }

  /** Position `i` of the shown cities holds the summary at some position `j`. */
  lemma ShownComesFromSummary(ss: seq<CitySummary>, i: nat) returns (j: nat)
    requires i < Min(ShownCities, |SortByCountDesc(ss)|)
    ensures j < |ss| && SortByCountDesc(ss)[..Min(ShownCities, |SortByCountDesc(ss)|)][i] == ss[j]
  {
    var all := SortByCountDesc(ss);
    SortSpec(ss);
    assert all[i] in multiset(ss);
    j :| 0 <= j < |ss| && ss[j] == all[i];
  }
}
