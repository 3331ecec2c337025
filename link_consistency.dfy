/** The home page and the sitemap build their city lists separately: the
    home page links each city under its most common spelling
    (app/page.tsx:141-157, 201), the sitemap under the first spelling it
    met (app/sitemap.ts:128-133, 147). Fed the same city column, they still
    produce the same cities in the same order, and every home-page link is
    the path of a sitemap city page, because the slug of a trimmed spelling
    depends only on its normalised key. */
module LinkConsistency {
  import opened Wrappers
  import opened CityNames
  import opened Lists
  import HomeGrouping
  import HomePage
  import Sitemap

  /** The two fetches returned the same `address_info_city` column. */
  predicate SameCities(homeRows: seq<HomeGrouping.Business>, siteRows: seq<Sitemap.SitemapBusiness>) {
    HomeGrouping.Cities(homeRows) == Sitemap.CityColumn(siteRows)
  }

  /** The home page's groups and the sitemap's entries have the same keys in the same order. */
  lemma SameKeys(homeRows: seq<HomeGrouping.Business>, siteRows: seq<Sitemap.SitemapBusiness>)
    requires SameCities(homeRows, siteRows)
    ensures HomeGrouping.Keys(HomeGrouping.Aggregate(homeRows)) == Sitemap.EntryKeys(Sitemap.CityEntries(siteRows))
  {
    HomeGrouping.AggregateKeys(homeRows);
    Sitemap.CityEntriesKeys(siteRows);
  }

  /** The sitemap's URL for the `j`-th entry is the site address followed
      by the slug of the entry's key. */
  lemma SitemapCityUrl(siteRows: seq<Sitemap.SitemapBusiness>, j: nat, now: int)
    requires j < |Sitemap.CityEntries(siteRows)|
    ensures var e := Sitemap.CityEntries(siteRows)[j];
      Sitemap.CityPage(e, now).url == Sitemap.BaseUrl + "/" + CreateCitySlug(e.key)
  {
    var es := Sitemap.CityEntries(siteRows);
    var e := es[j];
    Sitemap.CityEntriesKeys(siteRows);
    IndexOfDistinct(Sitemap.EntryKeys(es), j);
    assert Sitemap.EntryFor(es, e.key) == Some(e);
    Sitemap.CityEntryExists(siteRows, e.key);
    Sitemap.CityEntryFacts(siteRows, e.key);
    var i :| Sitemap.IsFirstWithKey(siteRows, e.key, i) && e.originalCity == Trim(siteRows[i].city.value);
    SlugDependsOnlyOnKey(siteRows[i].city.value);
  }

  /** Group `j` of the home page and entry `j` of the sitemap link to the
      same URL, although their spellings may differ. */
  lemma CityLinksAgree(homeRows: seq<HomeGrouping.Business>, siteRows: seq<Sitemap.SitemapBusiness>, j: nat, now: int)
    requires SameCities(homeRows, siteRows)
    requires j < |HomeGrouping.Aggregate(homeRows)|
    ensures j < |Sitemap.CityEntries(siteRows)|
    ensures Sitemap.BaseUrl + HomePage.CityHref(HomePage.Summarize(HomeGrouping.Aggregate(homeRows)[j])) ==
      Sitemap.CityPage(Sitemap.CityEntries(siteRows)[j], now).url
  {
    SameKeys(homeRows, siteRows);
    var gs := HomeGrouping.Aggregate(homeRows);
    assert gs[j].key == HomeGrouping.Keys(gs)[j];
    HomePage.SummaryFacts(homeRows, j);
    SitemapCityUrl(siteRows, j, now);
  }

  /** Every city link on the home page is the URL of a sitemap city page. */
  lemma HomeLinksInSitemap(homeRows: seq<HomeGrouping.Business>, siteRows: seq<Sitemap.SitemapBusiness>, i: nat, now: int)
    requires SameCities(homeRows, siteRows)
    requires i < |HomePage.HomeStatsOf(homeRows).cities|
    ensures exists j ::
      && 0 <= j < |Sitemap.SitemapOf(siteRows, now)|
      && Sitemap.SitemapOf(siteRows, now)[j].url == Sitemap.BaseUrl + HomePage.CityHref(HomePage.HomeStatsOf(homeRows).cities[i])
  {
    var gs := HomeGrouping.Aggregate(homeRows);
    var j := HomePage.ShownComesFromSummary(HomePage.Summaries(gs), i);
    assert HomePage.HomeStatsOf(homeRows).cities[i] == HomePage.Summarize(gs[j]);
    CityLinksAgree(homeRows, siteRows, j, now);
    Sitemap.SitemapShape(siteRows, now);
    assert Sitemap.SitemapOf(siteRows, now)[7 + j] == Sitemap.CityPage(Sitemap.CityEntries(siteRows)[j], now);
  }
  lemma LeedsKeys()
    ensures Trim("leeds") == "leeds" && Trim("Leeds") == "Leeds"
    ensures NormalizeCityName(Some("leeds")) == "leeds" && NormalizeCityName(Some("Leeds")) == "leeds"
  {
    TrimStartNoSpaceHead("leeds");
    TrimEndNoSpaceTail("leeds");
    TrimStartNoSpaceHead("Leeds");
    TrimEndNoSpaceTail("Leeds");
    assert LowerAll("Leeds") == "leeds";
    assert LowerAll("leeds") == "leeds";
  }

  lemma LeedsSlug()
    ensures CreateCitySlug("leeds") == "leeds" && CreateCitySlug("Leeds") == "leeds"
  {
    assert LowerAll("Leeds") == "leeds";
    assert LowerAll("leeds") == "leeds";
    HyphenateWord("leeds");
  }

  lemma LeedsHomeStep(g: HomeGrouping.CityGroup, spelling: string)
    requires g.key == "leeds" && NormalizeCityName(Some(spelling)) == "leeds"
    ensures HomeGrouping.AddBusiness([g], HomeGrouping.Business(Some(spelling), None)) ==
      [HomeGrouping.Record(g, spelling, 0.0)]
  {
    var b := HomeGrouping.Business(Some(spelling), None);
    assert HomeGrouping.Keys([g]) == ["leeds"];
    assert HomeGrouping.Created([g], "leeds") == [g];
    assert IndexOf(["leeds"], "leeds") == Some(0);
    assert HomeGrouping.RatingOrZero(b) == 0.0;
  }

  lemma LeedsFirstStep()
    ensures HomeGrouping.AddBusiness([], HomeGrouping.Business(Some("leeds"), None)) ==
      [HomeGrouping.CityGroup("leeds", [HomeGrouping.Variant("leeds", 1)], 1, 0.0)]
  {
    LeedsKeys();
    var g0 := HomeGrouping.CityGroup("leeds", [], 0, 0.0);
    assert "leeds" !in HomeGrouping.Keys([]);
    assert HomeGrouping.Created([], "leeds") == [g0];
    assert HomeGrouping.Keys([g0]) == ["leeds"];
    assert HomeGrouping.Spellings([]) == [];
    assert HomeGrouping.BumpVariant([], "leeds") == [HomeGrouping.Variant("leeds", 1)];
  }

  lemma LeedsBumps()
    ensures HomeGrouping.BumpVariant([HomeGrouping.Variant("leeds", 1)], "Leeds") ==
      [HomeGrouping.Variant("leeds", 1), HomeGrouping.Variant("Leeds", 1)]
    ensures HomeGrouping.BumpVariant([HomeGrouping.Variant("leeds", 1), HomeGrouping.Variant("Leeds", 1)], "Leeds") ==
      [HomeGrouping.Variant("leeds", 1), HomeGrouping.Variant("Leeds", 2)]
  {
    var v1 := [HomeGrouping.Variant("leeds", 1)];
    var v2 := [HomeGrouping.Variant("leeds", 1), HomeGrouping.Variant("Leeds", 1)];
    assert HomeGrouping.Spellings(v1) == ["leeds"];
    assert HomeGrouping.Spellings(v2) == ["leeds", "Leeds"];
    assert IndexOf(["leeds"], "Leeds") == None;
    assert IndexOf(["leeds", "Leeds"], "Leeds") == Some(1);
  }

  lemma LeedsHomeSteps()
    ensures HomeGrouping.AddBusiness([], HomeGrouping.Business(Some("leeds"), None)) ==
      [HomeGrouping.CityGroup("leeds", [HomeGrouping.Variant("leeds", 1)], 1, 0.0)]
    ensures HomeGrouping.AddBusiness([HomeGrouping.CityGroup("leeds", [HomeGrouping.Variant("leeds", 1)], 1, 0.0)],
        HomeGrouping.Business(Some("Leeds"), None)) ==
      [HomeGrouping.CityGroup("leeds", [HomeGrouping.Variant("leeds", 1), HomeGrouping.Variant("Leeds", 1)], 2, 0.0)]
    ensures HomeGrouping.AddBusiness([HomeGrouping.CityGroup("leeds", [HomeGrouping.Variant("leeds", 1), HomeGrouping.Variant("Leeds", 1)], 2, 0.0)],
        HomeGrouping.Business(Some("Leeds"), None)) ==
      [HomeGrouping.CityGroup("leeds", [HomeGrouping.Variant("leeds", 1), HomeGrouping.Variant("Leeds", 2)], 3, 0.0)]
  {
    LeedsKeys();
    LeedsFirstStep();
    LeedsBumps();
    var v1 := [HomeGrouping.Variant("leeds", 1)];
    var v2 := [HomeGrouping.Variant("leeds", 1), HomeGrouping.Variant("Leeds", 1)];
    LeedsHomeStep(HomeGrouping.CityGroup("leeds", v1, 1, 0.0), "Leeds");
    LeedsHomeStep(HomeGrouping.CityGroup("leeds", v2, 2, 0.0), "Leeds");
  }

  lemma AggregateOfThree(b0: HomeGrouping.Business, b1: HomeGrouping.Business, b2: HomeGrouping.Business)
    ensures HomeGrouping.Aggregate([b0, b1, b2]) ==
      HomeGrouping.AddBusiness(HomeGrouping.AddBusiness(HomeGrouping.AddBusiness([], b0), b1), b2)
  {
    assert [b0][..0] == [];
    assert HomeGrouping.Aggregate([b0]) == HomeGrouping.AddBusiness([], b0);
    assert [b0, b1][..1] == [b0];
    assert HomeGrouping.Aggregate([b0, b1]) == HomeGrouping.AddBusiness(HomeGrouping.Aggregate([b0]), b1);
    assert [b0, b1, b2][..2] == [b0, b1];
  }

  lemma LeedsHome()
    ensures var home := [HomeGrouping.Business(Some("leeds"), None), HomeGrouping.Business(Some("Leeds"), None),
                         HomeGrouping.Business(Some("Leeds"), None)];
      HomeGrouping.Aggregate(home) ==
        [HomeGrouping.CityGroup("leeds", [HomeGrouping.Variant("leeds", 1), HomeGrouping.Variant("Leeds", 2)], 3, 0.0)]
  {
    LeedsHomeSteps();
    AggregateOfThree(HomeGrouping.Business(Some("leeds"), None), HomeGrouping.Business(Some("Leeds"), None),
                     HomeGrouping.Business(Some("Leeds"), None));
  }

  lemma LeedsSitemapSteps()
    ensures Sitemap.AddCity([], Sitemap.SitemapBusiness(Some("leeds"), None, None)) == [Sitemap.CityEntry("leeds", "leeds", None)]
    ensures Sitemap.AddCity([Sitemap.CityEntry("leeds", "leeds", None)], Sitemap.SitemapBusiness(Some("Leeds"), None, None)) ==
      [Sitemap.CityEntry("leeds", "leeds", None)]
  {
    LeedsKeys();
    assert Sitemap.EntryKeys([Sitemap.CityEntry("leeds", "leeds", None)]) == ["leeds"];
  }

  lemma CityEntriesOfThree(b0: Sitemap.SitemapBusiness, b1: Sitemap.SitemapBusiness, b2: Sitemap.SitemapBusiness)
    ensures Sitemap.CityEntries([b0, b1, b2]) == Sitemap.AddCity(Sitemap.AddCity(Sitemap.AddCity([], b0), b1), b2)
  {
    assert [b0][..0] == [];
    assert Sitemap.CityEntries([b0]) == Sitemap.AddCity([], b0);
    assert [b0, b1][..1] == [b0];
    assert Sitemap.CityEntries([b0, b1]) == Sitemap.AddCity(Sitemap.CityEntries([b0]), b1);
    assert [b0, b1, b2][..2] == [b0, b1];
  }

  lemma LeedsSitemap()
    ensures Sitemap.CityEntries([Sitemap.SitemapBusiness(Some("leeds"), None, None), Sitemap.SitemapBusiness(Some("Leeds"), None, None),
                                 Sitemap.SitemapBusiness(Some("Leeds"), None, None)]) ==
      [Sitemap.CityEntry("leeds", "leeds", None)]
  {
    LeedsSitemapSteps();
    CityEntriesOfThree(Sitemap.SitemapBusiness(Some("leeds"), None, None), Sitemap.SitemapBusiness(Some("Leeds"), None, None),
                       Sitemap.SitemapBusiness(Some("Leeds"), None, None));
  }

  lemma LeedsMostCommon()
    ensures HomePage.MostCommon(HomeGrouping.CityGroup("leeds", [HomeGrouping.Variant("leeds", 1), HomeGrouping.Variant("Leeds", 2)], 3, 0.0)) == "Leeds"
  {
    var vs := [HomeGrouping.Variant("leeds", 1), HomeGrouping.Variant("Leeds", 2)];
    assert vs[1..] == [HomeGrouping.Variant("Leeds", 2)] && vs[1..][1..] == [];
  }

  lemma LeedsDisplay()
    ensures var g := HomeGrouping.CityGroup("leeds", [HomeGrouping.Variant("leeds", 1), HomeGrouping.Variant("Leeds", 2)], 3, 0.0);
      HomePage.Summarize(g).city == "Leeds" && HomePage.CityHref(HomePage.Summarize(g)) == "/" + "leeds"
  {
    LeedsKeys();
    LeedsSlug();
    LeedsMostCommon();
  }

  /** Three Leeds businesses spelt "leeds", "Leeds", "Leeds", as the home
      page and the sitemap fetch them. */
  const LeedsHomeRows: seq<HomeGrouping.Business> :=
    [HomeGrouping.Business(Some("leeds"), None), HomeGrouping.Business(Some("Leeds"), None), HomeGrouping.Business(Some("Leeds"), None)]
  const LeedsSiteRows: seq<Sitemap.SitemapBusiness> :=
    [Sitemap.SitemapBusiness(Some("leeds"), None, None), Sitemap.SitemapBusiness(Some("Leeds"), None, None),
     Sitemap.SitemapBusiness(Some("Leeds"), None, None)]

  lemma LeedsSameCities()
    ensures SameCities(LeedsHomeRows, LeedsSiteRows)
  {
    assert HomeGrouping.Cities(LeedsHomeRows) == [Some("leeds"), Some("Leeds"), Some("Leeds")];
    assert Sitemap.CityColumn(LeedsSiteRows) == [Some("leeds"), Some("Leeds"), Some("Leeds")];
  }

  lemma LeedsHomeLink()
    ensures |HomeGrouping.Aggregate(LeedsHomeRows)| == 1
    ensures HomePage.Summarize(HomeGrouping.Aggregate(LeedsHomeRows)[0]).city == "Leeds"
    ensures HomePage.CityHref(HomePage.Summarize(HomeGrouping.Aggregate(LeedsHomeRows)[0])) == "/" + "leeds"
  {
    LeedsHome();
    LeedsDisplay();
  }

  lemma LeedsSitemapLink(now: int)
    ensures Sitemap.CityEntries(LeedsSiteRows) == [Sitemap.CityEntry("leeds", "leeds", None)]
    ensures Sitemap.CityPage(Sitemap.CityEntries(LeedsSiteRows)[0], now).url == Sitemap.BaseUrl + "/" + "leeds"
  {
    LeedsSitemap();
    LeedsSlug();
  }

  /** The home page shows "Leeds", the sitemap keeps "leeds", and both link
      to /leeds. */
  lemma LeedsExample(now: int)
    ensures SameCities(LeedsHomeRows, LeedsSiteRows)
    ensures |HomeGrouping.Aggregate(LeedsHomeRows)| == 1
    ensures HomePage.Summarize(HomeGrouping.Aggregate(LeedsHomeRows)[0]).city == "Leeds"
    ensures Sitemap.CityEntries(LeedsSiteRows) == [Sitemap.CityEntry("leeds", "leeds", None)]
    ensures Sitemap.BaseUrl + HomePage.CityHref(HomePage.Summarize(HomeGrouping.Aggregate(LeedsHomeRows)[0])) ==
      Sitemap.CityPage(Sitemap.CityEntries(LeedsSiteRows)[0], now).url
  {
    LeedsSameCities();
    LeedsHomeLink();
    LeedsSitemapLink(now);
  }
}
