/** The sitemap of app/sitemap.ts: seven static pages, then one page per
    city, then one page per business that has a slug. The businesses come
    from the same paged fetch as the home page, except that a failed batch
    ends the fetch and keeps what was already fetched, and a failed count
    gives the static pages alone.

    Dates are integer timestamps (`updated_at` already parsed; null, absent
    and empty are `None`), and the request time `now` is a parameter. */
module Sitemap {
  import opened Wrappers
  import opened CityNames
  import opened Lists
  import opened Pagination

  /** The three columns the sitemap selects: `address_info_city, slug, updated_at`. */
  datatype SitemapBusiness = SitemapBusiness(city: Option<string>, slug: Option<string>, updatedAt: Option<int>)

  /** One entry of the sitemap's `cityMap`, with the key it is stored under. */
  datatype CityEntry = CityEntry(key: string, originalCity: string, updatedAt: Option<int>)

  /** One sitemap entry; `changeFrequency` and `priority` are left out. */
  datatype Page = Page(url: string, lastModified: int)

  const BaseUrl: string := "https://atozofsigns.co.uk"

  /** The paths of the static pages, in the order they are listed. */
  const StaticPaths: seq<string> := [
    "", "/sussex-signs", "/blog",
    "/blog/planning-permission-business-sign", "/blog/shop-sign-cost-2025",
    "/blog/dibond-vs-aluminium-signage", "/calculator"]

  /** `staticPages`: each carries the request time. */
  function StaticPages(now: int): (ps: seq<Page>)
    ensures |ps| == 7
    ensures forall i :: 0 <= i < 7 ==> ps[i].lastModified == now && ps[i].url == BaseUrl + StaticPaths[i]
  {
    seq(|StaticPaths|, i requires 0 <= i < |StaticPaths| => Page(BaseUrl + StaticPaths[i], now))
  }

  // ---------------------------------------------------------------------
  // The city map

  /** The key a business is stored under; empty means it is skipped. */
  function KeyOf(b: SitemapBusiness): string {
    NormalizeCityName(b.city)
  }

  /** The raw cities in fetch order; the sitemap's counterpart of
      `HomeGrouping.Cities` over its own row type. */
  function CityColumn(bs: seq<SitemapBusiness>): (cs: seq<Option<string>>)
    ensures |cs| == |bs| && forall i :: 0 <= i < |bs| ==> cs[i] == bs[i].city
  {
    seq(|bs|, i requires 0 <= i < |bs| => bs[i].city)
  }

  /** The keys of the city map in insertion order; the counterpart of
      `HomeGrouping.Keys` over the sitemap's entry type. */
  function EntryKeys(es: seq<CityEntry>): (ks: seq<string>)
    ensures |ks| == |es| && forall i :: 0 <= i < |es| ==> ks[i] == es[i].key
  {
    seq(|es|, i requires 0 <= i < |es| => es[i].key)
  }

  /** The update of app/sitemap.ts:136-141: a business date replaces the
      stored one when there is none or when it is strictly later. */
  function Later(stored: Option<int>, date: Option<int>): (r: Option<int>)
    ensures r.None? <==> stored.None? && date.None?
    ensures stored.Some? ==> r.Some? && stored.value <= r.value
    ensures date.Some? ==> r.Some? && date.value <= r.value
    ensures r == stored || r == date
  {
    if date.Some? && (stored.None? || date.value > stored.value) then date else stored
  }

  /** One step of the `forEach` of app/sitemap.ts:120-143: a new key is
      stored with the trimmed spelling and the business's date; a known key
      only has its date brought forward. */
  function AddCity(es: seq<CityEntry>, b: SitemapBusiness): seq<CityEntry> {
    var key := KeyOf(b);
    if key == "" then es
    else match IndexOf(EntryKeys(es), key)
      case None => es + [CityEntry(key, Trim(b.city.value), b.updatedAt)]
      case Some(i) => es[i := es[i].(updatedAt := Later(es[i].updatedAt, b.updatedAt))]
  }

  /** The `cityMap` after the whole pass, in insertion order. */
  function CityEntries(bs: seq<SitemapBusiness>): seq<CityEntry> {
    if bs == [] then [] else AddCity(CityEntries(bs[..|bs| - 1]), bs[|bs| - 1])
  }

  /** The `forEach` callback of app/sitemap.ts:120-143, on one business. */
  method AddToCityMap(cityMap: seq<CityEntry>, business: SitemapBusiness) returns (entries: seq<CityEntry>)
    ensures entries == AddCity(cityMap, business)
  {
    entries := cityMap;
    var originalCity := business.city;
    if originalCity.None? || originalCity.value == "" {
      return;
    }
    var normalizedCity := NormalizeCityName(originalCity);
    if normalizedCity == "" {
      return;
    }
    var known := IndexOf(EntryKeys(entries), normalizedCity);
    if known.None? {
      entries := entries + [CityEntry(normalizedCity, Trim(originalCity.value), business.updatedAt)];
    } else {
      var existing := entries[known.value];
      if business.updatedAt.Some? {
        var businessDate := business.updatedAt.value;
        if existing.updatedAt.None? || businessDate > existing.updatedAt.value {
          existing := existing.(updatedAt := Some(businessDate));
        }
      }
      entries := entries[known.value := existing];
    }
  }

  /** The pass of app/sitemap.ts:115-143 over all fetched businesses. */
  method CollectCities(allBusinesses: seq<SitemapBusiness>) returns (cityMap: seq<CityEntry>)
    ensures cityMap == CityEntries(allBusinesses)
  {
    cityMap := [];
    for n := 0 to |allBusinesses|
      invariant cityMap == CityEntries(allBusinesses[..n])
    {
      assert allBusinesses[..n + 1][..n] == allBusinesses[..n];
      cityMap := AddToCityMap(cityMap, allBusinesses[n]);
    }
    assert allBusinesses[..|allBusinesses|] == allBusinesses;
  }

  // ---------------------------------------------------------------------
  // The pages

  /** A business is listed when its slug is present and non-empty. */
  predicate HasSlug(b: SitemapBusiness) {
    b.slug.Some? && b.slug.value != ""
  }

  /** `.filter(business => business.slug)`, in fetch order. */
  function Slugged(bs: seq<SitemapBusiness>): (r: seq<SitemapBusiness>)
    ensures |r| <= |bs|
    ensures forall i :: 0 <= i < |r| ==> HasSlug(r[i]) && r[i] in bs
  {
    if bs == [] then []
    else
      var rest := Slugged(bs[1..]);
      assert forall i :: 0 <= i < |rest| ==> rest[i] in bs;
      (if HasSlug(bs[0]) then [bs[0]] else []) + rest
  }

  /** The city page of app/sitemap.ts:146-151. */
  function CityPage(e: CityEntry, now: int): Page {
    Page(BaseUrl + "/" + CreateCitySlug(e.originalCity), if e.updatedAt.Some? then e.updatedAt.value else now)
  }

  /** The business page of app/sitemap.ts:156-161. */
  function BusinessPage(b: SitemapBusiness, now: int): Page
    requires HasSlug(b)
  {
    Page(BaseUrl + "/business/" + b.slug.value, if b.updatedAt.Some? then b.updatedAt.value else now)
  }

  function CityPages(es: seq<CityEntry>, now: int): (ps: seq<Page>)
    ensures |ps| == |es| && forall i :: 0 <= i < |es| ==> ps[i] == CityPage(es[i], now)
  {
    seq(|es|, i requires 0 <= i < |es| => CityPage(es[i], now))
  }

  function BusinessPages(bs: seq<SitemapBusiness>, now: int): (ps: seq<Page>)
    ensures var ss := Slugged(bs);
      |ps| == |ss| && forall i :: 0 <= i < |ss| ==> ps[i] == BusinessPage(ss[i], now)
  {
    var ss := Slugged(bs);
    seq(|ss|, i requires 0 <= i < |ss| => BusinessPage(ss[i], now))
  }

  /** The sitemap for the fetched businesses `rows` (app/sitemap.ts:164). */
  function SitemapOf(rows: seq<SitemapBusiness>, now: int): seq<Page> {
    StaticPages(now) + CityPages(CityEntries(rows), now) + BusinessPages(rows, now)
  }

  /** The paged fetch of app/sitemap.ts:86-112: a failed batch ends the loop
      and the batches already appended are kept. */
  method FetchAllBusinesses(total: nat, fetch: Range -> BatchReply<SitemapBusiness>)
    returns (allBusinesses: seq<SitemapBusiness>, requested: seq<Range>)
    ensures var run := Paginate(total, fetch, 0);
      allBusinesses == run.rows && requested == run.requested
  {
    allBusinesses := [];
    var offset: nat := 0;
    requested := [];
    while offset < total
      invariant var rest := Paginate(total, fetch, offset);
        Paginate(total, fetch, 0) == FetchRun(allBusinesses + rest.rows, requested + rest.requested, rest.failed)
      decreases total - offset
    {
      var end := Min(offset + BatchSize - 1, total - 1);
      var range := Range(offset, end);
      Advance(total, fetch, offset, allBusinesses, requested);
      requested := requested + [range];
      var reply := fetch(range);
      if reply.BatchFailed? {
        return;
      }
      var data := reply.rows;
      if |data| > 0 {
        allBusinesses := allBusinesses + data;
      } else {
        return;
      }
      if |data| < BatchSize {
        return;
      }
      offset := offset + BatchSize;
    }
    Finish(total, fetch, offset, allBusinesses, requested);
  }

  /** `sitemap()`: a failed count gives the static pages alone; otherwise
      the pages for whatever the fetch delivered, failed batch or not. */
  method Generate(countReply: CountReply, fetch: Range -> BatchReply<SitemapBusiness>, now: int)
    returns (pages: seq<Page>, requested: seq<Range>)
    ensures countReply.CountFailed? ==> pages == StaticPages(now) && requested == []
    ensures countReply.Counted? ==>
      var run := Paginate(TotalOf(countReply.count), fetch, 0);
      pages == SitemapOf(run.rows, now) && requested == run.requested
  {
    var staticPages := StaticPages(now);
    if countReply.CountFailed? {
      return staticPages, [];
    }
    var allBusinesses;
    allBusinesses, requested := FetchAllBusinesses(TotalOf(countReply.count), fetch);
    var cityMap := CollectCities(allBusinesses);
    var cityPages := CityPages(cityMap, now);
    var businessPages := BusinessPages(allBusinesses, now);
    pages := staticPages + cityPages + businessPages;
  }

  // ---------------------------------------------------------------------
  // Properties of the city map

  /** Index `i` holds the first business stored under `k`. */
  ghost predicate IsFirstWithKey(bs: seq<SitemapBusiness>, k: string, i: int) {
    && 0 <= i < |bs|
    && KeyOf(bs[i]) == k
    && (forall j :: 0 <= j < i ==> KeyOf(bs[j]) != k)
  }

  /** `u` is the latest date among the businesses stored under `k`, and is
      absent exactly when none of them has a date. */
  ghost predicate IsLatest(bs: seq<SitemapBusiness>, k: string, u: Option<int>) {
    && (u.None? <==> forall i :: 0 <= i < |bs| && KeyOf(bs[i]) == k ==> bs[i].updatedAt.None?)
    && (u.Some? ==> exists i :: 0 <= i < |bs| && KeyOf(bs[i]) == k && bs[i].updatedAt == u)
    && (forall i :: 0 <= i < |bs| && KeyOf(bs[i]) == k && bs[i].updatedAt.Some? ==> bs[i].updatedAt.value <= u.value)
  }

  /** The entry stored under `k`, if any (`cityMap.get`). */
  function EntryFor(es: seq<CityEntry>, k: string): Option<CityEntry> {
    match IndexOf(EntryKeys(es), k)
    case None => None
    case Some(i) => Some(es[i])
  }

  lemma AddCityKeys(es: seq<CityEntry>, b: SitemapBusiness)
    ensures EntryKeys(AddCity(es, b)) ==
      if KeyOf(b) == "" || KeyOf(b) in EntryKeys(es) then EntryKeys(es) else EntryKeys(es) + [KeyOf(b)]
  {
  }

  /** The entries come in the order their keys are first seen, one per
      distinct non-empty key. */
  lemma {:induction false} CityEntriesKeys(bs: seq<SitemapBusiness>)
    ensures EntryKeys(CityEntries(bs)) == FirstSeen(LabelKeys(CityColumn(bs)))
  {
    if bs != [] {
      var prefix := bs[..|bs| - 1];
      CityEntriesKeys(prefix);
      AddCityKeys(CityEntries(prefix), bs[|bs| - 1]);
      assert LabelKeys(CityColumn(bs))[..|bs| - 1] == LabelKeys(CityColumn(prefix));
    }
  }

  /** How one business changes the entry stored under `k`. */
  lemma AddCityEntry(es: seq<CityEntry>, b: SitemapBusiness, k: string)
    requires forall i, j :: 0 <= i < j < |es| ==> es[i].key != es[j].key
    ensures EntryFor(AddCity(es, b), k) ==
      if KeyOf(b) != k || k == "" then EntryFor(es, k)
      else match EntryFor(es, k)
        case None => Some(CityEntry(k, Trim(b.city.value), b.updatedAt))
        case Some(e) => Some(e.(updatedAt := Later(e.updatedAt, b.updatedAt)))
  {
    var key := KeyOf(b);
    var ks := EntryKeys(es);
    if key != "" {
      var r := AddCity(es, b);
      match IndexOf(ks, key)
      case None =>
        IndexOfAppend(ks, key, k);
        assert EntryKeys(r) == ks + [key];
      case Some(i) =>
        assert EntryKeys(r) == ks;
        if k in ks {
          var j := IndexOf(ks, k).value;
          IndexOfDistinct(ks, j);
        }
    }
  }

  lemma LatestStep(bs: seq<SitemapBusiness>, b: SitemapBusiness, k: string, u: Option<int>)
    requires IsLatest(bs, k, u) && KeyOf(b) == k
    ensures IsLatest(bs + [b], k, Later(u, b.updatedAt))
  {
    var s := bs + [b];
    var v := Later(u, b.updatedAt);
    assert s[|bs|] == b;
    assert forall i :: 0 <= i < |bs| ==> s[i] == bs[i];
    if v.None? {
      assert forall i :: 0 <= i < |s| && KeyOf(s[i]) == k ==> s[i].updatedAt.None?;
    } else {
      forall i | 0 <= i < |s| && KeyOf(s[i]) == k && s[i].updatedAt.Some?
        ensures s[i].updatedAt.value <= v.value
      {
        if i < |bs| {
          assert bs[i].updatedAt.value <= u.value;
        }
      }
      if v == u {
        var i :| 0 <= i < |bs| && KeyOf(bs[i]) == k && bs[i].updatedAt == u;
        assert s[i] == bs[i];
      }
    }
  }

  lemma LatestOther(bs: seq<SitemapBusiness>, b: SitemapBusiness, k: string, u: Option<int>)
    requires IsLatest(bs, k, u) && KeyOf(b) != k
    ensures IsLatest(bs + [b], k, u)
  {
    var s := bs + [b];
    assert s[|bs|] == b;
    assert forall i :: 0 <= i < |bs| ==> s[i] == bs[i];
    if u.Some? {
      var i :| 0 <= i < |bs| && KeyOf(bs[i]) == k && bs[i].updatedAt == u;
      assert s[i] == bs[i];
    }
  }

  lemma LatestFirst(bs: seq<SitemapBusiness>, b: SitemapBusiness, k: string)
    requires forall i :: 0 <= i < |bs| ==> KeyOf(bs[i]) != k
    requires KeyOf(b) == k
    ensures IsLatest(bs + [b], k, b.updatedAt)
  {
    var s := bs + [b];
    assert s[|bs|] == b;
  }

  lemma KeyColumn(bs: seq<SitemapBusiness>, k: string)
    ensures k in LabelKeys(CityColumn(bs)) <==> exists j :: 0 <= j < |bs| && KeyOf(bs[j]) == k
  {
    var ks := LabelKeys(CityColumn(bs));
    assert forall j :: 0 <= j < |bs| ==> ks[j] == KeyOf(bs[j]);
  }

  /** The entry for `k` exists exactly when some business has key `k`
      (never for the empty key). */
  lemma CityEntryExists(bs: seq<SitemapBusiness>, k: string)
    ensures EntryFor(CityEntries(bs), k).Some? <==> k != "" && exists j :: 0 <= j < |bs| && KeyOf(bs[j]) == k
  {
    CityEntriesKeys(bs);
    FirstSeenMembers(LabelKeys(CityColumn(bs)), k);
    KeyColumn(bs, k);
  }

  lemma KeepFirst(bs: seq<SitemapBusiness>, b: SitemapBusiness, k: string, i: int)
    requires IsFirstWithKey(bs, k, i)
    ensures IsFirstWithKey(bs + [b], k, i) && (bs + [b])[i] == bs[i]
  {
    assert forall j :: 0 <= j < |bs| ==> (bs + [b])[j] == bs[j];
  }

  lemma NewFirst(bs: seq<SitemapBusiness>, b: SitemapBusiness, k: string)
    requires forall j :: 0 <= j < |bs| ==> KeyOf(bs[j]) != k
    requires KeyOf(b) == k
    ensures IsFirstWithKey(bs + [b], k, |bs|) && (bs + [b])[|bs|] == b
  {
    assert forall j :: 0 <= j < |bs| ==> (bs + [b])[j] == bs[j];
  }

  /** The entry for `k`: its spelling is the trimmed city of the first
      business with key `k`, not the most common one; its date is the
      latest of theirs, absent only when none has one. */
  lemma {:induction false} CityEntryFacts(bs: seq<SitemapBusiness>, k: string)
    requires k != "" && EntryFor(CityEntries(bs), k).Some?
    ensures var e := EntryFor(CityEntries(bs), k).value;
      && e.key == k
      && (exists i :: IsFirstWithKey(bs, k, i) && e.originalCity == Trim(bs[i].city.value))
      && IsLatest(bs, k, e.updatedAt)
  {
    assert bs != [];
    var prefix := bs[..|bs| - 1];
    var b := bs[|bs| - 1];
    assert bs == prefix + [b];
    var pes := CityEntries(prefix);
    CityEntriesKeys(prefix);
    AddCityEntry(pes, b, k);
    var e := EntryFor(CityEntries(bs), k).value;
    if EntryFor(pes, k).None? {
      CityEntryExists(prefix, k);
      NewFirst(prefix, b, k);
      LatestFirst(prefix, b, k);
      assert e == CityEntry(k, Trim(b.city.value), b.updatedAt);
      assert IsFirstWithKey(bs, k, |prefix|) && e.originalCity == Trim(bs[|prefix|].city.value);
    } else {
      CityEntryFacts(prefix, k);
      var pe := EntryFor(pes, k).value;
      var i :| IsFirstWithKey(prefix, k, i) && pe.originalCity == Trim(prefix[i].city.value);
      KeepFirst(prefix, b, k, i);
      if KeyOf(b) != k {
        assert e == pe;
        LatestOther(prefix, b, k, pe.updatedAt);
      } else {
        assert e == pe.(updatedAt := Later(pe.updatedAt, b.updatedAt));
        LatestStep(prefix, b, k, pe.updatedAt);
      }
      assert IsFirstWithKey(bs, k, i) && e.originalCity == Trim(bs[i].city.value);
    }
  }

  // ---------------------------------------------------------------------
  // Properties of the pages

  /** A failed count gives exactly the seven static pages. */
  lemma StaticPagesOnly(now: int)
    ensures |StaticPages(now)| == 7
    ensures StaticPages(now)[0].url == "https://atozofsigns.co.uk"
    ensures StaticPages(now)[6].url == "https://atozofsigns.co.uk/calculator"
  {
  }

  /** An element of `bs` is among the slugged businesses exactly when it has a slug. */
  lemma {:induction false} SluggedMembers(bs: seq<SitemapBusiness>, b: SitemapBusiness)
    ensures b in Slugged(bs) <==> b in bs && HasSlug(b)
  {
    if bs != [] {
      SluggedMembers(bs[1..], b);
      assert bs == [bs[0]] + bs[1..];
    }
  }

  /** Keeping the slugged businesses commutes with appending a batch. */
  lemma {:induction false} SluggedAppend(a: seq<SitemapBusiness>, b: seq<SitemapBusiness>)
    ensures Slugged(a + b) == Slugged(a) + Slugged(b)
  {
    if a == [] {
      assert a + b == b;
    } else {
      assert (a + b)[1..] == a[1..] + b;
      SluggedAppend(a[1..], b);
    }
  }

  /** Static pages first, then one page per city entry, then one page per
      slugged business: 7 + #keys + #slugged entries in all. */
  lemma SitemapShape(rows: seq<SitemapBusiness>, now: int)
    ensures var ps := SitemapOf(rows, now);
      var es := CityEntries(rows);
      && |ps| == 7 + |FirstSeen(LabelKeys(CityColumn(rows)))| + |Slugged(rows)|
      && ps[..7] == StaticPages(now)
      && (forall i :: 0 <= i < |es| ==> ps[7 + i] == CityPage(es[i], now))
      && (forall i :: 0 <= i < |Slugged(rows)| ==> ps[7 + |es| + i] == BusinessPage(Slugged(rows)[i], now))
  {
    CityEntriesKeys(rows);
  }
}
