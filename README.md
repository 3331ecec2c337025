# A to Z of Signs: the city directory, the sitemap, the price calculator and the blog lookups

This project models, in Dafny, the computational core of the A to Z of Signs
site, a directory of UK signage businesses.

The **home page** (`getCitiesWithCounts`) does the following:

- reads the row count of the business table;
- fetches every row in ranges of at most 1000;
- groups the businesses by their normalised city (trimmed, lower-cased);
- tallies the raw spellings of each city;
- shows each city under its most common spelling, sorted by business count;
- keeps the first 24 cities and links each one to `/<slug>`.

The **sitemap** pages through the same table. It keeps one entry per
normalised city, holding the first spelling seen and the latest update time.
It lists the static pages, then one page per city, then one page per
business that has a slug.

The **sign cost calculator** (`calculatePrice`) is a table-driven price estimate.

The **blog helpers** look up posts by slug and pick related posts.

## Modules

- `CityNames` has `normalizeCityName`, `createCitySlug` and the slug
  expression of the home page. Trimming and lower-casing are written out
  over ASCII.
- `Pagination` describes the range-by-range fetch as a function of the
  count and of a store that answers a range request. It proves:
  - which ranges are requested;
  - when the loop stops;
  - that an exact store yields the whole table.
- `HomeGrouping` holds the grouping loop as methods. Each method is proved
  equal to a fold (`Aggregate`). The fold is proved to partition and count
  the businesses. It is also proved to tally each raw spelling by the number
  of businesses spelled so, in first-seen order.
- `HomePage` has:
  - the majority vote over spellings (a method and its specification);
  - the stable sort by count and the top-24 slice;
  - the averages;
  - the whole `getCitiesWithCounts`.
- `Sitemap` has:
  - the sitemap's fetch loop, which keeps partial results on a failed batch;
  - the city map, with the first spelling and the latest date;
  - the page list.
- `LinkConsistency` proves that a home-page city link and the sitemap's
  city URL coincide, although the two files choose different spellings.
- `Calculator` and `Blog` are pure functions and lemmas.
- `Wrappers` (`Option`, `Result`) and `Lists` (index lookup, first-seen
  order, sums) are helpers.

## Model

| member | source | states |
|---|---|---|
| CityNames.NormalizeCityName | app/page.tsx:27-31 | `normalizeCityName`, shared with app/sitemap.ts:9-12: null and "" give the empty key, any other label is trimmed and lower-cased. The Normalize lemmas below characterise it |
| CityNames.NormalizeEmpty | app/page.tsx:27-31 | A label normalises to "" exactly when it is null, empty or whitespace only |
| CityNames.NormalizeIdempotent | app/page.tsx:27-31 | Normalising a normalised key gives the key back |
| CityNames.NormalizeIgnoresPadding | app/page.tsx:27-31 | Leading and trailing whitespace do not change the key |
| CityNames.NormalizeIgnoresCase | app/page.tsx:27-31 | Labels that differ only in letter case get the same key |
| CityNames.NormalizeKeepsInterior | app/page.tsx:27-31 | A label without surrounding whitespace keeps all its characters (interior spaces included), only lower-cased |
| CityNames.NormalizeTrimmed | app/page.tsx:157 | Trimming a label first leaves its key unchanged, so the trimmed display name belongs to the same group |
| CityNames.Trim | app/page.tsx:30 | `.trim()`, over ASCII whitespace (space and tab to carriage return). TrimEnds, TrimIsSlice and TrimIdempotent characterise it |
| CityNames.TrimEnds | app/page.tsx:30 | A trimmed label is empty or starts and ends with a non-whitespace character |
| CityNames.TrimIsSlice | app/page.tsx:30 | `trim` removes a whitespace-only prefix and suffix and keeps the middle unchanged |
| CityNames.TrimIdempotent | app/page.tsx:30 | Trimming twice is trimming once |
| CityNames.TrimLower | app/page.tsx:30 | Trimming and lower-casing commute |
| CityNames.LowerAll | app/page.tsx:30 | `.toLowerCase()` over the letters A–Z: the result has the same length and no upper-case letter. LowerAllIdempotent and TrimLower characterise it |
| CityNames.LowerAllIdempotent | app/page.tsx:30 | Lower-casing twice is lower-casing once |
| CityNames.Hyphenate | app/sitemap.ts:15 | `.replace(/\s+/g, '-')`: its result never contains whitespace. HyphenateWord, HyphenateRun and HyphenateSplit determine it on every string |
| CityNames.CreateCitySlug | app/sitemap.ts:14-16 | `createCitySlug`, which is also the slug expression of app/page.tsx:201: lower-case, then one `-` per whitespace run. SlugShape and SlugIdempotent characterise it |
| CityNames.HyphenateWord | app/sitemap.ts:14-16 | Text without whitespace is left as it is by the replacement |
| CityNames.HyphenateRun | app/sitemap.ts:14-16 | A whole whitespace run, whatever its length, becomes one `-` |
| CityNames.HyphenateSplit | app/sitemap.ts:14-16 | The replacement distributes over a split whose left part does not end in whitespace |
| CityNames.SlugShape | app/sitemap.ts:14-16 | A slug contains neither whitespace nor upper-case letters |
| CityNames.SlugIdempotent | app/sitemap.ts:14-16 | Slugging a slug gives it back |
| CityNames.SlugDependsOnlyOnKey | app/sitemap.ts:14-16 | The slug of a trimmed spelling equals the slug of its normalised key |
| CityNames.SlugAgreement | app/sitemap.ts:130 | Two spellings with the same key give the same slug once trimmed |
| Pagination.TotalOf | app/page.tsx:51 | `totalCount \|\| 0`: a null count is 0. NothingRequestedWhenEmpty uses it |
| Pagination.RangeAt | app/page.tsx:52 | The range `[offset, min(offset + 999, T - 1)]` requested at an offset below T. StandardRangesShape and RequestedRanges characterise it |
| Pagination.StandardRangesShape | app/page.tsx:47-52 | The i-th range is `[offset + 1000i, min(offset + 1000i + 999, T-1)]` inside `[0, T-1]`, and there are ⌈(T-offset)/1000⌉ of them |
| Pagination.PaginateFollowsStandard | app/page.tsx:51-78 | The ranges actually requested are a prefix of the standard ones |
| Pagination.RequestedRanges | app/page.tsx:51-52 | Every requested range starts at 0, 1000, 2000, … and ends at `min(start+999, T-1)` < T, with at most ⌈T/1000⌉ requests |
| Pagination.NothingRequestedWhenEmpty | app/page.tsx:51 | With a count of 0 (or null) no range is requested and nothing is fetched |
| Pagination.Paginate | app/page.tsx:51-78 | The home page's loop, which is also the sitemap's loop at app/sitemap.ts:88-112: the requested ranges, the rows kept and whether a batch failed. A failed run ended on a batch whose reply was an error |
| Pagination.PaginateDelivers | app/page.tsx:64-65 | The rows kept are the concatenation, in order, of the batches returned for the requested ranges |
| Pagination.PaginateFullBatches | app/page.tsx:72-77 | Every batch but the last was successful and held at least 1000 rows |
| Pagination.PaginateStops | app/page.tsx:51-78 | The loop either requests every standard range, or stops after an error, an empty batch or a short batch |
| Pagination.FetchesWholeTable | app/page.tsx:51-78 | A store that serves exactly the requested slice yields the whole table in order, over the standard ranges, without failure |
| Pagination.FetchOf2500 | app/page.tsx:51-78 | For 2500 rows the ranges are [0,999], [1000,1999], [2000,2499] and the rows are the table |
| HomeGrouping.BumpVariant | app/page.tsx:129-130 | The tally update on `originalCities`. BumpVariantTally and BumpVariantSpellings characterise it |
| HomeGrouping.BumpVariantTally | app/page.tsx:129-130 | Tallying spelling s raises the tally of s by one and leaves every other spelling's tally unchanged |
| HomeGrouping.BumpVariantSpellings | app/page.tsx:129-130 | A new spelling is appended after the known ones; a known spelling keeps its place |
| HomeGrouping.TallySpelling | app/page.tsx:129-130 | Updating the spelling tally with a `Map.set` equals the specification `BumpVariant` |
| HomeGrouping.RatingOrZero | app/page.tsx:134 | `business.rating \|\| 0`: a missing rating adds 0. AddBusinessTally and AggregateTallies use it |
| HomeGrouping.AddBusiness | app/page.tsx:109-134 | One step of the `forEach` on the map. AddBusinessGroup, AddBusinessTally and AddBusinessKeys characterise it |
| HomeGrouping.AddBusinessGroup | app/page.tsx:116-134 | A business with a non-empty key is recorded in its own group, created empty when the key is new; the group under every other key is unchanged |
| HomeGrouping.CountIntoCityMap | app/page.tsx:109-134 | One pass of the `forEach` callback equals the specification step `AddBusiness` |
| HomeGrouping.Aggregate | app/page.tsx:108-135 | The `cityMap` after the whole pass, in insertion order. AggregateKeys, AggregateTallies and AggregateVariants characterise it |
| HomeGrouping.GroupByCity | app/page.tsx:100-135 | The grouping loop computes `Aggregate`, the fold of `AddBusiness` over the businesses |
| HomeGrouping.BumpVariantCount | app/page.tsx:129-130 | Tallying a spelling adds exactly one to the sum of the tallies |
| HomeGrouping.AddBusinessKeys | app/page.tsx:116-124 | A business adds its key at the end of the map's key order only when its key is new and non-empty |
| HomeGrouping.AddBusinessKeeps | app/page.tsx:109-134 | Each step keeps every group well formed: non-empty key, at least one spelling, spellings that normalise to the key, each tallied once, count equal to the sum of the tallies |
| HomeGrouping.AggregateWellFormed | app/page.tsx:108-135 | Every group of the final map is well formed and keys are distinct |
| HomeGrouping.AggregateKeys | app/page.tsx:116-124 | The groups are the distinct non-empty normalised keys, in first-seen order |
| HomeGrouping.AddBusinessTally | app/page.tsx:133-134 | A business raises the count of its own group by one and its rating sum by `rating \|\| 0`; all other groups are unchanged |
| HomeGrouping.AggregateTallies | app/page.tsx:108-135 | A key has a group exactly when it is non-empty and some business has it; the group's count is that number of businesses and its total rating their rating sum |
| HomeGrouping.UncountedHasNoRating | app/page.tsx:134 | A key no business carries contributes no rating |
| HomeGrouping.CountsConserved | app/page.tsx:108-135 | The group counts plus the businesses skipped for lack of a city add up to the number of businesses |
| HomeGrouping.AggregateSpellingTally | app/page.tsx:129-130 | In the group of key k, the tally of a spelling t is the number of businesses whose raw city is exactly t when t has key k, and 0 otherwise |
| HomeGrouping.AggregateSpellings | app/page.tsx:129-130 | A group's spellings are the raw cities of its businesses, each once, in the order first seen |
| HomeGrouping.AggregateVariants | app/page.tsx:100-135 | Each group lists the raw spellings of its businesses in first-seen order, each tallied with the number of businesses spelled exactly so |
| HomePage.MaxCount | app/page.tsx:142-147 | The result is at least every tally and equal to one of them (0 when there is none) |
| HomePage.MostCommon | app/page.tsx:141-148 | The scan over the tallies that starts from the group key and count 0. MostCommonFromSpec and DisplayNameOfGroup characterise it |
| HomePage.MostCommonOriginal | app/page.tsx:141-148 | The `forEach` over the tallies computes the specification `MostCommon` |
| HomePage.MostCommonFromSpec | app/page.tsx:143-147 | With strict `>`, the scan returns the first spelling of maximal count, or the fallback when no count beats the start value |
| HomePage.DisplayNameOfGroup | app/page.tsx:139-157 | For a well-formed group, the display name is the first spelling of maximal count, never the fallback. Trimmed, it normalises to the group key and has the key's slug |
| HomePage.DisplayNameFromRows | app/page.tsx:138-157 | Over the fetched rows: a city is shown as the trim of the first-seen raw spelling carried by the most businesses, earlier spellings having strictly fewer |
| HomePage.Summarize | app/page.tsx:156-160 | A group's summary: trimmed display name, count, and `totalRating / count`. SummaryFacts and DisplayNameFromRows characterise it |
| HomePage.Summaries | app/page.tsx:138-161 | The `.map` over the groups: one summary per group, the i-th summarising the i-th group |
| HomePage.SummarizeCities | app/page.tsx:138-161 | The `map` over the groups computes `Summaries` |
| HomePage.SortByCountDesc | app/page.tsx:162 | The stable sort by count, descending. SortSpec characterises it |
| HomePage.InsertSorted | app/page.tsx:162 | Inserting into a list sorted by count descending keeps it sorted and adds exactly that element |
| HomePage.InsertStable | app/page.tsx:162 | Insertion places the new element after the existing elements of the same count |
| HomePage.SortSorted | app/page.tsx:162 | The sort yields a permutation sorted by count descending |
| HomePage.SortStable | app/page.tsx:162 | For every count, the elements with that count keep their relative order |
| HomePage.SortSpec | app/page.tsx:162 | The sort is sorted, a permutation and stable |
| HomePage.OverallAverage | app/page.tsx:165-167 | The rating sum of the rated businesses over their number, or 0 when none is rated. OverallAverageIgnoresUnrated and NoRatingsNoAverage characterise it |
| HomePage.OverallAverageIgnoresUnrated | app/page.tsx:165-167 | A business without a rating does not change the overall average |
| HomePage.NoRatingsNoAverage | app/page.tsx:167 | With no rated business the overall average is 0 |
| HomePage.FetchAllBusinesses | app/page.tsx:47-78 | The loop requests the ranges of `Paginate` and returns its rows, or fails with the failing range when a batch errors (the throw at 59-62) |
| HomePage.GetCitiesWithCounts | app/page.tsx:33-175 | A failed count fails without any request; otherwise the result is the failure of a batch, or the statistics of all the rows fetched |
| HomePage.HomeStatsOf | app/page.tsx:169-174 | The value returned for the fetched rows. HomeStatsShape and ShownCitiesFromGroups characterise it |
| HomePage.HomeStatsShape | app/page.tsx:162-174 | At most 24 cities shown, a sorted prefix of all groups sorted stably by count; `totalCities` is the number of distinct keys; `totalBusinesses` the number of rows |
| HomePage.SortedPrefix | app/page.tsx:170 | The first n of a sorted list are sorted and a prefix of it |
| HomePage.ShownCitiesFromGroups | app/page.tsx:156-170 | Every shown city comes from a group with a non-empty key. Its count is the number of businesses with that key and its average their rating sum over that count. Its name normalises to the key |
| HomePage.SummaryFacts | app/page.tsx:156-160 | A group's summary has the group's business count and the average rating of its businesses, and its name normalises to the key |
| HomePage.CityHref | app/page.tsx:201-205 | The city link is `/` followed by a slug without whitespace or upper-case letters |
| Sitemap.StaticPages | app/sitemap.ts:23-66 | Exactly seven static pages, each at the base URL plus its path, dated now |
| Sitemap.StaticPagesOnly | app/sitemap.ts:23-66 | The static list starts with the home page and ends with the calculator |
| Sitemap.Later | app/sitemap.ts:136-141 | The stored date is replaced only by a later one; the result is null only when both are null |
| Sitemap.AddCity | app/sitemap.ts:121-142 | One step of the sitemap's `forEach` on its city map. AddCityKeys and AddCityEntry characterise it |
| Sitemap.CityEntries | app/sitemap.ts:120-143 | The city map after the whole pass. CityEntriesKeys, CityEntryExists and CityEntryFacts characterise it |
| Sitemap.AddToCityMap | app/sitemap.ts:121-142 | One pass of the `forEach` callback equals the specification step `AddCity` |
| Sitemap.CollectCities | app/sitemap.ts:120-143 | The loop computes `CityEntries`, the fold of `AddCity` |
| Sitemap.FetchAllBusinesses | app/sitemap.ts:87-112 | The loop requests the ranges of `Paginate` and keeps its rows, the batches before a failed one included |
| Sitemap.Generate | app/sitemap.ts:18-165 | A failed count gives exactly the static pages and no request; otherwise the sitemap of the fetched rows |
| Sitemap.AddCityKeys | app/sitemap.ts:128-133 | A business adds its key at the end only when it is new and non-empty |
| Sitemap.CityEntriesKeys | app/sitemap.ts:120-143 | One entry per distinct non-empty normalised key, in first-seen order |
| Sitemap.AddCityEntry | app/sitemap.ts:128-141 | A new key records the trimmed spelling and the business's date; an existing key keeps its spelling and takes the later date |
| Sitemap.CityEntryExists | app/sitemap.ts:120-143 | A key has an entry exactly when it is non-empty and some business has it |
| Sitemap.CityEntryFacts | app/sitemap.ts:128-141 | An entry holds the trimmed spelling of the first business with its key, and the latest date among those businesses (null only when none has one) |
| Sitemap.LatestStep | app/sitemap.ts:136-141 | Folding in a business of the key keeps the stored date the latest |
| Sitemap.HasSlug | app/sitemap.ts:155 | `business.slug` is truthy: present and non-empty. SluggedMembers characterises the filter built on it |
| Sitemap.Slugged | app/sitemap.ts:155 | The filter keeps no more businesses than were fetched, and each one kept was fetched and has a non-empty slug |
| Sitemap.CityPages | app/sitemap.ts:146-151 | One page per city entry, the i-th for the i-th entry, in map order |
| Sitemap.BusinessPages | app/sitemap.ts:154-161 | One page per business with a slug, the i-th for the i-th such business in fetch order |
| Sitemap.CityPage | app/sitemap.ts:146-151 | A city's page: the base URL, `/` and the slug of the stored spelling, dated by the latest update, or now when there is none |
| Sitemap.BusinessPage | app/sitemap.ts:156-161 | A business's page: the base URL, `/business/` and its slug, dated by its update or now |
| Sitemap.SluggedMembers | app/sitemap.ts:155 | A business is kept exactly when it was fetched and has a non-empty slug |
| Sitemap.SluggedAppend | app/sitemap.ts:155 | The filter keeps fetch order |
| Sitemap.SitemapOf | app/sitemap.ts:164 | The combined list for the fetched rows. SitemapShape characterises it |
| Sitemap.SitemapShape | app/sitemap.ts:164 | Static pages, then city pages, then business pages: 7 + number of keys + number of slugged businesses |
| LinkConsistency.SameKeys | app/page.tsx:116-124 | Over the same city column, the home page's groups and the sitemap's entries have the same keys in the same order |
| LinkConsistency.SitemapCityUrl | app/sitemap.ts:147 | A sitemap city URL is the base URL, `/` and the slug of the normalised key |
| LinkConsistency.CityLinksAgree | app/page.tsx:201-205 | The home page's link for a group and the sitemap's URL for the same entry coincide, though one uses the majority spelling and the other the first |
| LinkConsistency.HomeLinksInSitemap | app/page.tsx:201-205 | Every city shown on the home page has its URL in the sitemap |
| LinkConsistency.LeedsExample | app/sitemap.ts:127-133 | With "leeds", "Leeds", "Leeds", the home page shows "Leeds" and the sitemap keeps "leeds", and both link to `/leeds` |
| Calculator.CalculatePrice | app/calculator/page.tsx:14-16 | Nothing is shown when sign type, size or material is empty; the bounds are NaN exactly when the base price is |
| Calculator.MaterialRate | app/calculator/page.tsx:22-27 | Every rate is positive, minimum at most maximum |
| Calculator.SizeMultiplier | app/calculator/page.tsx:30-35 | A size has a multiplier exactly when it is Small, Medium, Large or Extra Large, and that multiplier is positive |
| Calculator.PerArea | app/calculator/page.tsx:45-51 | Material rate times size multiplier, or NaN for an unknown size (also the default branch at 72-79). PerAreaOrdered and PerAreaGrowsWithSize characterise it |
| Calculator.BasePrice | app/calculator/page.tsx:37-80 | The range chosen by sign type before illumination. FlatPanelFixed, FlatPanelByArea, SizeTiers, UnknownSignType and BaseOrdered characterise it |
| Calculator.PerAreaOrdered | app/calculator/page.tsx:45-51 | For a known size, the per-area price is a range with 0 < min ≤ max |
| Calculator.BaseOrdered | app/calculator/page.tsx:37-80 | For a known size, every sign type gives a range with 0 < min ≤ max |
| Calculator.FlatPanelFixed | app/calculator/page.tsx:38-44 | Foamex, Dibond and Aluminium flat panels cost 150–400, 250–600 and 400–900 whatever the size |
| Calculator.FlatPanelByArea | app/calculator/page.tsx:45-51 | Other flat panels cost the material rate times the size multiplier, and an unknown material uses Dibond's rate |
| Calculator.AcrylicFlatPanels | app/calculator/page.tsx:22-51 | The four acrylic flat-panel ranges |
| Calculator.SizeTiers | app/calculator/page.tsx:53-71 | Lightbox, Window Graphics and Built-up Letters have the two size tiers; Tray Sign and Vehicle Wrap one price; none depends on the material |
| Calculator.UnknownSignType | app/calculator/page.tsx:72-79 | An unrecognised sign type is priced by material rate times size multiplier |
| Calculator.Illuminate | app/calculator/page.tsx:82-85 | "Yes" adds 300 to the minimum and 1500 to the maximum; anything else changes nothing; NaN stays NaN |
| Calculator.IlluminationSurcharge | app/calculator/page.tsx:82-87 | The final estimate is the bare one, raised by the surcharge only for "Yes" |
| Calculator.NotANumberOnlyForUnknownSize | app/calculator/page.tsx:45-51 | NaN bounds arise only from a size outside the four known ones |
| Calculator.MinAtMostMax | app/calculator/page.tsx:13-88 | For every complete selection with a known size, the estimate is a range with 0 < min ≤ max |
| Calculator.PerAreaGrowsWithSize | app/calculator/page.tsx:30-35 | Per-area prices grow strictly from Small to Extra Large |
| Blog.FindBySlug | app/blog/data.ts:364-366 | The result is the first post with the slug, and nothing only when no post has it |
| Blog.GetBlogPostBySlug | app/blog/data.ts:364-366 | `getBlogPostBySlug` is `FindBySlug` over the constant list. LookupBySlug characterises it |
| Blog.LookupBySlug | app/blog/data.ts:364-366 | Each listed slug finds its own post; an unlisted one finds nothing |
| Blog.PostsDistinct | app/blog/data.ts:13-192 | The three posts have distinct ids and distinct slugs |
| Blog.GetAllBlogPosts | app/blog/data.ts:368-370 | The list of the three posts, with ids 1, 2, 3 |
| Blog.OtherPosts | app/blog/data.ts:373 | The filter keeps no more posts than it is given, and every post kept is one of them with a different slug |
| Blog.OtherPostsMembers | app/blog/data.ts:373 | The filter keeps exactly the posts whose slug differs from the current one |
| Blog.OtherPostsAppend | app/blog/data.ts:373 | The filter distributes over concatenation, so it keeps the posts in their original order, each at most once |
| Blog.OtherPostsUnmatched | app/blog/data.ts:373 | A slug no post has removes nothing |
| Blog.SliceEnd | app/blog/data.ts:373 | `slice(0, limit)` ends at `min(limit, n)` for a non-negative limit and counts back from the end for a negative one |
| Blog.GetRelatedPosts | app/blog/data.ts:372-374 | The related posts are the first `limit` of the filtered posts, in their order |
| Blog.RelatedPostsBounds | app/blog/data.ts:372-374 | No related post has the current slug, and a non-negative limit bounds their number |
| Blog.RelatedOnEachPost | app/blog/data.ts:372-374 | With the default limit of 2, each post's related posts are the other two |
| Blog.RelatedLimits | app/blog/data.ts:372-374 | For any slug that no post has, the related posts are the first `limit` posts for every limit from 0 to 3 and for limit 5; a limit of -1 drops the last post and -4 leaves none |

## Left out

- The database client and its queries. The row count is a `CountReply` parameter. A batch is a function from a range to a `BatchReply`. A null `data` is an empty batch. The query `error` objects are not modelled; the thrown count error and the failing range stand for them.
- `await` is plain sequencing; concurrent renders and caching are not modelled.
- Logging, and the Manchester diagnostics of app/page.tsx:80-95 and 150-154: they change no output.
- Unicode. `trim`, `\s` and `toLowerCase` are modelled over ASCII whitespace (space, tab to carriage return) and the letters A–Z.
- `new Date(...)`: `updated_at` is an optional integer timestamp, and the render time `now` is a parameter. Unparseable dates are not modelled.
- Ratings are exact reals. A `NaN` rating and the `isNaN` filter of app/page.tsx:165 are not modelled, nor is the floating-point rounding of the averages.
- `toFixed` and `toLocaleString` formatting and all JSX markup, apart from the city link of app/page.tsx:201-205.
- The `changeFrequency` and `priority` fields of sitemap entries.
- The `avgRating` field stored in `cityMap` (app/page.tsx:104, 121): it is written once as 0 and never read.
- Row order. The `.range()` queries of app/page.tsx:54-57 and app/sitemap.ts:91-94 name no `.order(...)`, so the source does not guarantee that consecutive ranges see one stable order of the table. Pagination.FetchesWholeTable assumes such a store (`ServesExactly`); the other pagination lemmas hold for any store.
- JavaScript `Map` objects and in-place mutation of a map's value objects. The map is an insertion-ordered sequence of values that the loops reassign.
- Lookups of keys such as `__proto__` in the calculator's plain-object tables.
- Calculator: non-numeric arithmetic. Only the NaN arising from an unknown size is modelled, as `NotANumber`.
- Blog: the title, excerpt, date, category and content of each post, which are inert text.
- Blog: fractional or non-numeric `limit` values. `limit` is an integer.
- Blog: `slice`'s negative start is not needed, since the start is always 0.
- The city detail page and other routes of the site are not part of this model.
- HomePage.GetCitiesWithCounts: the thrown exception is returned as a `Failure` value rather than propagated.

## Divergences

The model follows the code in two places where it departs from its description or from the other file.

- app/sitemap.ts:127 describes the city map as keeping "the most common" spelling. The code at 128-133 keeps the first trimmed spelling seen (`Sitemap.CityEntryFacts`). The URLs are unaffected, since a slug depends only on the normalised key (`LinkConsistency.CityLinksAgree`). Only the stored `originalCity` differs.
- The home page throws on a batch error (app/page.tsx:59-62). The sitemap stops and keeps the batches already fetched (app/sitemap.ts:96-99). Both are modelled as written (`HomePage.FetchAllBusinesses`, `Sitemap.FetchAllBusinesses`).
