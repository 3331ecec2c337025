/** The grouping pass of `getCitiesWithCounts` (app/page.tsx:100-135):
    businesses are folded, in fetch order, into an insertion-ordered map
    from normalised city key to a group holding the business count, the
    rating sum and the tally of raw spellings (`originalCities`). */
module HomeGrouping {
  import opened Wrappers
  import opened CityNames
  import opened Lists

  /** The two columns the home page selects: `address_info_city, rating`. */
  datatype Business = Business(city: Option<string>, rating: Option<real>)

  /** One entry of `originalCities`: a raw spelling and how many businesses carry it. */
  datatype Variant = Variant(spelling: string, count: nat)

  /** One value of `cityMap` (its `avgRating` field stays 0 in the map and is left out). */
  datatype CityGroup = CityGroup(key: string, variants: seq<Variant>, count: nat, totalRating: real)

  /** The key a business is grouped under; empty means it joins no group. */
  function CityKey(b: Business): string {
    NormalizeCityName(b.city)
  }

  /** `business.rating || 0` */
  function RatingOrZero(b: Business): real {
    if b.rating.Some? then b.rating.value else 0.0
  }

  function Keys(gs: seq<CityGroup>): (ks: seq<string>)
    ensures |ks| == |gs| && forall i :: 0 <= i < |gs| ==> ks[i] == gs[i].key
  {
    seq(|gs|, i requires 0 <= i < |gs| => gs[i].key)
  }

  function Spellings(vs: seq<Variant>): (ss: seq<string>)
    ensures |ss| == |vs| && forall i :: 0 <= i < |vs| ==> ss[i] == vs[i].spelling
  {
    seq(|vs|, i requires 0 <= i < |vs| => vs[i].spelling)
  }

  /** The tallies of a group's spellings, in order. `Counts` and
      `GroupCounts` project the same field name from two different
      datatypes, and Dafny has no structural typing to share one projection. */
  function Counts(vs: seq<Variant>): (ns: seq<int>)
    ensures |ns| == |vs| && forall i :: 0 <= i < |vs| ==> ns[i] == vs[i].count
  {
    seq(|vs|, i requires 0 <= i < |vs| => vs[i].count)
  }

  /** The business count of each group, in map order. */
  function GroupCounts(gs: seq<CityGroup>): (ns: seq<int>)
    ensures |ns| == |gs| && forall i :: 0 <= i < |gs| ==> ns[i] == gs[i].count
  {
    seq(|gs|, i requires 0 <= i < |gs| => gs[i].count)
  }

  /** `originalCities.set(originalCity, (originalCities.get(originalCity) || 0) + 1)`:
      a known spelling keeps its place, a new one goes last. */
  function BumpVariant(vs: seq<Variant>, spelling: string): seq<Variant> {
    match IndexOf(Spellings(vs), spelling)
    case None => vs + [Variant(spelling, 1)]
    case Some(i) => vs[i := Variant(spelling, vs[i].count + 1)]
  }

  /** One business counted into its group. */
  function Record(g: CityGroup, spelling: string, rating: real): CityGroup {
    g.(variants := BumpVariant(g.variants, spelling), count := g.count + 1, totalRating := g.totalRating + rating)
  }

  /** One step of the `forEach`: skip a business without a key; otherwise
      create its group if it has none yet, then count it into the group. */
  function AddBusiness(gs: seq<CityGroup>, b: Business): seq<CityGroup> {
    var key := CityKey(b);
    if key == "" then gs
    else
      var created := Created(gs, key);
      var i := IndexOf(Keys(created), key).value;
      created[i := Record(created[i], b.city.value, RatingOrZero(b))]
  }

  /** The `cityMap` after the whole pass, as a list in insertion order. */
  function Aggregate(bs: seq<Business>): seq<CityGroup> {
    if bs == [] then [] else AddBusiness(Aggregate(bs[..|bs| - 1]), bs[|bs| - 1])
  }

  /** `originalCities.set(originalCity, (originalCities.get(originalCity) || 0) + 1)` */
  method TallySpelling(originalCities: seq<Variant>, originalCity: string) returns (variants: seq<Variant>)
    ensures variants == BumpVariant(originalCities, originalCity)
  {
    var known := IndexOf(Spellings(originalCities), originalCity);
    var originalCount := if known.Some? then originalCities[known.value].count else 0;
    if known.Some? {
      variants := originalCities[known.value := Variant(originalCity, originalCount + 1)];
    } else {
      variants := originalCities + [Variant(originalCity, originalCount + 1)];
    }
  }

  /** The `forEach` callback of app/page.tsx:108-135, on one business. */
  method CountIntoCityMap(cityMap: seq<CityGroup>, business: Business) returns (groups: seq<CityGroup>)
    ensures groups == AddBusiness(cityMap, business)
  {
    groups := cityMap;
    var originalCity := business.city;
    if originalCity.None? || originalCity.value == "" {
      return;
    }
    var normalizedCity := NormalizeCityName(originalCity);
    if normalizedCity == "" {
      return;
    }
    if normalizedCity !in Keys(groups) {
      groups := groups + [CityGroup(normalizedCity, [], 0, 0.0)];
    }
    assert groups == Created(cityMap, normalizedCity);
    AddBusinessIsUpdate(cityMap, business);
    var i := IndexOf(Keys(groups), normalizedCity).value;
    var cityData := groups[i];
    var variants := TallySpelling(cityData.variants, originalCity.value);
    cityData := cityData.(variants := variants, count := cityData.count + 1);
    cityData := cityData.(totalRating := cityData.totalRating + RatingOrZero(business));
    assert cityData == Record(groups[i], originalCity.value, RatingOrZero(business));
    groups := groups[i := cityData];
  }

  /** The grouping pass of app/page.tsx:108-135 over all fetched businesses. */
  method GroupByCity(businesses: seq<Business>) returns (groups: seq<CityGroup>)
    ensures groups == Aggregate(businesses)
  {
    groups := [];
    for n := 0 to |businesses|
      invariant groups == Aggregate(businesses[..n])
    {
      assert businesses[..n + 1][..n] == businesses[..n];
      groups := CountIntoCityMap(groups, businesses[n]);
    }
    assert businesses[..|businesses|] == businesses;
  }

  // ---------------------------------------------------------------------
  // Per-key tallies over the input, the independent side of the lemmas

  /** Number of businesses whose key is `k` (`k == ""`: those joining no group). */
  function CountKey(bs: seq<Business>, k: string): nat {
    if bs == [] then 0 else CountKey(bs[..|bs| - 1], k) + (if CityKey(bs[|bs| - 1]) == k then 1 else 0)
  }

  /** Sum of the ratings, missing ones as 0, of the businesses whose key is `k`. */
  function RatingSum(bs: seq<Business>, k: string): real {
    if bs == [] then 0.0 else RatingSum(bs[..|bs| - 1], k) + (if CityKey(bs[|bs| - 1]) == k then RatingOrZero(bs[|bs| - 1]) else 0.0)
  }

  function Cities(bs: seq<Business>): (cs: seq<Option<string>>)
    ensures |cs| == |bs| && forall i :: 0 <= i < |bs| ==> cs[i] == bs[i].city
  {
    seq(|bs|, i requires 0 <= i < |bs| => bs[i].city)
  }

  /** The group stored under `k`, if any (`cityMap.get`). */
  function GroupFor(gs: seq<CityGroup>, k: string): Option<CityGroup> {
    match IndexOf(Keys(gs), k)
    case None => None
    case Some(i) => Some(gs[i])
  }

  // ---------------------------------------------------------------------
  // Invariants of every group

  /** Every spelling was seen at least once, normalises to the group's key,
      and is tallied once. */
  ghost predicate VariantsOf(vs: seq<Variant>, key: string) {
    && (forall i :: 0 <= i < |vs| ==> vs[i].count >= 1 && NormalizeCityName(Some(vs[i].spelling)) == key)
    && (forall i, j :: 0 <= i < j < |vs| ==> vs[i].spelling != vs[j].spelling)
  }

  /** A group has a non-empty key, at least one spelling, and its count is
      the sum of its spellings' counts. */
  ghost predicate GroupWellFormed(g: CityGroup) {
    && g.key != ""
    && |g.variants| >= 1
    && VariantsOf(g.variants, g.key)
    && g.count == Total(Counts(g.variants))
  }

  ghost predicate GroupsWellFormed(gs: seq<CityGroup>) {
    && (forall i :: 0 <= i < |gs| ==> GroupWellFormed(gs[i]))
    && (forall i, j :: 0 <= i < j < |gs| ==> gs[i].key != gs[j].key)
  }

  lemma BumpVariantKeeps(vs: seq<Variant>, key: string, spelling: string)
    requires VariantsOf(vs, key) && NormalizeCityName(Some(spelling)) == key
    ensures VariantsOf(BumpVariant(vs, spelling), key)
  {
    var r := BumpVariant(vs, spelling);
    match IndexOf(Spellings(vs), spelling)
    case None =>
      assert r == vs + [Variant(spelling, 1)];
      forall i | 0 <= i < |vs| ensures vs[i].spelling != spelling {
        assert Spellings(vs)[i] == vs[i].spelling;
      }
    case Some(i) =>
      assert r == vs[i := Variant(spelling, vs[i].count + 1)];
  }

  lemma BumpVariantCount(vs: seq<Variant>, spelling: string)
    ensures |BumpVariant(vs, spelling)| >= 1
    ensures Total(Counts(BumpVariant(vs, spelling))) == Total(Counts(vs)) + 1
  {
    var r := BumpVariant(vs, spelling);
    match IndexOf(Spellings(vs), spelling)
    case None =>
      assert Counts(r) == Counts(vs) + [1];
      TotalAppend(Counts(vs), 1);
    case Some(i) =>
      assert Counts(r) == Counts(vs)[i := vs[i].count + 1];
      TotalUpdate(Counts(vs), i, vs[i].count + 1);
  }

  /** The fresh group `{ count: 0, totalRating: 0, originalCities: new Map() }` or a well-formed one. */
  ghost predicate Recordable(g: CityGroup) {
    g.key != "" && VariantsOf(g.variants, g.key) && g.count == Total(Counts(g.variants))
  }

  lemma RecordKeeps(g: CityGroup, spelling: string, rating: real)
    requires Recordable(g) && NormalizeCityName(Some(spelling)) == g.key
    ensures GroupWellFormed(Record(g, spelling, rating))
  {
    BumpVariantKeeps(g.variants, g.key, spelling);
    BumpVariantCount(g.variants, spelling);
  }

  /** The list `AddBusiness` updates: the groups, with an empty group for
      the key appended when the key is new. */
  function Created(gs: seq<CityGroup>, key: string): (created: seq<CityGroup>)
    ensures key in Keys(created)
  {
    var created := if key in Keys(gs) then gs else gs + [CityGroup(key, [], 0, 0.0)];
    assert Keys(created)[|created| - 1] == key || key in Keys(gs);
    created
  }

  lemma AddBusinessIsUpdate(gs: seq<CityGroup>, b: Business)
    requires CityKey(b) != ""
    ensures var created := Created(gs, CityKey(b));
      var i := IndexOf(Keys(created), CityKey(b)).value;
      AddBusiness(gs, b) == created[i := Record(created[i], b.city.value, RatingOrZero(b))]
  {
  }

  lemma CreatedKeys(gs: seq<CityGroup>, key: string)
    ensures Keys(Created(gs, key)) == if key in Keys(gs) then Keys(gs) else Keys(gs) + [key]
  {
  }

  lemma UpdateKeys(gs: seq<CityGroup>, i: nat, g: CityGroup)
    requires i < |gs| && g.key == gs[i].key
    ensures Keys(gs[i := g]) == Keys(gs)
  {
  }

  lemma AddBusinessKeys(gs: seq<CityGroup>, b: Business)
    ensures Keys(AddBusiness(gs, b)) ==
      if CityKey(b) == "" || CityKey(b) in Keys(gs) then Keys(gs) else Keys(gs) + [CityKey(b)]
  {
    var key := CityKey(b);
    if key != "" {
      var created := Created(gs, key);
      var i := IndexOf(Keys(created), key).value;
      AddBusinessIsUpdate(gs, b);
      UpdateKeys(created, i, Record(created[i], b.city.value, RatingOrZero(b)));
      CreatedKeys(gs, key);
    }
  }

  lemma UpdateKeepsWellFormed(gs: seq<CityGroup>, i: nat, g: CityGroup)
    requires i < |gs| && g.key == gs[i].key && GroupWellFormed(g)
    requires forall j :: 0 <= j < |gs| && j != i ==> GroupWellFormed(gs[j])
    requires forall j, k :: 0 <= j < k < |gs| ==> gs[j].key != gs[k].key
    ensures GroupsWellFormed(gs[i := g])
  {
  }

  lemma CreatedKeepsWellFormed(gs: seq<CityGroup>, key: string)
    requires GroupsWellFormed(gs) && key != ""
    ensures var created := Created(gs, key);
      var i := IndexOf(Keys(created), key).value;
      && created[i].key == key
      && Recordable(created[i])
      && (forall j :: 0 <= j < |created| && j != i ==> GroupWellFormed(created[j]))
      && (forall j, k :: 0 <= j < k < |created| ==> created[j].key != created[k].key)
  {
    var created := Created(gs, key);
    CreatedKeys(gs, key);
    var i := IndexOf(Keys(created), key).value;
    assert created[i].key == Keys(created)[i];
    if key !in Keys(gs) {
      assert i == |gs|;
      assert Counts([]) == [];
      forall j | 0 <= j < |gs| ensures gs[j].key != key {
        assert Keys(gs)[j] == gs[j].key;
      }
    }
  }

  lemma AddBusinessKeeps(gs: seq<CityGroup>, b: Business)
    requires GroupsWellFormed(gs)
    ensures GroupsWellFormed(AddBusiness(gs, b))
  {
    var key := CityKey(b);
    if key != "" {
      var created := Created(gs, key);
      var i := IndexOf(Keys(created), key).value;
      CreatedKeepsWellFormed(gs, key);
      RecordKeeps(created[i], b.city.value, RatingOrZero(b));
      AddBusinessIsUpdate(gs, b);
      UpdateKeepsWellFormed(created, i, Record(created[i], b.city.value, RatingOrZero(b)));
    }
  }

  /** Every group the pass builds is well formed, and no key is stored twice. */
  lemma {:induction false} AggregateWellFormed(bs: seq<Business>)
    ensures GroupsWellFormed(Aggregate(bs))
  {
    if bs != [] {
      AggregateWellFormed(bs[..|bs| - 1]);
      AddBusinessKeeps(Aggregate(bs[..|bs| - 1]), bs[|bs| - 1]);
    }
  }

  /** The groups come in the order their keys are first seen, one per
      distinct non-empty key. */
  lemma {:induction false} AggregateKeys(bs: seq<Business>)
    ensures Keys(Aggregate(bs)) == FirstSeen(LabelKeys(Cities(bs)))
  {
    if bs != [] {
      var prefix := bs[..|bs| - 1];
      AggregateKeys(prefix);
      AddBusinessKeys(Aggregate(prefix), bs[|bs| - 1]);
      assert LabelKeys(Cities(bs))[..|bs| - 1] == LabelKeys(Cities(prefix));
    }
  }

  /** Replacing the group found under a key changes only what that key finds. */
  lemma GroupForUpdate(gs: seq<CityGroup>, i: nat, g: CityGroup, k: string)
    requires i < |gs| && g.key == gs[i].key
    ensures GroupFor(gs[i := g], k) == if IndexOf(Keys(gs), k) == Some(i) then Some(g) else GroupFor(gs, k)
  {
    UpdateKeys(gs, i, g);
  }

  /** Creating the empty group for a new key changes only what that key finds. */
  lemma GroupForCreated(gs: seq<CityGroup>, key: string, k: string)
    ensures GroupFor(Created(gs, key), k) ==
      if k == key && key !in Keys(gs) then Some(CityGroup(key, [], 0, 0.0)) else GroupFor(gs, k)
  {
    if key !in Keys(gs) {
      CreatedKeys(gs, key);
      IndexOfAppend(Keys(gs), key, k);
    }
  }

  lemma AddBusinessTally(gs: seq<CityGroup>, b: Business, k: string)
    ensures var after := GroupFor(AddBusiness(gs, b), k);
      var before := GroupFor(gs, k);
      if k == CityKey(b) && k != "" then
        && after.Some?
        && after.value.count == (if before.Some? then before.value.count else 0) + 1
        && after.value.totalRating == (if before.Some? then before.value.totalRating else 0.0) + RatingOrZero(b)
      else after == before
  {
    var key := CityKey(b);
    if key != "" {
      var created := Created(gs, key);
      var i := IndexOf(Keys(created), key).value;
      var g := Record(created[i], b.city.value, RatingOrZero(b));
      AddBusinessIsUpdate(gs, b);
      GroupForUpdate(created, i, g, k);
      GroupForCreated(gs, key, k);
      GroupForCreated(gs, key, key);
      if k != key {
        assert IndexOf(Keys(created), k) != Some(i);
      }
    }
  }

  lemma {:induction false} UncountedHasNoRating(bs: seq<Business>, k: string)
    requires CountKey(bs, k) == 0
    ensures RatingSum(bs, k) == 0.0
  {
    if bs != [] {
      UncountedHasNoRating(bs[..|bs| - 1], k);
    }
  }

  /** Each group counts exactly the businesses whose key it carries and sums
      their ratings (missing ones as 0); a group exists exactly for the
      non-empty keys some business has. */
  lemma {:induction false} AggregateTallies(bs: seq<Business>, k: string)
    ensures GroupFor(Aggregate(bs), k).Some? <==> k != "" && CountKey(bs, k) > 0
    ensures GroupFor(Aggregate(bs), k).Some? ==>
      GroupFor(Aggregate(bs), k).value.count == CountKey(bs, k) &&
      GroupFor(Aggregate(bs), k).value.totalRating == RatingSum(bs, k)
  {
    if bs != [] {
      var prefix := bs[..|bs| - 1];
      AggregateTallies(prefix, k);
      AddBusinessTally(Aggregate(prefix), bs[|bs| - 1], k);
      assert Aggregate(bs) == AddBusiness(Aggregate(prefix), bs[|bs| - 1]);
      if CountKey(prefix, k) == 0 {
        UncountedHasNoRating(prefix, k);
      }
    }
  }

  lemma CreatedTotal(gs: seq<CityGroup>, key: string)
    ensures Total(GroupCounts(Created(gs, key))) == Total(GroupCounts(gs))
  {
    if key !in Keys(gs) {
      assert GroupCounts(Created(gs, key)) == GroupCounts(gs) + [0];
      TotalAppend(GroupCounts(gs), 0);
    }
  }

  lemma UpdateTotal(gs: seq<CityGroup>, i: nat, g: CityGroup)
    requires i < |gs|
    ensures Total(GroupCounts(gs[i := g])) == Total(GroupCounts(gs)) - gs[i].count + g.count
  {
    assert GroupCounts(gs[i := g]) == GroupCounts(gs)[i := g.count];
    TotalUpdate(GroupCounts(gs), i, g.count);
  }

  lemma AddBusinessTotal(gs: seq<CityGroup>, b: Business)
    ensures Total(GroupCounts(AddBusiness(gs, b))) == Total(GroupCounts(gs)) + if CityKey(b) == "" then 0 else 1
  {
    var key := CityKey(b);
    if key != "" {
      var created := Created(gs, key);
      var i := IndexOf(Keys(created), key).value;
      var g := Record(created[i], b.city.value, RatingOrZero(b));
      CreatedTotal(gs, key);
      AddBusinessIsUpdate(gs, b);
      UpdateTotal(created, i, g);
    }
  }

  /** Count conservation: the group counts add up to the number of fetched
      businesses minus those skipped for an empty key. */
  lemma {:induction false} CountsConserved(bs: seq<Business>)
    ensures Total(GroupCounts(Aggregate(bs))) + CountKey(bs, "") == |bs|
  {
    if bs != [] {
      CountsConserved(bs[..|bs| - 1]);
      AddBusinessTotal(Aggregate(bs[..|bs| - 1]), bs[|bs| - 1]);
    }
  }

  // ---------------------------------------------------------------------
  // The spelling tallies (`originalCities`) over the input

  /** `originalCities.get(t) || 0`: the tally of spelling `t`. */
  function Tally(vs: seq<Variant>, t: string): nat {
    match IndexOf(Spellings(vs), t)
    case None => 0
    case Some(i) => vs[i].count
  }

  /** Number of businesses counted into a group whose raw city is exactly `t`. */
  function SpellingCount(bs: seq<Business>, t: string): nat {
    if bs == [] then 0
    else
      var b := bs[|bs| - 1];
      SpellingCount(bs[..|bs| - 1], t) + (if b.city == Some(t) && CityKey(b) != "" then 1 else 0)
  }

  /** The raw cities of the businesses whose key is `k`, in fetch order
      (none for the empty key, which joins no group). */
  function KeySpellings(bs: seq<Business>, k: string): seq<string> {
    if bs == [] then []
    else
      var b := bs[|bs| - 1];
      KeySpellings(bs[..|bs| - 1], k) + (if k != "" && CityKey(b) == k then [b.city.value] else [])
  }

  /** The tally of `t` in the group stored under `k` (0 when there is none). */
  function GroupTally(gs: seq<CityGroup>, k: string, t: string): nat {
    match GroupFor(gs, k)
    case None => 0
    case Some(g) => Tally(g.variants, t)
  }

  /** The spellings of the group stored under `k`, in insertion order. */
  function GroupSpellings(gs: seq<CityGroup>, k: string): seq<string> {
    match GroupFor(gs, k)
    case None => []
    case Some(g) => Spellings(g.variants)
  }

  /** A bump raises the bumped spelling's tally by one and leaves every other tally. */
  lemma BumpVariantTally(vs: seq<Variant>, s: string, t: string)
    ensures Tally(BumpVariant(vs, s), t) == Tally(vs, t) + (if s == t then 1 else 0)
  {
    var r := BumpVariant(vs, s);
    match IndexOf(Spellings(vs), s)
    case None =>
      assert Spellings(r) == Spellings(vs) + [s];
      IndexOfAppend(Spellings(vs), s, t);
    case Some(i) =>
      assert Spellings(r) == Spellings(vs);
  }

  /** A new spelling goes last; a known one keeps its place. */
  lemma BumpVariantSpellings(vs: seq<Variant>, s: string)
    ensures Spellings(BumpVariant(vs, s)) == if s in Spellings(vs) then Spellings(vs) else Spellings(vs) + [s]
  {
    var r := BumpVariant(vs, s);
    match IndexOf(Spellings(vs), s)
    case None =>
      assert Spellings(r) == Spellings(vs) + [s];
    case Some(i) =>
      assert Spellings(r) == Spellings(vs);
  }

  /** What a business does to the group stored under any key: its own
      group (fresh when the key is new) records it; no other group changes. */
  lemma AddBusinessGroup(gs: seq<CityGroup>, b: Business, k: string)
    ensures GroupFor(AddBusiness(gs, b), k) ==
      if k == CityKey(b) && k != "" then
        Some(Record(if GroupFor(gs, k).Some? then GroupFor(gs, k).value else CityGroup(k, [], 0, 0.0),
                    b.city.value, RatingOrZero(b)))
      else GroupFor(gs, k)
  {
    var key := CityKey(b);
    if key != "" {
      var created := Created(gs, key);
      var i := IndexOf(Keys(created), key).value;
      var g := Record(created[i], b.city.value, RatingOrZero(b));
      AddBusinessIsUpdate(gs, b);
      GroupForUpdate(created, i, g, k);
      GroupForCreated(gs, key, k);
      GroupForCreated(gs, key, key);
      if k != key {
        assert IndexOf(Keys(created), k) != Some(i);
      }
    }
  }

  /** The tally of a spelling in the group of key `k` is the number of
      businesses spelled exactly so, when the spelling has key `k`, and 0
      otherwise. */
  lemma {:induction false} AggregateSpellingTally(bs: seq<Business>, k: string, t: string)
    ensures GroupTally(Aggregate(bs), k, t) ==
      if k != "" && NormalizeCityName(Some(t)) == k then SpellingCount(bs, t) else 0
  {
    if bs != [] {
      var prefix := bs[..|bs| - 1];
      var b := bs[|bs| - 1];
      AggregateSpellingTally(prefix, k, t);
      AddBusinessGroup(Aggregate(prefix), b, k);
      assert Aggregate(bs) == AddBusiness(Aggregate(prefix), b);
      if k == CityKey(b) && k != "" {
        var before := GroupFor(Aggregate(prefix), k);
        var g0 := if before.Some? then before.value else CityGroup(k, [], 0, 0.0);
        assert Spellings([]) == [];
        BumpVariantTally(g0.variants, b.city.value, t);
      }
    }
  }

  /** The spellings of the group of key `k` are the raw cities of its
      businesses, each once, in the order first seen. */
  lemma {:induction false} AggregateSpellings(bs: seq<Business>, k: string)
    ensures GroupSpellings(Aggregate(bs), k) == FirstSeen(KeySpellings(bs, k))
  {
    if bs != [] {
      var prefix := bs[..|bs| - 1];
      var b := bs[|bs| - 1];
      AggregateSpellings(prefix, k);
      AddBusinessGroup(Aggregate(prefix), b, k);
      assert Aggregate(bs) == AddBusiness(Aggregate(prefix), b);
      if k == CityKey(b) && k != "" {
        var before := GroupFor(Aggregate(prefix), k);
        var g0 := if before.Some? then before.value else CityGroup(k, [], 0, 0.0);
        assert Spellings([]) == [];
        BumpVariantSpellings(g0.variants, b.city.value);
        var ks := KeySpellings(prefix, k);
        var s := b.city.value;
        assert s != "";
        assert GroupSpellings(Aggregate(prefix), k) == Spellings(g0.variants);
        assert KeySpellings(bs, k) == ks + [s];
        assert (ks + [s])[..|ks|] == ks;
        assert FirstSeen(ks + [s]) == if s in FirstSeen(ks) then FirstSeen(ks) else FirstSeen(ks) + [s];
      } else {
        assert KeySpellings(bs, k) == KeySpellings(prefix, k);
        assert GroupSpellings(Aggregate(bs), k) == GroupSpellings(Aggregate(prefix), k);
      }
    }
  }

  /** Each group lists the raw spellings of its businesses in the order
      first seen, each with the number of businesses spelled exactly so. */
  lemma AggregateVariants(bs: seq<Business>, k: string)
    requires GroupFor(Aggregate(bs), k).Some?
    ensures var g := GroupFor(Aggregate(bs), k).value;
      && Spellings(g.variants) == FirstSeen(KeySpellings(bs, k))
      && (forall i :: 0 <= i < |g.variants| ==> g.variants[i].count == SpellingCount(bs, g.variants[i].spelling))
  {
    var gs := Aggregate(bs);
    var g := GroupFor(gs, k).value;
    AggregateSpellings(bs, k);
    AggregateWellFormed(bs);
    assert g == gs[IndexOf(Keys(gs), k).value];
    assert GroupWellFormed(g) && g.key == k;
    forall i | 0 <= i < |g.variants|
      ensures g.variants[i].count == SpellingCount(bs, g.variants[i].spelling)
    {
      var t := g.variants[i].spelling;
      assert Spellings(g.variants)[i] == t;
      IndexOfDistinct(Spellings(g.variants), i);
      AggregateSpellingTally(bs, k, t);
    }
  }
}
