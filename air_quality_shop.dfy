/** The product shop (Nasa-app/src/app/dashboard/components/AirQualityShop.tsx): the
    recommendation tier read from a product's use-case text, the category list, the product
    filter, the ranking by tier and the advice line for the current AQI. */
module AirQualityShop {
  import opened Wrappers
  import opened Seqs
  import opened Text
  import opened StableSort

  /** A catalogue entry; the image and shop links are left out. */
  datatype Product = Product(
    id: string,
    category: string,
    title: string,
    description: string,
    useCase: string)

  /** The fixed catalogue, in its listed order. */
  const ShopData: seq<Product> := [
    Product("purifier-01", "Air Purifier", "Coway AP-1512HH Mighty Air Purifier",
      "HEPA air purifier with true HEPA filter, suitable for rooms up to ~361 ft².",
      "Great for AQI > 80; helps reduce PM2.5 & allergens indoors."),
    Product("purifier-02", "Air Purifier", "Levoit Core 300 Smart True HEPA Air Purifier",
      "Compact purifier with smart app control, ideal for bedrooms/offices up to 219 ft².",
      "Use when AQI > 100 or during smoke/particulate events."),
    Product("mask-01", "Mask", "3M Aura 9205+ N95 Respirator",
      "N95 respirator with comfortable design and exhalation valve, filters airborne particles.",
      "Recommended when AQI is 'Unhealthy' (AQI >150) or during high particulate events."),
    Product("mask-02", "Mask", "Honeywell NIOSH N95 Disposable Respirator",
      "Lightweight N95 respirator for everyday protection.",
      "Good for moderate to unhealthy air quality (AQI 100–200)."),
    Product("monitor-01", "Monitor", "PurpleAir PA-II Outdoor Air Quality Sensor",
      "Personal outdoor air quality monitor measuring PM2.5, provides local data.",
      "Useful for monitoring local pollutant levels when AQI data is coarse."),
    Product("monitor-02", "Monitor", "Temtop M10 Air Quality Monitor",
      "Portable air quality monitor (PM2.5, TVOC, CO₂) for indoor use.",
      "Helpful if you want to track indoor air especially during poor outdoor air days.")
  ]

  datatype Tier = High | Medium | Low

  /** The position of a tier in the ranking: `{ high: 0, medium: 1, low: 2 }`. */
  function Rank(t: Tier): (r: int)
    ensures 0 <= r < 3
  {
    match t
    case High => 0
    case Medium => 1
    case Low => 2
  }

  /** The lower-cased use case names the threshold, with or without a space after `>`. */
  predicate Mentions(useCase: string, threshold: string) {
    Contains(Lower(useCase), "aqi > " + threshold) || Contains(Lower(useCase), "aqi >" + threshold)
  }

  /** `getRecommendationLevel`: the thresholds are tried 150, then 100, then 80; text that
      names none of them is always "medium". */
  function RecommendationLevel(p: Product, aqi: int): (r: Tier)
    ensures Mentions(p.useCase, "150") ==> (r == High <==> aqi > 150) && (r == Low <==> aqi <= 150)
    ensures !Mentions(p.useCase, "150") && Mentions(p.useCase, "100") ==>
      (r == High <==> aqi > 100) && (r == Medium <==> 80 < aqi <= 100) && (r == Low <==> aqi <= 80)
    ensures !Mentions(p.useCase, "150") && !Mentions(p.useCase, "100") && Mentions(p.useCase, "80") ==>
      (r == High <==> aqi > 80) && (r == Medium <==> 50 < aqi <= 80) && (r == Low <==> aqi <= 50)
    ensures !Mentions(p.useCase, "150") && !Mentions(p.useCase, "100") && !Mentions(p.useCase, "80") ==>
      r == Medium
  {
    var useCase := Lower(p.useCase);
    assert "aqi > " + "150" == "aqi > 150" && "aqi >" + "150" == "aqi >150";
    assert "aqi > " + "100" == "aqi > 100" && "aqi >" + "100" == "aqi >100";
    assert "aqi > " + "80" == "aqi > 80" && "aqi >" + "80" == "aqi >80";
    if Contains(useCase, "aqi > 150") || Contains(useCase, "aqi >150") then
      if aqi > 150 then High else Low
    else if Contains(useCase, "aqi > 100") || Contains(useCase, "aqi >100") then
      if aqi > 100 then High else if aqi > 80 then Medium else Low
    else if Contains(useCase, "aqi > 80") || Contains(useCase, "aqi >80") then
      if aqi > 80 then High else if aqi > 50 then Medium else Low
    else Medium
  }

  /** A worse AQI never lowers a product's tier. */
  lemma RecommendationMonotone(p: Product, a: int, b: int)
    requires a <= b
    ensures Rank(RecommendationLevel(p, b)) <= Rank(RecommendationLevel(p, a))
  {
  }

  datatype Badge = Badge(text: string, className: string)

  /** `getRecommendationBadge`. */
  function RecommendationBadge(t: Tier): (r: Badge)
    ensures r.text != "" && r.className != ""
    ensures t == High ==> r.text == "Highly Recommended"
    ensures t == Medium ==> r.text == "Recommended"
    ensures t == Low ==> r.text == "Optional"
  {
    match t
    case High => Badge("Highly Recommended", "bg-red-500/20 text-red-400 border-red-500/30")
    case Medium => Badge("Recommended", "bg-yellow-500/20 text-yellow-400 border-yellow-500/30")
    case Low => Badge("Optional", "bg-gray-500/20 text-gray-400 border-gray-500/30")
  }

  /** Different tiers carry different badges. */
  lemma BadgesDistinct(s: Tier, t: Tier)
    ensures RecommendationBadge(s) == RecommendationBadge(t) <==> s == t
  {
  }

  // ---------------------------------------------------------------- categories

  /** `Array.from(new Set(s))`: each value at its first appearance, later repeats dropped. */
  function FirstOccurrences(s: seq<string>): seq<string> {
    if s == [] then []
    else
      var init := s[..|s| - 1];
      var last := s[|s| - 1];
      if last in init then FirstOccurrences(init) else FirstOccurrences(init) + [last]
  }

  /** The de-duplicated list holds the same values as its input, each exactly once. */
  lemma {:induction false} FirstOccurrencesSpec(s: seq<string>)
    ensures forall x :: x in FirstOccurrences(s) <==> x in s
    ensures forall i, j :: 0 <= i < j < |FirstOccurrences(s)| ==> FirstOccurrences(s)[i] != FirstOccurrences(s)[j]
  {
    if s != [] {
      var init := s[..|s| - 1];
      var last := s[|s| - 1];
      assert s == init + [last];
      FirstOccurrencesSpec(init);
    }
  }

  /** Values of `r` are in the order of their first appearance in `s`: whatever precedes
      a value in `r` occurs in `s` before any occurrence of that value. */
  ghost predicate InFirstAppearanceOrder(r: seq<string>, s: seq<string>) {
    forall i, j, k :: 0 <= i < j < |r| && 0 <= k < |s| && s[k] == r[j] ==>
      exists m :: 0 <= m < k && s[m] == r[i]
  }

  /** `Set` iteration follows insertion order, so the de-duplicated values keep the order
      in which they first appear. */
  lemma {:induction false} FirstOccurrencesOrder(s: seq<string>)
    ensures InFirstAppearanceOrder(FirstOccurrences(s), s)
  {
    if s != [] {
      var init := s[..|s| - 1];
      var last := s[|s| - 1];
      var r := FirstOccurrences(s);
      var ri := FirstOccurrences(init);
      FirstOccurrencesOrder(init);
      FirstOccurrencesSpec(init);
      assert r == if last in init then ri else ri + [last];
      forall i, j, k | 0 <= i < j < |r| && 0 <= k < |s| && s[k] == r[j]
        ensures exists m :: 0 <= m < k && s[m] == r[i]
      {
        assert r[i] == ri[i];
        if j < |ri| {
          assert r[j] == ri[j];
          var k0 := k;
          if k == |init| {
            assert ri[j] in init;
            k0 :| 0 <= k0 < |init| && init[k0] == ri[j];
          } else {
            assert init[k0] == s[k];
          }
          var m :| 0 <= m < k0 && init[m] == ri[i];
          assert s[m] == init[m];
        } else {
          assert ri[i] in init;
          var m :| 0 <= m < |init| && init[m] == ri[i];
          assert s[m] == init[m];
        }
      }
    }
  }

  function CategoriesOf(products: seq<Product>): seq<string> {
    seq(|products|, i requires 0 <= i < |products| => products[i].category)
  }

  /** The category buttons: `'All'` followed by each catalogue category once. */
  function Categories(products: seq<Product>): (r: seq<string>)
    ensures |r| >= 1 && r[0] == "All"
    ensures forall c :: c in r[1..] <==> exists i :: 0 <= i < |products| && products[i].category == c
    ensures forall i, j :: 1 <= i < j < |r| ==> r[i] != r[j]
    ensures InFirstAppearanceOrder(r[1..], CategoriesOf(products))
  {
    var cats := CategoriesOf(products);
    FirstOccurrencesSpec(cats);
    FirstOccurrencesOrder(cats);
    assert (["All"] + FirstOccurrences(cats))[1..] == FirstOccurrences(cats);
    assert forall c :: c in cats <==> exists i :: 0 <= i < |products| && products[i].category == c by {
      forall c ensures c in cats <==> exists i :: 0 <= i < |products| && products[i].category == c {
        if c in cats {
          var i :| 0 <= i < |cats| && cats[i] == c;
          assert products[i].category == c;
        }
        if exists i :: 0 <= i < |products| && products[i].category == c {
          var i :| 0 <= i < |products| && products[i].category == c;
          assert cats[i] == c;
        }
      }
    }
    ["All"] + FirstOccurrences(cats)
  }

  lemma FirstOccurrencesSnoc(init: seq<string>, last: string)
    ensures FirstOccurrences(init + [last])
         == if last in init then FirstOccurrences(init) else FirstOccurrences(init) + [last]
  {
    assert (init + [last])[..|init + [last]| - 1] == init;
  }

  lemma ShopCategoryColumn()
    ensures CategoriesOf(ShopData) == ["Air Purifier", "Air Purifier", "Mask", "Mask", "Monitor", "Monitor"]
  {
  }

  /** De-duplicating a column of three distinct values, each appearing twice in a row,
      one element at a time. */
  lemma DedupPairs(a: string, m: string, o: string)
    requires a != m && a != o && m != o
    ensures FirstOccurrences([a, a, m, m, o, o]) == [a, m, o]
  {
    assert FirstOccurrences([a]) == [a] by {
      FirstOccurrencesSnoc([], a);
      assert [] + [a] == [a];
    }
    assert FirstOccurrences([a, a]) == [a] by {
      FirstOccurrencesSnoc([a], a);
      assert [a] + [a] == [a, a];
    }
    assert FirstOccurrences([a, a, m]) == [a, m] by {
      FirstOccurrencesSnoc([a, a], m);
      assert [a, a] + [m] == [a, a, m];
    }
    assert FirstOccurrences([a, a, m, m]) == [a, m] by {
      FirstOccurrencesSnoc([a, a, m], m);
      assert [a, a, m] + [m] == [a, a, m, m];
    }
    assert FirstOccurrences([a, a, m, m, o]) == [a, m, o] by {
      FirstOccurrencesSnoc([a, a, m, m], o);
      assert [a, a, m, m] + [o] == [a, a, m, m, o];
    }
    FirstOccurrencesSnoc([a, a, m, m, o], o);
    assert [a, a, m, m, o] + [o] == [a, a, m, m, o, o];
  }

  /** For the catalogue: All, Air Purifier, Mask, Monitor. */
  lemma ShopCategories()
    ensures Categories(ShopData) == ["All", "Air Purifier", "Mask", "Monitor"]
  {
    ShopCategoryColumn();
    DedupPairs("Air Purifier", "Mask", "Monitor");
  }

  // ---------------------------------------------------------------- product filter

  /** The category button matches and the lower-cased query occurs in the lower-cased
      title or description. */
  predicate MatchesProduct(p: Product, category: string, query: string) {
    (category == "All" || p.category == category) &&
    (Contains(Lower(p.title), Lower(query)) || Contains(Lower(p.description), Lower(query)))
  }

  function MatchesProductOf(category: string, query: string): Product -> bool {
    (p: Product) => MatchesProduct(p, category, query)
  }

  function FilterProducts(products: seq<Product>, category: string, query: string): (r: seq<Product>)
    ensures |r| <= |products|
  {
    Filter(products, MatchesProductOf(category, query))
  }

  /** The filter keeps exactly the matching products, in catalogue order; `'All'` with an
      empty query keeps the whole catalogue. */
  lemma FilterProductsKeeps(products: seq<Product>, category: string, query: string, p: Product)
    ensures p in FilterProducts(products, category, query) <==> p in products && MatchesProduct(p, category, query)
    ensures Subsequence(FilterProducts(products, category, query), products)
    ensures category == "All" && query == "" ==> FilterProducts(products, category, query) == products
  {
    FilterIn(products, MatchesProductOf(category, query), p);
    FilterSubsequence(products, MatchesProductOf(category, query));
    if category == "All" && query == "" {
      forall i | 0 <= i < |products| ensures MatchesProduct(products[i], category, query) {
        ContainsEmpty(Lower(products[i].title));
      }
      FilterAll(products, MatchesProductOf(category, query));
    }
  }

  // ---------------------------------------------------------------- ranking

  function RankAt(aqi: int): Product -> int {
    p => Rank(RecommendationLevel(p, aqi))
  }

  function HasTier(aqi: int, t: Tier): Product -> bool {
    p => RecommendationLevel(p, aqi) == t
  }

  /** `filteredProducts.sort((a, b) => levelOrder[levelA] - levelOrder[levelB])`. */
  function RankProducts(products: seq<Product>, aqi: int): seq<Product> {
    SortBy(products, KeyOrder(RankAt(aqi)))
  }

  /** The ranking lists the highly recommended products, then the recommended ones, then
      the optional ones, each group in catalogue order: a stable sort by tier. */
  lemma RankProductsGroups(products: seq<Product>, aqi: int)
    ensures RankProducts(products, aqi)
      == Filter(products, HasTier(aqi, High)) + Filter(products, HasTier(aqi, Medium)) + Filter(products, HasTier(aqi, Low))
  {
    var key := RankAt(aqi);
    SortByKeyBlocks(products, key, 3);
    assert Blocks(products, key, 3, 3) == [];
    FilterExt(products, KeyIs(key, 0), HasTier(aqi, High));
    FilterExt(products, KeyIs(key, 1), HasTier(aqi, Medium));
    FilterExt(products, KeyIs(key, 2), HasTier(aqi, Low));
  }

  /** The ranking is a permutation of its input, in non-decreasing rank. */
  lemma RankProductsSorted(products: seq<Product>, aqi: int)
    ensures multiset(RankProducts(products, aqi)) == multiset(products)
    ensures forall i, j :: 0 <= i < j < |RankProducts(products, aqi)| ==>
      Rank(RecommendationLevel(RankProducts(products, aqi)[i], aqi)) <= Rank(RecommendationLevel(RankProducts(products, aqi)[j], aqi))
  {
    var cmp := KeyOrder(RankAt(aqi));
    assert Consistent(cmp);
    SortBySorted(products, cmp);
    var r := RankProducts(products, aqi);
    forall i, j | 0 <= i < j < |r|
      ensures Rank(RecommendationLevel(r[i], aqi)) <= Rank(RecommendationLevel(r[j], aqi))
    {
      assert cmp(r[i], r[j]) <= 0;
    }
  }

  // ---------------------------------------------------------------- advice line

  const Advice: seq<string> := [
    "✅ Air quality is good. Monitors can help track changes.",
    "⚠️ Moderate air quality. Consider air purifiers for sensitive individuals.",
    "\U{1F7E0} Unhealthy for sensitive groups. Air purifiers and masks recommended.",
    "\U{1F534} Unhealthy air quality. Use air purifiers indoors and wear masks outdoors."
  ]

  /** The advice paragraphs rendered for the current AQI: each of the four conditions adds
      its paragraph when it holds. */
  function AdviceShown(aqi: int): (r: seq<string>)
    ensures |r| == 1
    ensures aqi <= 50 ==> r == [Advice[0]]
    ensures 50 < aqi <= 100 ==> r == [Advice[1]]
    ensures 100 < aqi <= 150 ==> r == [Advice[2]]
    ensures 150 < aqi ==> r == [Advice[3]]
  {
    (if aqi <= 50 then [Advice[0]] else []) +
    (if aqi > 50 && aqi <= 100 then [Advice[1]] else []) +
    (if aqi > 100 && aqi <= 150 then [Advice[2]] else []) +
    (if aqi > 150 then [Advice[3]] else [])
  }

  // ---------------------------------------------------------------- component

  /** The shop component: the catalogue, the AQI it was given and the two filter inputs. */
  class Shop {
    const shopData: array<Product>
    const currentAqi: int
    var selectedCategory: string
    var searchQuery: string

    /** `currentAQI` defaults to 50 when the prop is absent. */
    constructor(currentAqiProp: Option<int>)
      ensures shopData[..] == ShopData && fresh(shopData)
      ensures currentAqi == currentAqiProp.GetOr(50)
      ensures selectedCategory == "All" && searchQuery == ""
    {
      shopData := new Product[|ShopData|](i requires 0 <= i < |ShopData| => ShopData[i]);
      currentAqi := currentAqiProp.GetOr(50);
      selectedCategory := "All";
      searchQuery := "";
    }

    method SelectCategory(category: string)
      modifies this`selectedCategory
      ensures selectedCategory == category
    {
      selectedCategory := category;
    }

    method SetSearchQuery(query: string)
      modifies this`searchQuery
      ensures searchQuery == query
    {
      searchQuery := query;
    }

    /** `sortedProducts`: the matching products, ranked by tier. The sort works on the
        filter's fresh result; with no `modifies` clause, the catalogue array is untouched. */
    method SortedProducts() returns (r: seq<Product>)
      ensures r == RankProducts(FilterProducts(shopData[..], selectedCategory, searchQuery), currentAqi)
      ensures forall p :: p in r <==> p in shopData[..] && MatchesProduct(p, selectedCategory, searchQuery)
    {
      var filteredProducts := FilterProducts(shopData[..], selectedCategory, searchQuery);
      r := SortBy(filteredProducts, KeyOrder(RankAt(currentAqi)));
      forall p ensures p in r <==> p in shopData[..] && MatchesProduct(p, selectedCategory, searchQuery) {
        FilterProductsKeeps(shopData[..], selectedCategory, searchQuery, p);
        assert p in r <==> p in multiset(filteredProducts);
      }
    }
  }
}
