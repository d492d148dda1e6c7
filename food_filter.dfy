/** The menu page's filtering (app/food/page.tsx): a search over name and
    description, an exact category match unless "All" is selected, and an
    inclusive price range, applied in that order to the fetched foods; and the
    default upper bound of the price slider. */
module FoodFilter {
  import opened Seqs

  datatype FoodItem = FoodItem(
    id: string,
    name: string,
    description: string,
    price: real,
    category: string,
    isAvailable: bool)

  /** The category that imposes no constraint. */
  const AllCategories: string := "All"

  /** The slider's bound when no food costs more. */
  const DefaultPriceCeiling: real := 20.0

  // ---------------------------------------------------------------------
  // Text matching

  /** Lower-casing of one character (ASCII letters only). */
  function LowerChar(c: char): (r: char)
    ensures 'A' <= c <= 'Z' ==> 'a' <= r <= 'z' && r as int - c as int == 'a' as int - 'A' as int
    ensures !('A' <= c <= 'Z') ==> r == c
    ensures !('A' <= r <= 'Z')
  {
    if 'A' <= c <= 'Z' then (c as int + 32) as char else c
  }

  /** `toLowerCase()`, character by character. */
  function Lower(s: string): (r: string)
    ensures |r| == |s|
    ensures forall i :: 0 <= i < |s| ==> r[i] == LowerChar(s[i])
    ensures forall i :: 0 <= i < |r| ==> !('A' <= r[i] <= 'Z')
  {
    Map(s, LowerChar)
  }

  /** `String.prototype.includes`, scanning start positions left to right. */
  predicate Includes(s: string, query: string)
    ensures query == [] ==> Includes(s, query)
    ensures Includes(s, query) ==> |query| <= |s|
  {
    if query <= s then true
    else if s == [] then false
    else Includes(s[1..], query)
  }

  /** `query` occurs in `s` starting at position `i`. */
  predicate OccursAt(s: string, query: string, i: nat)
  {
    i + |query| <= |s| && s[i..i + |query|] == query
  }

  lemma {:induction false} OccursAtStart(s: string, query: string)
    ensures OccursAt(s, query, 0) <==> query <= s
  {
    if |query| <= |s| {
      assert s[0..|query|] == s[..|query|];
    }
  }

  /** An occurrence in the tail is an occurrence one position further on. */
  lemma {:induction false} OccursInTail(s: string, query: string, i: nat)
    requires |s| > 0
    ensures OccursAt(s[1..], query, i) <==> OccursAt(s, query, i + 1)
  {
    if i + 1 + |query| <= |s| {
      assert s[i + 1..i + 1 + |query|] == s[1..][i..i + |query|];
    }
  }

  /** `Includes` holds exactly when the query occurs at some position. */
  lemma {:induction false} IncludesIffOccurs(s: string, query: string)
    ensures Includes(s, query) <==> exists i: nat :: OccursAt(s, query, i)
  {
    OccursAtStart(s, query);
    if query <= s {
      assert OccursAt(s, query, 0);
    } else if s == [] {
      forall i: nat ensures !OccursAt(s, query, i) { }
    } else {
      IncludesIffOccurs(s[1..], query);
      if Includes(s, query) {
        var i: nat :| OccursAt(s[1..], query, i);
        OccursInTail(s, query, i);
      }
      if exists i: nat :: OccursAt(s, query, i) {
        var i: nat :| OccursAt(s, query, i);
        assert i != 0;
        OccursInTail(s, query, i - 1);
      }
    }
  }

  // ---------------------------------------------------------------------
  // The three criteria

  /** The lower-cased name or description contains the lower-cased query. */
  predicate MatchesSearch(food: FoodItem, query: string)
    ensures query == "" ==> MatchesSearch(food, query)
    ensures MatchesSearch(food, query)
        <==> (exists i: nat :: OccursAt(Lower(food.name), Lower(query), i))
             || (exists i: nat :: OccursAt(Lower(food.description), Lower(query), i))
  {
    IncludesIffOccurs(Lower(food.name), Lower(query));
    IncludesIffOccurs(Lower(food.description), Lower(query));
    Includes(Lower(food.name), Lower(query)) || Includes(Lower(food.description), Lower(query))
  }

  predicate InPriceRange(food: FoodItem, low: real, high: real)
  {
    food.price >= low && food.price <= high
  }

  function BySearch(query: string): FoodItem -> bool
  {
    (food: FoodItem) => MatchesSearch(food, query)
  }

  function ByCategory(category: string): FoodItem -> bool
  {
    (food: FoodItem) => food.category == category
  }

  function ByPrice(low: real, high: real): FoodItem -> bool
  {
    (food: FoodItem) => InPriceRange(food, low, high)
  }

  /** The filter effect: each step replaces the working list by its
      filtered copy. An empty query and the category "All" skip their step. */
  function ApplyFilters(foods: seq<FoodItem>, query: string, category: string, low: real, high: real): (r: seq<FoodItem>)
    ensures forall i :: 0 <= i < |r| ==> low <= r[i].price <= high
    ensures category != AllCategories ==> forall i :: 0 <= i < |r| ==> r[i].category == category
  {
    var afterSearch := if query != "" then Filter(foods, BySearch(query)) else foods;
    var afterCategory := if category != AllCategories then Filter(afterSearch, ByCategory(category)) else afterSearch;
    Filter(afterCategory, ByPrice(low, high))
  }

  /** A food is shown when it passes every step that is applied. */
  predicate Selected(food: FoodItem, query: string, category: string, low: real, high: real)
  {
    (query == "" || MatchesSearch(food, query))
    && (category == AllCategories || food.category == category)
    && InPriceRange(food, low, high)
  }

  function BySelection(query: string, category: string, low: real, high: real): FoodItem -> bool
  {
    (food: FoodItem) => Selected(food, query, category, low, high)
  }

  // ---------------------------------------------------------------------
  // Properties of the filter

  /** The three steps amount to one filter by `Selected`. */
  lemma {:induction false} ApplyFiltersIsSelection(foods: seq<FoodItem>, query: string, category: string, low: real, high: real)
    ensures ApplyFilters(foods, query, category, low, high) == Filter(foods, BySelection(query, category, low, high))
  {
    var sel := BySelection(query, category, low, high);
    var price := ByPrice(low, high);
    if query != "" {
      if category != AllCategories {
        var both := (food: FoodItem) => MatchesSearch(food, query) && food.category == category;
        FilterFilter(foods, BySearch(query), ByCategory(category), both);
        FilterFilter(foods, both, price, sel);
      } else {
        FilterFilter(foods, BySearch(query), price, sel);
      }
    } else {
      if category != AllCategories {
        FilterFilter(foods, ByCategory(category), price, sel);
      } else {
        FilterExtensional(foods, price, sel);
      }
    }
  }

  /** A food is in the result exactly when it is in the input and passes. */
  lemma {:induction false} ApplyFiltersMembership(foods: seq<FoodItem>, query: string, category: string, low: real, high: real, food: FoodItem)
    ensures food in ApplyFilters(foods, query, category, low, high)
        <==> food in foods && Selected(food, query, category, low, high)
  {
    ApplyFiltersIsSelection(foods, query, category, low, high);
    var r := ApplyFilters(foods, query, category, low, high);
    if food in foods && Selected(food, query, category, low, high) {
      var i :| 0 <= i < |foods| && foods[i] == food;
      assert BySelection(query, category, low, high)(foods[i]);
    }
    if food in r {
      var i :| 0 <= i < |r| && r[i] == food;
    }
  }

  /** The result lists foods in their original order. */
  lemma {:induction false} ApplyFiltersKeepsOrder(foods: seq<FoodItem>, query: string, category: string, low: real, high: real)
    ensures IsSubsequence(ApplyFilters(foods, query, category, low, high), foods)
  {
    ApplyFiltersIsSelection(foods, query, category, low, high);
    FilterIsSubsequence(foods, BySelection(query, category, low, high));
  }

  /** Filtering the result again with the same settings changes nothing. */
  lemma {:induction false} ApplyFiltersIdempotent(foods: seq<FoodItem>, query: string, category: string, low: real, high: real)
    ensures ApplyFilters(ApplyFilters(foods, query, category, low, high), query, category, low, high)
         == ApplyFilters(foods, query, category, low, high)
  {
    var r := ApplyFilters(foods, query, category, low, high);
    ApplyFiltersIsSelection(foods, query, category, low, high);
    ApplyFiltersIsSelection(r, query, category, low, high);
    FilterIdempotent(foods, BySelection(query, category, low, high));
  }

  /** A non-empty query keeps exactly the foods whose lower-cased name or
      description has the lower-cased query at some position. */
  lemma {:induction false} SearchKeepsOccurrences(foods: seq<FoodItem>, query: string, food: FoodItem)
    requires query != ""
    ensures food in ApplyFilters(foods, query, AllCategories, food.price, food.price)
        <==> food in foods
             && ((exists i: nat :: OccursAt(Lower(food.name), Lower(query), i))
                 || (exists i: nat :: OccursAt(Lower(food.description), Lower(query), i)))
  {
    ApplyFiltersMembership(foods, query, AllCategories, food.price, food.price, food);
  }

  /** A non-empty query with "All" and a range covering every price: the
      shown list is the search filter's result. */
  lemma {:induction false} SearchAloneFilters(foods: seq<FoodItem>, query: string, low: real, high: real)
    requires query != ""
    requires forall i :: 0 <= i < |foods| ==> low <= foods[i].price <= high
    ensures ApplyFilters(foods, query, AllCategories, low, high) == Filter(foods, BySearch(query))
  {
    FilterAll(Filter(foods, BySearch(query)), ByPrice(low, high));
  }

  /** An empty query, the category "All" and a range covering every price:
      nothing is filtered out. */
  lemma {:induction false} NoCriteriaKeepsAll(foods: seq<FoodItem>, low: real, high: real)
    requires forall i :: 0 <= i < |foods| ==> low <= foods[i].price <= high
    ensures ApplyFilters(foods, "", AllCategories, low, high) == foods
  {
    FilterAll(foods, ByPrice(low, high));
  }

  // ---------------------------------------------------------------------
  // The slider's default range

  function PriceOf(food: FoodItem): real
  {
    food.price
  }

  /** `Math.max(...values, floor)`. */
  function MaxOf(values: seq<real>, floor: real): (m: real)
    ensures m >= floor
    ensures forall i :: 0 <= i < |values| ==> values[i] <= m
    ensures m == floor || exists i :: 0 <= i < |values| && values[i] == m
  {
    if values == [] then floor
    else
      var rest := MaxOf(values[1..], floor);
      if values[0] > rest then values[0] else rest
  }

  /** Upper end of the slider after loading: the dearest price, but at least 20. */
  function InitialMaxPrice(foods: seq<FoodItem>): (m: real)
    ensures m >= DefaultPriceCeiling
    ensures forall i :: 0 <= i < |foods| ==> foods[i].price <= m
    ensures m == DefaultPriceCeiling || exists i :: 0 <= i < |foods| && foods[i].price == m
  {
    var prices := Map(foods, PriceOf);
    MaxOf(prices, DefaultPriceCeiling)
  }

  /** Right after loading (empty query, "All", range [0, max]) every food
      with a non-negative price is shown. */
  lemma {:induction false} InitialViewShowsAll(foods: seq<FoodItem>)
    requires forall i :: 0 <= i < |foods| ==> foods[i].price >= 0.0
    ensures ApplyFilters(foods, "", AllCategories, 0.0, InitialMaxPrice(foods)) == foods
  {
    NoCriteriaKeepsAll(foods, 0.0, InitialMaxPrice(foods));
  }
}
