/**
 * The menu page (frontend/src/components/Menu/Menu.tsx): the dish filter
 * behind the filter buttons, and the grouping of the filtered dishes into
 * one section per category.
 */
module Menu {
  import opened Wrappers
  import opened MenuTypes
  import opened Sequences

  const Popular := "popul\U{00E4}rt"

  /** The `switch` inside the filter callback (lines 51-62); an unknown filter keeps every dish. */
  predicate KeepsDish(filter: string, dish: MenuItem)
  {
    if filter == Popular then Popular in dish.tags
    else if filter == "vegetariskt" then
      dish.category == "Vegetariskt" || dish.category == "Veganskt" || "vegetariskt" in dish.tags
    else if filter == "glutenfritt" then "glutenfritt" in dish.tags || "glutenfri" in dish.allergens
    else if filter == "kryddigt" then "kryddigt" in dish.tags || "mustigt" in dish.tags
    else true
  }

  /** The filter callback for one filter value. */
  function Keep(filter: string): MenuItem -> bool
  {
    (d: MenuItem) => KeepsDish(filter, d)
  }

  /** `getFilteredDishes` (lines 43-64): nothing before the data arrives, everything for 'all'. */
  function FilteredDishes(menuData: Option<MenuData>, filter: string): seq<MenuItem>
  {
    match menuData
    case None => []
    case Some(data) =>
      if filter == "all" then data.dishes else Filter(data.dishes, Keep(filter))
  }

  /** Without data the list is empty; with data it is always an order-preserving selection of the dishes. */
  lemma FilteredIsSubsequence(menuData: Option<MenuData>, filter: string)
    ensures menuData.None? ==> FilteredDishes(menuData, filter) == []
    ensures menuData.Some? ==> IsSubsequence(FilteredDishes(menuData, filter), menuData.value.dishes)
    ensures menuData.Some? && filter == "all" ==> FilteredDishes(menuData, filter) == menuData.value.dishes
  {
    if menuData.Some? {
      if filter == "all" {
        SubsequenceReflexive(menuData.value.dishes);
      } else {
        FilterIsSubsequence(menuData.value.dishes, Keep(filter));
      }
    }
  }

  /** What each named filter keeps. */
  lemma NamedFilters(data: MenuData, d: MenuItem)
    ensures d in FilteredDishes(Some(data), "vegetariskt") <==>
      d in data.dishes && (d.category == "Vegetariskt" || d.category == "Veganskt" || "vegetariskt" in d.tags)
    ensures d in FilteredDishes(Some(data), "glutenfritt") <==>
      d in data.dishes && ("glutenfritt" in d.tags || "glutenfri" in d.allergens)
    ensures d in FilteredDishes(Some(data), "kryddigt") <==>
      d in data.dishes && ("kryddigt" in d.tags || "mustigt" in d.tags)
    ensures d in FilteredDishes(Some(data), Popular) <==> d in data.dishes && Popular in d.tags
  {
  }

  /** A filter value the switch does not name keeps every dish, in order. */
  lemma {:induction false} UnknownFilterKeepsAll(data: MenuData, filter: string)
    requires filter !in {"all", Popular, "vegetariskt", "glutenfritt", "kryddigt"}
    ensures FilteredDishes(Some(data), filter) == data.dishes
  {
    FilterKeepsAll(data.dishes, Keep(filter));
  }

  /** The gluten-free filter finds SE-008 by its tag and SE-009 by its allergen entry. */
  lemma GlutenFreeFixtures()
    ensures FilteredDishes(Some(MenuData("AI Restaurang", "SEK", "2025-09-11", [Kottbullar, LaxIUgn, Svampstroganoff])), "glutenfritt")
      == [LaxIUgn, Svampstroganoff]
  {
    var keep := Keep("glutenfritt");
    assert !KeepsDish("glutenfritt", Kottbullar);
    assert KeepsDish("glutenfritt", LaxIUgn);
    assert KeepsDish("glutenfritt", Svampstroganoff);
    assert [Kottbullar] == [] + [Kottbullar];
    FilterSnoc([], Kottbullar, keep);
    assert [Kottbullar, LaxIUgn] == [Kottbullar] + [LaxIUgn];
    FilterSnoc([Kottbullar], LaxIUgn, keep);
    assert [Kottbullar, LaxIUgn, Svampstroganoff] == [Kottbullar, LaxIUgn] + [Svampstroganoff];
    FilterSnoc([Kottbullar, LaxIUgn], Svampstroganoff, keep);
  }

  /**
   * The grouping reduce (lines 88-94): each dish is pushed onto the array of
   * its category, the array created on first sight. `categories` is the key
   * order `Object.entries` then renders.
   */
  method GroupByCategory(filtered: seq<MenuItem>) returns (categories: seq<string>, byCategory: map<string, seq<MenuItem>>)
    ensures categories == FirstSeenKeys(filtered, Category)
    ensures byCategory.Keys == set c | c in categories
    ensures forall c | c in byCategory :: byCategory[c] == Members(filtered, Category, c)
  {
    categories, byCategory := [], map[];
    for i := 0 to |filtered|
      invariant GroupedAs(filtered[..i], Category, categories, byCategory)
    {
      var dish := filtered[i];
      var k := Category(dish);
      PrefixSnoc(filtered, i);
      GroupedAsSnoc(filtered[..i], Category, categories, byCategory, dish);
      var group := [];
      if k in byCategory {
        group := byCategory[k];
      } else {
        categories := categories + [k];
      }
      byCategory := byCategory[k := group + [dish]];
    }
    assert filtered[..|filtered|] == filtered;
  }

  /** Each filtered dish sits in the group of its own category and in no other, and no dish is lost or repeated. */
  lemma {:induction false} GroupingPlacesEachDishOnce(filtered: seq<MenuItem>, d: MenuItem, c: string)
    requires d in filtered
    ensures d in Members(filtered, Category, d.category)
    ensures c != d.category ==> d !in Members(filtered, Category, c)
    ensures GroupSizes(filtered, Category, FirstSeenKeys(filtered, Category)) == |filtered|
  {
    GroupingPartitions(filtered, Category);
  }
}
