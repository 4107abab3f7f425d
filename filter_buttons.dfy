/**
 * The row of filter buttons above the menu
 * (frontend/src/components/FilterButtons/FilterButtons.tsx): five options,
 * the active one highlighted, a click reporting the option's value.
 */
module FilterButtons {
  import opened Wrappers
  import opened Text
  import Menu
  import opened MenuTypes

  datatype FilterOption = FilterOption(caption: string, value: string)

  /**
   * The Popular button's value as the file spells it: "populärt" read back
   * in the wrong encoding, so 'ä' became the two characters U+221A U+00A7.
   */
  const PopularAsWritten := "popul\U{221A}\U{00A7}rt"

  /** `filterOptions` (lines 22-48), icons left out. */
  const FilterOptions: seq<FilterOption> := [
    FilterOption("All", "all"),
    FilterOption("Popular", PopularAsWritten),
    FilterOption("Vegetarian", "vegetariskt"),
    FilterOption("Spicy", "kryddigt"),
    FilterOption("Gluten-Free", "glutenfritt")
  ]

  /** `isActive` (line 53): the selected filter, lower-cased, equals the option's value. */
  predicate IsActive(selectedFilter: string, option: FilterOption)
  {
    Lower(selectedFilter) == option.value
  }

  /** The filter a click on `option` hands to `onFilterChange` (line 58). */
  function OnClick(option: FilterOption): (filter: string)
    ensures IsActive(filter, option) <==> Lower(option.value) == option.value
  {
    option.value
  }

  /** No option's value is a lower-case variant of another's. */
  lemma OptionValuesDistinct()
    ensures |FilterOptions| == 5
    ensures forall i, j | 0 <= i < j < |FilterOptions| :: FilterOptions[i].value != FilterOptions[j].value
    ensures forall i | 0 <= i < |FilterOptions| :: Lower(FilterOptions[i].value) == FilterOptions[i].value
  {
    forall i | 0 <= i < |FilterOptions|
      ensures Lower(FilterOptions[i].value) == FilterOptions[i].value
    {
      LowerOfLowercase(FilterOptions[i].value);
    }
  }

  /** At most one button is highlighted, whatever the selected filter. */
  lemma {:induction false} AtMostOneActive(selectedFilter: string, i: nat, j: nat)
    requires i < |FilterOptions| && j < |FilterOptions|
    requires IsActive(selectedFilter, FilterOptions[i]) && IsActive(selectedFilter, FilterOptions[j])
    ensures i == j
  {
    OptionValuesDistinct();
  }

  /** Clicking a button highlights exactly that button. */
  lemma {:induction false} ClickHighlightsThatButton(i: nat, j: nat)
    requires i < |FilterOptions| && j < |FilterOptions|
    ensures IsActive(OnClick(FilterOptions[i]), FilterOptions[j]) <==> i == j
  {
    OptionValuesDistinct();
  }

  /**
   * As written, the Popular button reaches the menu's `default` case: every
   * dish stays, popular or not, while the button shows as active.
   */
  lemma {:induction false} PopularFallsThrough(data: MenuData)
    ensures IsActive(OnClick(FilterOptions[1]), FilterOptions[1])
    ensures Menu.FilteredDishes(Some(data), OnClick(FilterOptions[1])) == data.dishes
  {
    assert PopularAsWritten[5] != Menu.Popular[5];
    Menu.UnknownFilterKeepsAll(data, PopularAsWritten);
    OptionValuesDistinct();
  }

  /** The options with the Popular value spelled as the menu's `case 'populärt'` expects. */
  const CorrectedFilterOptions: seq<FilterOption> := FilterOptions[1 := FilterOption("Popular", Menu.Popular)]

  /** With the corrected value the Popular button keeps exactly the dishes tagged "populärt", and lights up. */
  lemma {:induction false} CorrectedPopularKeepsPopular(data: MenuData, d: MenuItem)
    ensures IsActive(OnClick(CorrectedFilterOptions[1]), CorrectedFilterOptions[1])
    ensures d in Menu.FilteredDishes(Some(data), OnClick(CorrectedFilterOptions[1])) <==>
      d in data.dishes && Menu.Popular in d.tags
  {
    LowerOfLowercase(Menu.Popular);
    Menu.NamedFilters(data, d);
  }
}
