/**
 * One dish card on the menu (frontend/src/components/MenuItem/MenuItem.tsx):
 * the colour of a tag badge, and the at most two badges the card shows.
 */
module MenuItemView {
  import opened Text
  import opened MenuTypes
  import opened Sequences

  /** `tagStyles` (lines 13-21): badge classes by lower-case tag. */
  const TagStyles: map<string, string> := map[
    "vegetariskt" := "bg-green-100 text-green-700",
    "veganskt" := "bg-green-100 text-green-700",
    "glutenfritt" := "bg-blue-100 text-blue-700",
    "laktosfritt" := "bg-purple-100 text-purple-700",
    "popul\U{00E4}rt" := "bg-yellow-100 text-yellow-700",
    "klassiker" := "bg-orange-100 text-orange-700",
    "barnv\U{00E4}nligt" := "bg-pink-100 text-pink-700"
  ]

  const DefaultStyle := "bg-gray-100 text-gray-700"

  /** `getTagStyle` (lines 12-23): the table entry of the lower-cased tag, grey otherwise. */
  function TagStyle(tag: string): (style: string)
    ensures Lower(tag) in TagStyles ==> style == TagStyles[Lower(tag)] && style != DefaultStyle
    ensures Lower(tag) !in TagStyles ==> style == DefaultStyle
  {
    var key := Lower(tag);
    if key in TagStyles then TagStyles[key] else DefaultStyle
  }

  /** Tag lookup ignores case. */
  lemma TagStyleIgnoresCase(tag: string)
    ensures TagStyle(tag) == TagStyle(Lower(tag))
  {
    LowerIdempotent(tag);
  }

  /** The labels `displayTags` may push, in the order it tries them. */
  const PriorityLabels: seq<string> := ["Vegetariskt", "Veganskt", "Glutenfritt", "Laktosfritt"]

  /** Whether the card earns a badge (lines 30-45). */
  predicate Earns(dish: MenuItem, badge: string)
  {
    if badge == "Vegetariskt" then dish.category == "Vegetariskt"
    else if badge == "Veganskt" then dish.category == "Veganskt"
    else if badge == "Glutenfritt" then "glutenfritt" in dish.tags || "glutenfri" in dish.allergens
    else if badge == "Laktosfritt" then "laktosfritt" in dish.tags
    else false
  }

  function EarnsFor(dish: MenuItem): string -> bool
  {
    (badge: string) => Earns(dish, badge)
  }

  /** The labels the card earns, in priority order, before the cut to two. */
  function EarnedLabels(dish: MenuItem): seq<string>
  {
    Filter(PriorityLabels, EarnsFor(dish))
  }

  /** The earned labels written out one priority at a time. */
  lemma {:induction false} EarnedLabelsByPriority(dish: MenuItem)
    ensures EarnedLabels(dish) ==
      (if dish.category == "Vegetariskt" then ["Vegetariskt"] else []) +
      (if dish.category == "Veganskt" then ["Veganskt"] else []) +
      (if "glutenfritt" in dish.tags || "glutenfri" in dish.allergens then ["Glutenfritt"] else []) +
      (if "laktosfritt" in dish.tags then ["Laktosfritt"] else [])
  {
    var p := EarnsFor(dish);
    assert ["Vegetariskt"] == [] + ["Vegetariskt"];
    FilterSnoc([], "Vegetariskt", p);
    assert ["Vegetariskt", "Veganskt"] == ["Vegetariskt"] + ["Veganskt"];
    FilterSnoc(["Vegetariskt"], "Veganskt", p);
    assert ["Vegetariskt", "Veganskt", "Glutenfritt"] == ["Vegetariskt", "Veganskt"] + ["Glutenfritt"];
    FilterSnoc(["Vegetariskt", "Veganskt"], "Glutenfritt", p);
    assert PriorityLabels == ["Vegetariskt", "Veganskt", "Glutenfritt"] + ["Laktosfritt"];
    FilterSnoc(["Vegetariskt", "Veganskt", "Glutenfritt"], "Laktosfritt", p);
  }

  /** The badges shown: the first two earned labels (`slice(0, 2)`, line 47). */
  function ShownLabels(dish: MenuItem): (shown: seq<string>)
    ensures |shown| <= 2
    ensures IsSubsequence(shown, PriorityLabels)
  {
    var earned := EarnedLabels(dish);
    FilterIsSubsequence(PriorityLabels, EarnsFor(dish));
    if |earned| <= 2 then earned
    else
      SubsequencePrefix(earned, PriorityLabels, 2);
      earned[..2]
  }

  /** `displayTags` (lines 26-48): push each earned badge in turn, then keep the first two. */
  method DisplayTags(dish: MenuItem) returns (tags: seq<string>)
    ensures tags == ShownLabels(dish)
  {
    EarnedLabelsByPriority(dish);
    var priorityTags: seq<string> := [];
    if dish.category == "Vegetariskt" {
      priorityTags := priorityTags + ["Vegetariskt"];
    }
    assert priorityTags == (if dish.category == "Vegetariskt" then ["Vegetariskt"] else []);
    ghost var upToVegan := priorityTags;
    if dish.category == "Veganskt" {
      priorityTags := priorityTags + ["Veganskt"];
    }
    assert priorityTags == upToVegan + (if dish.category == "Veganskt" then ["Veganskt"] else []);
    ghost var upToGluten := priorityTags;
    if "glutenfritt" in dish.tags || "glutenfri" in dish.allergens {
      priorityTags := priorityTags + ["Glutenfritt"];
    }
    assert priorityTags == upToGluten + (if "glutenfritt" in dish.tags || "glutenfri" in dish.allergens then ["Glutenfritt"] else []);
    ghost var upToLactose := priorityTags;
    if "laktosfritt" in dish.tags {
      priorityTags := priorityTags + ["Laktosfritt"];
    }
    assert priorityTags == upToLactose + (if "laktosfritt" in dish.tags then ["Laktosfritt"] else []);
    assert priorityTags == EarnedLabels(dish);
    tags := if |priorityTags| <= 2 then priorityTags else priorityTags[..2];
  }

  /** A card never shows both "Vegetariskt" and "Veganskt", and never the same badge twice. */
  lemma {:induction false} ShownLabelsDistinct(dish: MenuItem)
    ensures !("Vegetariskt" in ShownLabels(dish) && "Veganskt" in ShownLabels(dish))
    ensures Distinct(ShownLabels(dish))
  {
    var earned, shown := EarnedLabels(dish), ShownLabels(dish);
    assert forall x | x in shown :: x in earned;
    PriorityLabelsDistinct();
    FilterDistinct(PriorityLabels, EarnsFor(dish));
  }

  lemma PriorityLabelsDistinct()
    ensures Distinct(PriorityLabels)
  {
  }

  /** The gluten badge is never cut: it shows exactly when the dish is tagged or marked gluten-free. */
  lemma {:induction false} GlutenBadgeAlwaysFits(dish: MenuItem)
    ensures "Glutenfritt" in ShownLabels(dish) <==> "glutenfritt" in dish.tags || "glutenfri" in dish.allergens
  {
    EarnedLabelsByPriority(dish);
  }

  /** The four badge texts find their table entries once lower-cased. */
  lemma BadgeStyles()
    ensures TagStyle("Vegetariskt") == "bg-green-100 text-green-700"
    ensures TagStyle("Veganskt") == "bg-green-100 text-green-700"
    ensures TagStyle("Glutenfritt") == "bg-blue-100 text-blue-700"
    ensures TagStyle("Laktosfritt") == "bg-purple-100 text-purple-700"
  {
    BadgeStyle(0);
    BadgeStyle(1);
    BadgeStyle(2);
    BadgeStyle(3);
  }

  /** The table keys of the badge texts, in the order of `PriorityLabels`. */
  const BadgeKeys: seq<string> := ["vegetariskt", "veganskt", "glutenfritt", "laktosfritt"]

  /** Each badge text is a capitalised word whose lower case is its table key. */
  lemma BadgeStyle(k: nat)
    requires k < |PriorityLabels|
    ensures TagStyle(PriorityLabels[k]) == TagStyles[BadgeKeys[k]]
  {
    LowerOfCapitalised(PriorityLabels[k]);
    assert Lower(PriorityLabels[k]) == BadgeKeys[k];
  }

  /** Every badge shown has its own colour rather than the grey default. */
  lemma {:induction false} ShownBadgesAreColoured(dish: MenuItem, badge: string)
    requires badge in ShownLabels(dish)
    ensures TagStyle(badge) != DefaultStyle
  {
    assert badge in EarnedLabels(dish);
    assert badge in PriorityLabels;
    BadgeStyles();
  }

  /** SE-009 earns three labels; the lactose-free one is cut. */
  lemma {:induction false} MushroomStroganoffBadges()
    ensures EarnedLabels(Svampstroganoff) == ["Veganskt", "Glutenfritt", "Laktosfritt"]
    ensures ShownLabels(Svampstroganoff) == ["Veganskt", "Glutenfritt"]
  {
    EarnedLabelsByPriority(Svampstroganoff);
  }
}
