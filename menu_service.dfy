/**
 * The back-end menu service (backend/src/services/menu_service.py): grouping
 * the dish documents by category, and the search pipeline that narrows the
 * documents by category and price in the database query and then by
 * allergens, tags and free text in a loop. The document stream is a
 * parameter: the Firestore client is not part of this model.
 */
module MenuService {
  import opened Wrappers
  import opened Text
  import opened Sequences

  /** A dish document's fields, each of which may be missing. */
  datatype Fields = Fields(
    id: Option<string>,
    name: Option<string>,
    category: Option<string>,
    description: Option<string>,
    priceSek: Option<real>,
    allergens: Option<seq<string>>,
    tags: Option<seq<string>>)

  /** A document as streamed: its id and its data. */
  datatype Document = Document(docId: string, data: Fields)

  /** `item = doc.to_dict(); item['id'] = doc.id` (lines 53-54 and 132-133). */
  function ToItem(doc: Document): (item: Fields)
    ensures item.id == Some(doc.docId)
    ensures item.(id := doc.data.id) == doc.data
  {
    doc.data.(id := Some(doc.docId))
  }

  /** The items of a document stream, in stream order. */
  function Items(docs: seq<Document>): (items: seq<Fields>)
    ensures |items| == |docs|
    ensures forall i | 0 <= i < |docs| :: items[i] == ToItem(docs[i])
  {
    seq(|docs|, i requires 0 <= i < |docs| => ToItem(docs[i]))
  }

  /** `item.get('category', 'Other')` (line 56). */
  function CategoryKey(item: Fields): (k: string)
    ensures item.category.None? ==> k == "Other"
    ensures item.category.Some? ==> k == item.category.value
  {
    item.category.GetOr("Other")
  }

  /**
   * The grouping loop of `get_all_menu_items` (lines 51-60). `categories` is
   * the dictionary's key order, which is insertion order.
   */
  method GetAllMenuItems(docs: seq<Document>) returns (categories: seq<string>, menuByCategory: map<string, seq<Fields>>)
    ensures categories == FirstSeenKeys(Items(docs), CategoryKey)
    ensures menuByCategory.Keys == set c | c in categories
    ensures forall c | c in menuByCategory :: menuByCategory[c] == Members(Items(docs), CategoryKey, c)
  {
    ghost var items := Items(docs);
    categories, menuByCategory := [], map[];
    for i := 0 to |docs|
      invariant GroupedAs(items[..i], CategoryKey, categories, menuByCategory)
    {
      var item := ToItem(docs[i]);
      var category := CategoryKey(item);
      assert items[i] == item;
      PrefixSnoc(items, i);
      GroupedAsSnoc(items[..i], CategoryKey, categories, menuByCategory, item);
      ghost var before := menuByCategory;
      if category !in menuByCategory {
        categories := categories + [category];
        menuByCategory := menuByCategory[category := []];
      }
      menuByCategory := menuByCategory[category := menuByCategory[category] + [item]];
      if category !in before {
        UpdateTwice(before, category, [], [] + [item]);
      }
    }
    assert items[..|docs|] == items;
  }

  /**
   * Every document lands in exactly one group: the one of its category, or
   * 'Other' without one; it carries its document id; and the group sizes add
   * up to the number of documents.
   */
  lemma {:induction false} GroupingPlacesEachDocumentOnce(docs: seq<Document>, i: nat, c: string)
    requires i < |docs|
    ensures ToItem(docs[i]) in Members(Items(docs), CategoryKey, CategoryKey(ToItem(docs[i])))
    ensures docs[i].data.category.None? ==> ToItem(docs[i]) in Members(Items(docs), CategoryKey, "Other")
    ensures c != CategoryKey(ToItem(docs[i])) ==> ToItem(docs[i]) !in Members(Items(docs), CategoryKey, c)
    ensures ToItem(docs[i]).id == Some(docs[i].docId)
    ensures GroupSizes(Items(docs), CategoryKey, FirstSeenKeys(Items(docs), CategoryKey)) == |docs|
  {
    assert Items(docs)[i] == ToItem(docs[i]);
    GroupingPartitions(Items(docs), CategoryKey);
  }

  /** Groups keep stream order: each is a subsequence of the item stream. */
  lemma GroupsKeepStreamOrder(docs: seq<Document>, c: string)
    ensures IsSubsequence(Members(Items(docs), CategoryKey, c), Items(docs))
  {
    MembersKeepOrder(Items(docs), CategoryKey, c);
  }

  /** A string argument is truthy when it is given and not empty. */
  predicate Given(s: Option<string>)
  {
    s.Some? && s.value != []
  }

  /** A list argument is truthy when it is given and not empty. */
  predicate GivenList(l: Option<seq<string>>)
  {
    l.Some? && l.value != []
  }

  /** A price argument is truthy when it is given and not zero. */
  predicate GivenPrice(p: Option<real>)
  {
    p.Some? && p.value != 0.0
  }

  /**
   * The database filters (lines 120-125): `category ==` and `priceSek <=`,
   * each applied only when its argument is truthy; a document without the
   * field does not satisfy the comparison.
   */
  predicate PassesWhere(doc: Document, category: Option<string>, maxPrice: Option<real>)
  {
    (Given(category) ==> doc.data.category == category) &&
    (GivenPrice(maxPrice) ==> doc.data.priceSek.Some? && doc.data.priceSek.value <= maxPrice.value)
  }

  function Where(category: Option<string>, maxPrice: Option<real>): Document -> bool
  {
    (doc: Document) => PassesWhere(doc, category, maxPrice)
  }

  /** The three checks of the search loop (lines 135-153); a failing check `continue`s. */
  predicate Matches(item: Fields, query: Option<string>, allergensExclude: Option<seq<string>>, tags: Option<seq<string>>)
  {
    (GivenList(allergensExclude) ==>
      !exists a | a in allergensExclude.value :: a in item.allergens.GetOr([])) &&
    (GivenList(tags) ==>
      exists t | t in tags.value :: t in item.tags.GetOr([])) &&
    (Given(query) ==>
      Contains(Lower(item.name.GetOr("")), Lower(query.value)) ||
      Contains(Lower(item.description.GetOr("")), Lower(query.value)))
  }

  function Matching(query: Option<string>, allergensExclude: Option<seq<string>>, tags: Option<seq<string>>): Fields -> bool
  {
    (item: Fields) => Matches(item, query, allergensExclude, tags)
  }

  /** What `search_items` returns once its collection is set: the filtered items in stream order. */
  function SearchResults(docs: seq<Document>, query: Option<string>, category: Option<string>, maxPrice: Option<real>,
                         allergensExclude: Option<seq<string>>, tags: Option<seq<string>>): seq<Fields>
  {
    Filter(Items(Filter(docs, Where(category, maxPrice))), Matching(query, allergensExclude, tags))
  }

  /**
   * The filter loop of `search_items` (lines 129-155), over the stream the
   * database query returned.
   */
  method SearchLoop(streamed: seq<Document>, query: Option<string>, allergensExclude: Option<seq<string>>, tags: Option<seq<string>>)
    returns (results: seq<Fields>)
    ensures results == Filter(Items(streamed), Matching(query, allergensExclude, tags))
  {
    ghost var keep := Matching(query, allergensExclude, tags);
    ghost var items := Items(streamed);
    results := [];
    for i := 0 to |streamed|
      invariant results == Filter(items[..i], keep)
    {
      var item := ToItem(streamed[i]);
      assert items[i] == item;
      PrefixSnoc(items, i);
      FilterSnoc(items[..i], item, keep);
      assert keep(item) == Matches(item, query, allergensExclude, tags);
      if GivenList(allergensExclude) {
        var itemAllergens := item.allergens.GetOr([]);
        if exists a | a in allergensExclude.value :: a in itemAllergens {
          assert !Matches(item, query, allergensExclude, tags);
          continue;
        }
      }
      if GivenList(tags) {
        var itemTags := item.tags.GetOr([]);
        if !exists t | t in tags.value :: t in itemTags {
          assert !Matches(item, query, allergensExclude, tags);
          continue;
        }
      }
      if Given(query) {
        var queryLower := Lower(query.value);
        var nameMatch := Contains(Lower(item.name.GetOr("")), queryLower);
        var descMatch := Contains(Lower(item.description.GetOr("")), queryLower);
        if !(nameMatch || descMatch) {
          assert !Matches(item, query, allergensExclude, tags);
          continue;
        }
      }
      assert Matches(item, query, allergensExclude, tags);
      results := results + [item];
    }
    assert items[..|streamed|] == items;
  }

  /** `search_items` with a collection to query (lines 115-162). */
  method SearchItems(docs: seq<Document>, query: Option<string>, category: Option<string>, maxPrice: Option<real>,
                     allergensExclude: Option<seq<string>>, tags: Option<seq<string>>)
    returns (results: seq<Fields>)
    ensures results == SearchResults(docs, query, category, maxPrice, allergensExclude, tags)
  {
    var streamed := Filter(docs, Where(category, maxPrice));
    results := SearchLoop(streamed, query, allergensExclude, tags);
  }

  /** What the search keeps, condition by condition. */
  lemma {:induction false} SearchMembership(docs: seq<Document>, query: Option<string>, category: Option<string>, maxPrice: Option<real>,
                                            allergensExclude: Option<seq<string>>, tags: Option<seq<string>>, i: nat)
    requires i < |docs|
    ensures PassesWhere(docs[i], category, maxPrice) && Matches(ToItem(docs[i]), query, allergensExclude, tags) ==>
      ToItem(docs[i]) in SearchResults(docs, query, category, maxPrice, allergensExclude, tags)
    ensures forall item | item in SearchResults(docs, query, category, maxPrice, allergensExclude, tags) ::
      Matches(item, query, allergensExclude, tags) &&
      exists d | d in docs :: PassesWhere(d, category, maxPrice) && item == ToItem(d)
  {
    if PassesWhere(docs[i], category, maxPrice) && Matches(ToItem(docs[i]), query, allergensExclude, tags) {
      PassingDocumentIsFound(docs, query, category, maxPrice, allergensExclude, tags, i);
    }
    forall item | item in SearchResults(docs, query, category, maxPrice, allergensExclude, tags)
      ensures Matches(item, query, allergensExclude, tags) &&
        exists d | d in docs :: PassesWhere(d, category, maxPrice) && item == ToItem(d)
    {
      FoundItemHasDocument(docs, query, category, maxPrice, allergensExclude, tags, item);
    }
  }

  lemma {:induction false} PassingDocumentIsFound(docs: seq<Document>, query: Option<string>, category: Option<string>, maxPrice: Option<real>,
                                                  allergensExclude: Option<seq<string>>, tags: Option<seq<string>>, i: nat)
    requires i < |docs|
    requires PassesWhere(docs[i], category, maxPrice) && Matches(ToItem(docs[i]), query, allergensExclude, tags)
    ensures ToItem(docs[i]) in SearchResults(docs, query, category, maxPrice, allergensExclude, tags)
  {
    var streamed := Filter(docs, Where(category, maxPrice));
    assert docs[i] in streamed;
    var j :| 0 <= j < |streamed| && streamed[j] == docs[i];
    var items := Items(streamed);
    assert items[j] == ToItem(docs[i]);
    assert items[j] in items;
  }

  lemma {:induction false} FoundItemHasDocument(docs: seq<Document>, query: Option<string>, category: Option<string>, maxPrice: Option<real>,
                                                allergensExclude: Option<seq<string>>, tags: Option<seq<string>>, item: Fields)
    requires item in SearchResults(docs, query, category, maxPrice, allergensExclude, tags)
    ensures Matches(item, query, allergensExclude, tags)
    ensures exists d | d in docs :: PassesWhere(d, category, maxPrice) && item == ToItem(d)
  {
    var streamed := Filter(docs, Where(category, maxPrice));
    var items := Items(streamed);
    assert item in items;
    var j :| 0 <= j < |items| && items[j] == item;
    assert streamed[j] in streamed;
  }

  /** Search results keep stream order. */
  lemma {:induction false} SearchKeepsStreamOrder(docs: seq<Document>, query: Option<string>, category: Option<string>, maxPrice: Option<real>,
                                                  allergensExclude: Option<seq<string>>, tags: Option<seq<string>>)
    ensures IsSubsequence(SearchResults(docs, query, category, maxPrice, allergensExclude, tags),
                          Items(Filter(docs, Where(category, maxPrice))))
  {
    FilterIsSubsequence(Items(Filter(docs, Where(category, maxPrice))), Matching(query, allergensExclude, tags));
  }

  /** A falsy price, `max_price=0`, imposes no cap at all: it searches like no price. */
  lemma ZeroPriceIsNoCap(docs: seq<Document>, query: Option<string>, category: Option<string>,
                         allergensExclude: Option<seq<string>>, tags: Option<seq<string>>)
    ensures SearchResults(docs, query, category, Some(0.0), allergensExclude, tags)
         == SearchResults(docs, query, category, None, allergensExclude, tags)
  {
    FilterAgreeing(docs, Where(category, Some(0.0)), Where(category, None));
  }

  /** An empty tag list is falsy and does not filter; a non-empty one requires a shared tag, so an untagged item fails it. */
  lemma EmptyTagsKeepAll(item: Fields, query: Option<string>, allergensExclude: Option<seq<string>>, tags: seq<string>)
    ensures Matches(item, query, allergensExclude, Some([])) == Matches(item, query, allergensExclude, None)
    ensures tags != [] ==>
      (Matches(item, query, allergensExclude, Some(tags)) <==>
        Matches(item, query, allergensExclude, None) && exists t | t in tags :: t in item.tags.GetOr([]))
    ensures tags != [] && item.tags.None? ==> !Matches(item, query, allergensExclude, Some(tags))
  {
  }

  /** The text query ignores case: "SILL" finds a dish named "Sill". */
  lemma QueryIgnoresCase(item: Fields)
    requires item.name == Some("Sill")
    ensures Matches(item, Some("SILL"), None, None)
  {
    assert Lower("SILL") == "sill";
    assert Lower("Sill") == "sill";
    ContainsAt("sill", "sill", 0);
  }

  /**
   * The service as constructed: `__init__` sets only the database client, so
   * the `collection` attribute the search reads is missing (lines 34-36).
   */
  datatype ServiceAttributes = ServiceAttributes(collection: Option<string>)

  const Constructed := ServiceAttributes(None)

  /**
   * `search_items` as written: reading the missing attribute raises, the
   * `except` branch logs and returns [] (lines 115-117, 164-166).
   */
  function SearchItemsAsWritten(service: ServiceAttributes, docs: seq<Document>, query: Option<string>, category: Option<string>,
                                maxPrice: Option<real>, allergensExclude: Option<seq<string>>, tags: Option<seq<string>>): seq<Fields>
  {
    if service.collection.None? then []
    else SearchResults(docs, query, category, maxPrice, allergensExclude, tags)
  }

  /** As constructed, the service finds nothing, even for a query with no filters over a non-empty menu. */
  lemma SearchFindsNothingAsConstructed(docs: seq<Document>)
    requires docs != []
    ensures SearchItemsAsWritten(Constructed, docs, None, None, None, None, None) == []
    ensures SearchResults(docs, None, None, None, None, None) != []
  {
    FilterKeepsAll(docs, Where(None, None));
    FilterKeepsAll(Items(docs), Matching(None, None, None));
  }

  /** With the collection set, the search returns the filtered items. */
  lemma SearchWithCollection(name: string, docs: seq<Document>, query: Option<string>, category: Option<string>,
                             maxPrice: Option<real>, allergensExclude: Option<seq<string>>, tags: Option<seq<string>>)
    ensures SearchItemsAsWritten(ServiceAttributes(Some(name)), docs, query, category, maxPrice, allergensExclude, tags)
         == SearchResults(docs, query, category, maxPrice, allergensExclude, tags)
  {
  }
}
