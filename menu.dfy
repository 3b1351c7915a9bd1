/** The customer menu page (frontend/src/pages/Menu.jsx): a category list
    with a search box, and the items of the chosen category, which can be
    added to the cart container. Each effect is taken to run to completion
    right after the handler that triggers it, so the page's state between
    steps is the state after its effects have settled. */
module Menu {
  import opened Common
  import opened Seqs
  import opened Text
  import opened Catalog
  import opened Cart

  /** A category of the menu service. */
  datatype Category = Category(id: int, name: string)

  /** An item as the service sends it; `price` is None when the price text
      is not a number. */
  datatype ServedItem = ServedItem(id: int, name: string, price: Option<int>, description: Option<string>)

  /** `price: parseFloat(item.price) || 0`: a price that is not a number
      becomes 0. */
  function Priced(s: ServedItem): (item: MenuItem)
    ensures item.id == s.id && item.name == s.name && item.description == s.description
    ensures s.price.None? ==> item.price == 0
    ensures s.price.Some? ==> item.price == s.price.value
  {
    MenuItem(s.id, s.name, s.price.GetOr(0), s.description)
  }

  function PricedAll(served: seq<ServedItem>): (r: seq<MenuItem>)
    ensures |r| == |served|
    ensures forall i :: 0 <= i < |served| ==> r[i] == Priced(served[i])
  {
    seq(|served|, i requires 0 <= i < |served| => Priced(served[i]))
  }

  /** The search test on one item: the lower-cased query (not trimmed)
      occurs in the lower-cased name or in the lower-cased description. */
  predicate Matches(item: MenuItem, query: string) {
    Contains(Lower(item.name), Lower(query))
    || (item.description.Some? && Contains(Lower(item.description.value), Lower(query)))
  }

  /** Matches as the test the filter takes. */
  function MatchTest(query: string): MenuItem -> bool {
    (item: MenuItem) => Matches(item, query)
  }

  /** The search effect: a query that trims to nothing shows every item;
      any other query keeps the matching items, in order. */
  function SearchResults(allItems: seq<MenuItem>, query: string): (r: seq<MenuItem>)
    ensures IsBlank(query) ==> r == allItems
    ensures !IsBlank(query) ==> forall x :: x in r <==> x in allItems && Matches(x, query)
    ensures IsSubsequence(r, allItems)
  {
    TrimEmpty(query);
    SubsequenceOfSelf(allItems);
    if Trim(query) == "" then allItems else Filter(allItems, MatchTest(query))
  }

  /** Nothing fetched, nothing listed. */
  lemma SearchNothing(query: string)
    ensures SearchResults([], query) == []
  {
  }

  /** Searching the search's own results changes nothing. */
  lemma SearchIdempotent(allItems: seq<MenuItem>, query: string)
    ensures SearchResults(SearchResults(allItems, query), query) == SearchResults(allItems, query)
  {
    if !IsBlank(query) {
      FilterIdempotent(allItems, MatchTest(query));
    }
  }

  /** Lower-casing keeps white space white space and everything else not. */
  lemma LowerKeepsBlank(s: string)
    ensures IsBlank(Lower(s)) <==> IsBlank(s)
  {
    assert forall i :: 0 <= i < |s| ==> Lower(s)[i] == LowerChar(s[i]);
  }

  lemma SearchNotBlank(allItems: seq<MenuItem>, query: string)
    requires !IsBlank(query)
    ensures SearchResults(allItems, query) == Filter(allItems, MatchTest(query))
  {
    TrimEmpty(query);
  }

  lemma MatchIgnoresCase(item: MenuItem, query: string)
    ensures Matches(item, Lower(query)) == Matches(item, query)
  {
    LowerIdempotent(query);
  }

  /** The search ignores the case of the query (for ASCII letters). */
  lemma SearchIgnoresCase(allItems: seq<MenuItem>, query: string)
    ensures SearchResults(allItems, Lower(query)) == SearchResults(allItems, query)
  {
    LowerKeepsBlank(query);
    if !IsBlank(query) {
      SearchNotBlank(allItems, query);
      SearchNotBlank(allItems, Lower(query));
      forall i | 0 <= i < |allItems| ensures MatchTest(Lower(query))(allItems[i]) == MatchTest(query)(allItems[i]) {
        MatchIgnoresCase(allItems[i], query);
      }
      FilterSame(allItems, MatchTest(Lower(query)), MatchTest(query));
    }
  }

  /** The query is trimmed only for the emptiness test: with a leading space
      it no longer finds an item whose name is the word itself. */
  lemma LeadingSpaceMisses(item: MenuItem, word: string)
    requires item.name == word && item.description.None? && !IsBlank(word)
    ensures SearchResults([item], word) == [item]
    ensures SearchResults([item], " " + word) == []
  {
    ContainsPrefix(Lower(word), Lower(word));
    assert Matches(item, word);
    assert !IsBlank(" " + word) by {
      var i :| 0 <= i < |word| && !IsSpace(word[i]);
      assert (" " + word)[i + 1] == word[i];
    }
    assert !Matches(item, " " + word) by {
      assert |Lower(" " + word)| > |Lower(item.name)|;
    }
    var r := SearchResults([item], " " + word);
    assert item !in r;
  }

  class MenuPage {
    var categories: seq<Category>
    var selectedCategoryId: Option<int>
    var items: seq<MenuItem>
    var allItems: seq<MenuItem>
    var loadingItems: bool
    var searchQuery: string

    /** `selectedCategoryId` is truthy: set and not 0. */
    predicate Selected()
      reads this
    {
      selectedCategoryId.Some? && selectedCategoryId.value != 0
    }

    /** The listed items are the search results over the fetched ones, and
        while the category list shows (the only view with the search box)
        nothing has been fetched. */
    ghost predicate Valid()
      reads this
    {
      items == SearchResults(allItems, searchQuery) && (!Selected() ==> allItems == []) && !loadingItems
    }

    constructor ()
      ensures Valid() && !Selected()
      ensures categories == [] && selectedCategoryId == None && items == [] && searchQuery == ""
    {
      categories := [];
      selectedCategoryId := None;
      items, allItems := [], [];
      loadingItems := false;
      searchQuery := "";
    }

    /** The mount effect: the fetched categories, or none on failure. */
    method CategoriesFetched(reply: Reply<seq<Category>>)
      requires Valid()
      modifies this
      ensures Valid()
      ensures categories == (if reply.Ok? then reply.body else old(categories))
      ensures selectedCategoryId == old(selectedCategoryId) && items == old(items) && allItems == old(allItems)
      ensures searchQuery == old(searchQuery)
    {
      if reply.Ok? {
        categories := reply.body;
      }
    }

    /** Typing in the search box, which shows only on the category list: as
        nothing is fetched there, the list it filters is empty. */
    method HandleSearch(query: string)
      requires Valid() && !Selected()
      modifies this
      ensures Valid() && !Selected()
      ensures searchQuery == query && items == []
      ensures categories == old(categories) && selectedCategoryId == old(selectedCategoryId) && allItems == old(allItems)
    {
      searchQuery := query;
      items := SearchResults(allItems, searchQuery);
    }

    /** A click on a category; `fetched` is the answer of the item fetch the
        click triggers. A category id of 0 is falsy and fetches nothing. The
        fetched items are listed through the search query typed on the
        category list. */
    method HandleCategoryClick(cat: Category, fetched: Reply<seq<ServedItem>>)
      requires Valid() && !Selected()
      modifies this
      ensures Valid()
      ensures selectedCategoryId == Some(cat.id) && searchQuery == old(searchQuery) && categories == old(categories)
      ensures cat.id != 0 && fetched.Ok? ==>
        allItems == PricedAll(fetched.body) && items == SearchResults(PricedAll(fetched.body), searchQuery)
      ensures cat.id == 0 || fetched.Failed? ==> allItems == [] && items == []
    {
      selectedCategoryId := Some(cat.id);
      if cat.id != 0 {
        loadingItems := true;
        if fetched.Ok? {
          allItems := PricedAll(fetched.body);
        }
        loadingItems := false;
      }
      SearchNothing(searchQuery);
      items := SearchResults(allItems, searchQuery);
    }

    /** "Back to categories" clears the selection, both item lists and the
        query. */
    method HandleBackToCategories()
      requires Valid()
      modifies this
      ensures Valid() && !Selected()
      ensures selectedCategoryId == None && items == [] && allItems == [] && searchQuery == ""
      ensures categories == old(categories)
    {
      selectedCategoryId := None;
      items := [];
      allItems := [];
      searchQuery := "";
    }

    /** The item's add button hands the item to the cart container. */
    method HandleAddToCart(cart: CartStore, item: MenuItem)
      requires Valid() && cart.Valid()
      modifies cart
      ensures Valid() && cart.Valid()
      ensures cart.State() == AfterAdd(old(cart.State()), item)
    {
      cart.AddToCart(item);
    }
  }

  /** A query typed on the category list filters the next category's items:
      after typing `query` and opening a category whose fetch succeeds, the
      page lists the search results of `query` over that category. */
  method QueryCarriesOver(query: string, cat: Category, served: seq<ServedItem>) returns (shown: seq<MenuItem>)
    requires cat.id != 0
    ensures shown == SearchResults(PricedAll(served), query)
  {
    var page := new MenuPage();
    page.HandleSearch(query);
    page.HandleCategoryClick(cat, Ok(served));
    shown := page.items;
  }
}
