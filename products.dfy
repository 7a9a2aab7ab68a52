/**
 * The product listing (src/pages/Products.tsx): the search stage, the
 * category stage and the sort of a copy, and the search box handlers.
 */
module Products {

  import opened Common
  import opened Text
  import opened Types
  import Seqs

  /**
   * The search predicate: the lower-cased query occurs in the lower-cased
   * title, description, a tag, the category or the creator's name, or the
   * query occurs as typed in the Amharic title or description.
   */
  predicate Matches(p: Product, query: string) {
    var q := ToLower(query);
    Contains(ToLower(p.title), q)
    || Contains(ToLower(p.description), q)
    || (exists t :: t in p.tags && Contains(ToLower(t), q))
    || Contains(ToLower(p.category), q)
    || Contains(ToLower(p.creatorName), q)
    || (Present(p.titleAm) && Contains(p.titleAm.value, query))
    || (Present(p.descriptionAm) && Contains(p.descriptionAm.value, query))
  }

  function MatchesQuery(query: string): Product -> bool {
    (p: Product) => Matches(p, query)
  }

  /** The first stage: an empty query lets everything through, otherwise `filter(Matches)`. */
  function SearchStage(products: seq<Product>, query: string): (r: seq<Product>)
    ensures query == [] ==> r == products
    ensures query != [] ==> forall p :: p in r <==> p in products && Matches(p, query)
    ensures query != [] ==> forall p :: multiset(r)[p] == if Matches(p, query) then multiset(products)[p] else 0
    ensures Seqs.SubseqOf(r, products)
  {
    if query == [] then
      Seqs.SubseqOfSelf(products);
      products
    else Seqs.Filter(products, MatchesQuery(query))
  }

  /** Every product matches the empty query (its lower-cased title contains ""), so both branches of the stage agree. */
  lemma EmptyQueryMatchesAll(products: seq<Product>)
    ensures Seqs.Filter(products, MatchesQuery([])) == products
  {
    forall p | p in products ensures Matches(p, []) {
      ContainsEmpty(ToLower(p.title));
    }
    Seqs.FilterKeepsAll(products, MatchesQuery([]));
  }

  function InCategory(category: string): Product -> bool {
    (p: Product) => Contains(ToLower(p.category), category)
  }

  /** The second stage: 'all' keeps everything, otherwise the lower-cased category must contain the key. */
  function CategoryStage(products: seq<Product>, category: string): (r: seq<Product>)
    ensures category == "all" ==> r == products
    ensures category != "all" ==> forall p :: p in r <==> p in products && Contains(ToLower(p.category), category)
    ensures category != "all" ==> forall p :: multiset(r)[p] == if Contains(ToLower(p.category), category) then multiset(products)[p] else 0
    ensures Seqs.SubseqOf(r, products)
  {
    if category == "all" then
      Seqs.SubseqOfSelf(products);
      products
    else Seqs.Filter(products, InCategory(category))
  }

  /** The sort comparator's key: `b.x - a.x` orders by descending `x`; an unknown choice answers 0 for every pair. */
  function SortKey(sortBy: string): Product -> int {
    match sortBy
    case "votes" => (p: Product) => p.votes
    case "recent" => (p: Product) => p.createdAt
    case "funding" => (p: Product) => p.currentFunding.GetOr(0)
    case _ => (p: Product) => 0
  }

  /** The listing: search, then category, then a stable sort of a copy. */
  function Listing(products: seq<Product>, query: string, category: string, sortBy: string): (r: seq<Product>)
    ensures multiset(r) == multiset(CategoryStage(SearchStage(products, query), category))
    ensures Seqs.SortedDesc(r, SortKey(sortBy))
  {
    Seqs.SortDesc(CategoryStage(SearchStage(products, query), category), SortKey(sortBy))
  }

  /**
   * The page body: `filteredProducts` is reassigned stage by stage, then a
   * copy is sorted.
   */
  method ListProducts(products: seq<Product>, query: string, category: string, sortBy: string)
    returns (sorted: seq<Product>)
    ensures sorted == Listing(products, query, category, sortBy)
  {
    var filtered := products;
    if query != [] {
      filtered := Seqs.Filter(products, MatchesQuery(query));
    }
    if category != "all" {
      filtered := Seqs.Filter(filtered, InCategory(category));
    }
    sorted := Seqs.SortDesc(filtered, SortKey(sortBy));
  }

  /** Search plus category is a subset of search alone, in the same relative order. */
  lemma CategoryNarrowsSearch(products: seq<Product>, query: string, category: string)
    ensures Seqs.SubseqOf(CategoryStage(SearchStage(products, query), category), SearchStage(products, query))
    ensures forall p :: p in CategoryStage(SearchStage(products, query), category) ==> p in SearchStage(products, query)
  {
  }

  /** Sorting by votes gives non-increasing votes; by funding, non-increasing funding with a missing amount as 0. */
  lemma SortedByChoice(products: seq<Product>, query: string, category: string, sortBy: string)
    ensures var r := Listing(products, query, category, sortBy);
            sortBy == "votes" ==> forall i, j :: 0 <= i < j < |r| ==> r[i].votes >= r[j].votes
    ensures var r := Listing(products, query, category, sortBy);
            sortBy == "recent" ==> forall i, j :: 0 <= i < j < |r| ==> r[i].createdAt >= r[j].createdAt
    ensures var r := Listing(products, query, category, sortBy);
            sortBy == "funding" ==> forall i, j :: 0 <= i < j < |r| ==> r[i].currentFunding.GetOr(0) >= r[j].currentFunding.GetOr(0)
  {
    var r := Listing(products, query, category, sortBy);
    assert Seqs.SortedDesc(r, SortKey(sortBy));
  }

  /** An unknown sort choice keeps the filtered order. */
  lemma UnknownSortKeepsOrder(products: seq<Product>, query: string, category: string, sortBy: string)
    requires sortBy != "votes" && sortBy != "recent" && sortBy != "funding"
    ensures Listing(products, query, category, sortBy) == CategoryStage(SearchStage(products, query), category)
  {
    var s := CategoryStage(SearchStage(products, query), category);
    var key := SortKey(sortBy);
    assert forall p :: key(p) == 0;
    Seqs.SortDescConstantKey(s, key, 0);
  }

  /** The search box and the `search` URL parameter it drives. */
  class SearchBox {
    var localSearchQuery: string
    var searchParam: Option<string>

    /** `searchParams.get('search') || ''`. */
    function Query(): (q: string)
      reads this
      ensures searchParam.Some? ==> q == searchParam.value
      ensures searchParam.None? ==> q == []
    {
      searchParam.GetOr([])
    }

    constructor (searchParam: Option<string>)
      ensures this.searchParam == searchParam
      ensures localSearchQuery == searchParam.GetOr([])
    {
      this.searchParam := searchParam;
      localSearchQuery := searchParam.GetOr([]);
    }

    /** Typing into the search box. */
    method EditQuery(value: string)
      modifies this
      ensures localSearchQuery == value && searchParam == old(searchParam)
    {
      localSearchQuery := value;
    }

    /** `handleLocalSearch`: the trimmed text becomes the query; white space only clears it. */
    method HandleLocalSearch()
      modifies this
      ensures IsBlank(old(localSearchQuery)) ==> searchParam == None
      ensures !IsBlank(old(localSearchQuery)) ==> searchParam == Some(Trim(old(localSearchQuery)))
      ensures Query() == Trim(old(localSearchQuery)) && IsTrimmed(Query())
      ensures localSearchQuery == old(localSearchQuery)
    {
      var t := Trim(localSearchQuery);
      TrimIsTrimmed(localSearchQuery);
      if t != [] {
        searchParam := Some(t);
      } else {
        searchParam := None;
      }
    }

    /** `clearSearch`. */
    method ClearSearch()
      modifies this
      ensures localSearchQuery == [] && searchParam == None && Query() == []
    {
      localSearchQuery := "";
      searchParam := None;
    }
  }
}
