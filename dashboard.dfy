/**
 * The product list of the dashboard and its search box: every keystroke
 * recomputes the shown list from the products the page was loaded with.
 */
module Dashboard {
  import opened Text
  import opened Lists

  datatype Product = Product(id: string, title: string, categoryId: string, price: real, inStock: bool, imageUrl: string)

  /** `p.title.toLowerCase().includes(query.toLowerCase())` */
  predicate TitleMatches(p: Product, query: string)
    ensures TitleMatches(p, query) ==> |query| <= |p.title|
    ensures query == [] ==> TitleMatches(p, query)
  {
    Contains(ToLower(p.title), ToLower(query))
  }

  /** The list shown for a query: everything when the query is blank, else the matching products. */
  function SearchResults(initial: seq<Product>, query: string): (r: seq<Product>)
    ensures |r| <= |initial|
    ensures IsBlank(query) ==> r == initial
    ensures !IsBlank(query) ==> forall i :: 0 <= i < |r| ==> TitleMatches(r[i], query)
  {
    if IsBlank(query) then initial else Filter(initial, p => TitleMatches(p, query))
  }

  /** A non-blank query shows exactly the matching products, in the original order. */
  lemma SearchKeepsMatchesInOrder(initial: seq<Product>, query: string, p: Product)
    requires !IsBlank(query)
    ensures p in SearchResults(initial, query) <==> p in initial && TitleMatches(p, query)
    ensures IsSubsequence(SearchResults(initial, query), initial)
    ensures multiset(SearchResults(initial, query))[p] == if TitleMatches(p, query) then multiset(initial)[p] else 0
  {
    FilterMembership(initial, p => TitleMatches(p, query), p);
    FilterIsSubsequence(initial, p => TitleMatches(p, query));
    FilterMultiset(initial, p => TitleMatches(p, query), p);
  }

  /** Matching ignores case: queries that differ only in letter case show the same list. */
  lemma SearchIgnoresCase(initial: seq<Product>, q1: string, q2: string)
    requires ToLower(q1) == ToLower(q2)
    ensures SearchResults(initial, q1) == SearchResults(initial, q2)
  {
    BlankIgnoresCase(q1, q2);
    if !IsBlank(q1) {
      FilterSameTest(initial, p => TitleMatches(p, q1), p => TitleMatches(p, q2));
    }
  }

  lemma TinFound(p: Product)
    requires p.title == "Tin"
    ensures !IsBlank("tin") && TitleMatches(p, "tin")
  {
    assert !IsSpace("tin"[0]);
    assert ToLower(p.title) == "tin" by {
      assert LowerChar('T') == 't';
    }
    assert OccursAt(ToLower(p.title), ToLower("tin"), 0);
  }

  lemma TinSpaceMissed(p: Product)
    requires p.title == "Tin"
    ensures !IsBlank("tin ") && !TitleMatches(p, "tin ")
  {
  }

  /** The query is matched untrimmed: a trailing space is part of what must occur in the title. */
  lemma SearchDoesNotTrimQuery(p: Product)
    requires p.title == "Tin"
    ensures SearchResults([p], "tin") == [p]
    ensures SearchResults([p], "tin ") == []
  {
    TinFound(p);
    TinSpaceMissed(p);
    assert [p][1..] == [];
  }

  /** The dashboard's state: the loaded products, the search text and the shown list. */
  class DashboardState {
    const initialProducts: seq<Product>
    var search: string
    var products: seq<Product>

    constructor (initialProducts: seq<Product>)
      ensures this.initialProducts == initialProducts
      ensures search == "" && products == initialProducts
    {
      this.initialProducts := initialProducts;
      search := "";
      products := initialProducts;
    }

    /** The search box's onChange handler. */
    method OnSearchChange(value: string)
      modifies this
      ensures search == value
      ensures products == SearchResults(initialProducts, value)
    {
      search := value;
      if IsBlank(value) {
        products := initialProducts;
      } else {
        products := Filter(initialProducts, p => TitleMatches(p, value));
      }
    }
  }
}
