/**
 * The home page (src/pages/Home.tsx): the featured list, the trending top six
 * after `mockProducts.sort` (which reorders the shared product array in
 * place), the category narrowing and the two totals.
 */
module Home {

  import opened Types
  import Seqs
  import Products

  const TrendingCount: nat := 6

  function IsFeatured(p: Product): bool {
    p.isFeatured
  }

  function Votes(p: Product): int {
    p.votes
  }

  /** `currentFunding || 0`. */
  function Funding(p: Product): int {
    p.currentFunding.GetOr(0)
  }

  /** `products.filter(p => p.isFeatured)`: exactly the featured products, in order. */
  function Featured(products: seq<Product>): (r: seq<Product>)
    ensures forall p :: p in r <==> p in products && p.isFeatured
    ensures forall p :: multiset(r)[p] == if p.isFeatured then multiset(products)[p] else 0
    ensures Seqs.SubseqOf(r, products)
  {
    Seqs.Filter(products, IsFeatured)
  }

  /** `sorted.slice(0, 6)` of a list sorted by votes: at most six, and none left out has more votes than the last kept. */
  function Trending(sorted: seq<Product>): (r: seq<Product>)
    requires Seqs.SortedDesc(sorted, Votes)
    ensures |r| == if |sorted| < TrendingCount then |sorted| else TrendingCount
    ensures Seqs.SortedDesc(r, Votes)
    ensures forall j :: |r| <= j < |sorted| ==> sorted[j].votes <= r[|r| - 1].votes
    ensures forall i :: 0 <= i < |r| ==> r[i] == sorted[i]
  {
    Seqs.TopK(sorted, TrendingCount, Votes);
    Seqs.Take(sorted, TrendingCount)
  }

  /** The two totals do not depend on the order of the array, so the in-place sort does not change them. */
  lemma TotalsIgnoreOrder(before: seq<Product>, after: seq<Product>)
    requires multiset(before) == multiset(after)
    ensures Seqs.Sum(after, Votes) == Seqs.Sum(before, Votes)
    ensures Seqs.Sum(after, Funding) == Seqs.Sum(before, Funding)
  {
    Seqs.SumOfPermutation(before, after, Votes);
    Seqs.SumOfPermutation(before, after, Funding);
  }

  /** What the page shows. */
  datatype View = View(featured: seq<Product>, trending: seq<Product>, shown: seq<Product>,
                       fundingRaised: int, totalVotes: int)

  /**
   * The render: featured is taken before the sort; the sort reorders the
   * shared array in place; trending is its first six; the category narrows
   * trending; the totals are taken over the array.
   */
  method Render(mockProducts: array<Product>, selectedCategory: string) returns (v: View)
    modifies mockProducts
    ensures v.featured == Featured(old(mockProducts[..]))
    ensures mockProducts[..] == Seqs.SortDesc(old(mockProducts[..]), Votes)
    ensures multiset(mockProducts[..]) == multiset(old(mockProducts[..]))
    ensures Seqs.SortedDesc(mockProducts[..], Votes)
    ensures v.trending == Trending(mockProducts[..])
    ensures v.shown == Products.CategoryStage(v.trending, selectedCategory)
    ensures Seqs.SubseqOf(v.shown, v.trending)
    ensures selectedCategory == "all" ==> v.shown == v.trending
    ensures v.totalVotes == Seqs.Sum(old(mockProducts[..]), Votes)
    ensures v.fundingRaised == Seqs.Sum(old(mockProducts[..]), Funding)
  {
    var featured := Seqs.Filter(mockProducts[..], IsFeatured);
    Seqs.SortInPlace(mockProducts, Votes);
    var trending := Trending(mockProducts[..]);
    var shown := Products.CategoryStage(trending, selectedCategory);
    TotalsIgnoreOrder(old(mockProducts[..]), mockProducts[..]);
    v := View(featured, trending, shown, Seqs.Sum(mockProducts[..], Funding), Seqs.Sum(mockProducts[..], Votes));
  }
}
