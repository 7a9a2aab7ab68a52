/**
 * The product detail page (src/pages/ProductDetail.tsx): product lookup by
 * route id, the reviews shown, the vote state with its sync effect, and the
 * funding-panel guard. The vote transition table is the card's.
 */
module ProductDetail {

  import opened Common
  import opened Types
  import Seqs
  import ProductCard
  import Language

  function HasId(id: int): Product -> bool {
    (p: Product) => p.id == id
  }

  /** `mockProducts.find(p => p.id === id)`: the first product with the route id, or the not-found branch. */
  function FindProduct(products: seq<Product>, id: int): (r: Option<Product>)
    ensures r.Some? ==> r.value in products && r.value.id == id
    ensures r.None? <==> forall p :: p in products ==> p.id != id
    ensures r.Some? ==> exists i :: 0 <= i < |products| && products[i] == r.value
                                    && forall j :: 0 <= j < i ==> products[j].id != id
  {
    Seqs.FindFirst(products, HasId(id))
  }

  function ForProduct(id: int): Review -> bool {
    (r: Review) => r.productId == id
  }

  /** `mockReviews.filter(r => r.productId === id)`: exactly that product's reviews, in their order. */
  function ReviewsFor(reviews: seq<Review>, id: int): (r: seq<Review>)
    ensures forall x :: x in r <==> x in reviews && x.productId == id
    ensures Seqs.SubseqOf(r, reviews)
    ensures forall x: Review :: x.productId == id ==> multiset(r)[x] == multiset(reviews)[x]
  {
    Seqs.Filter(reviews, ForProduct(id))
  }

  /** The page title, with the card's Amharic fallback. */
  function DetailTitle(lang: Language.Lang, product: Product): (r: string)
    ensures lang == Language.Am && Present(product.titleAm) ==> r == product.titleAm.value
    ensures !(lang == Language.Am && Present(product.titleAm)) ==> r == product.title
  {
    Language.Localized(lang, product.title, product.titleAm)
  }

  /** The page description, with the same fallback. */
  function DetailDescription(lang: Language.Lang, product: Product): (r: string)
    ensures lang == Language.Am && Present(product.descriptionAm) ==> r == product.descriptionAm.value
    ensures !(lang == Language.Am && Present(product.descriptionAm)) ==> r == product.description
  {
    Language.Localized(lang, product.description, product.descriptionAm)
  }

  /**
   * The funding panel's guard `status === 'funding' && fundingGoal &&
   * currentFunding !== undefined`: a zero or missing goal hides it.
   */
  predicate FundingPanelShown(p: Product) {
    p.status == Funding && NonZero(p.fundingGoal) && p.currentFunding.Some?
  }

  /**
   * The cases of the guard: a missing or zero goal, a status other than
   * funding, or an undefined amount raised each hide the panel, and together
   * their opposites show it.
   */
  lemma FundingPanelGuard(p: Product)
    ensures p.fundingGoal.None? || p.fundingGoal == Some(0) ==> !FundingPanelShown(p)
    ensures p.status != Funding ==> !FundingPanelShown(p)
    ensures p.currentFunding.None? ==> !FundingPanelShown(p)
    ensures p.status == Funding && NonZero(p.fundingGoal) && p.currentFunding.Some? ==> FundingPanelShown(p)
  {
  }

  /**
   * The page's vote state. `localVotes` starts at 0 and the effect overwrites
   * it with `product.votes`; presses follow the card's table without a callback.
   */
  class DetailVotes {
    var voteType: Option<ProductCard.Direction>
    var localVotes: int

    /** The count with the active vote taken out: what the count would be with no vote. */
    function Offset(): int
      reads this
    {
      localVotes - ProductCard.Weight(voteType)
    }

    constructor ()
      ensures voteType == None && localVotes == 0
    {
      voteType := None;
      localVotes := 0;
    }

    /** The effect `setLocalVotes(product.votes)`: only the count is overwritten. */
    method SyncVotes(productVotes: int)
      modifies this
      ensures localVotes == productVotes && voteType == old(voteType)
    {
      localVotes := productVotes;
    }

    /** `handleVote(type)`: nothing without a user, else the card's transition. */
    method HandleVote(user: Option<User>, pressed: ProductCard.Direction)
      modifies this
      ensures user.None? ==> voteType == old(voteType) && localVotes == old(localVotes)
      ensures user.Some? ==> voteType == ProductCard.PressButton(old(voteType), pressed).vote
                             && localVotes == old(localVotes) + ProductCard.PressButton(old(voteType), pressed).delta
      ensures Offset() == old(Offset())
    {
      if user.None? {
        return;
      }
      if voteType == Some(pressed) {
        localVotes := if pressed == ProductCard.Up then localVotes - 1 else localVotes + 1;
        voteType := None;
      } else {
        var change := if voteType == None then (if pressed == ProductCard.Up then 1 else -1)
                      else (if pressed == ProductCard.Up then 2 else -2);
        localVotes := localVotes + change;
        voteType := Some(pressed);
      }
    }
  }

  /** After the sync effect with no vote, every later press keeps the count at `product.votes` plus the vote's weight. */
  method OpenAndVote(product: Product, user: Option<User>, presses: seq<ProductCard.Direction>) returns (v: DetailVotes)
    ensures fresh(v)
    ensures v.localVotes == product.votes + ProductCard.Weight(v.voteType)
  {
    v := new DetailVotes();
    v.SyncVotes(product.votes);
    var i := 0;
    while i < |presses|
      invariant 0 <= i <= |presses|
      invariant v.Offset() == product.votes
    {
      v.HandleVote(user, presses[i]);
      i := i + 1;
    }
  }
}
