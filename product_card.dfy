/**
 * The product card's per-user vote toggle (src/components/Product/ProductCard.tsx):
 * the `voteType` / `localVotes` pair, the transition table of `handleVote`,
 * the `onVote` callback, and the localized title.
 */
module ProductCard {

  import opened Common
  import opened Types
  import Language

  /** The button pressed. */
  datatype Direction = Up | Down

  /** How much an active vote adds to the displayed count: up 1, down -1, none 0. */
  function Weight(vote: Option<Direction>): int {
    match vote
    case None => 0
    case Some(Up) => 1
    case Some(Down) => -1
  }

  /** What one press by a signed-in user does: the new vote, the change to the count, and whether `onVote` fires. */
  datatype Press = Press(vote: Option<Direction>, delta: int, notifies: bool)

  /**
   * The transition table of `handleVote`: pressing the active button retracts
   * it, any other press casts or switches to the pressed direction.
   */
  function PressButton(vote: Option<Direction>, pressed: Direction): (r: Press)
    ensures r.delta == Weight(r.vote) - Weight(vote)
    ensures r.vote == if vote == Some(pressed) then None else Some(pressed)
    ensures r.notifies <==> vote != Some(pressed)
  {
    if vote == Some(pressed) then
      Press(None, if pressed == Up then -1 else 1, false)
    else
      var change := if vote == None then (if pressed == Up then 1 else -1)
                    else (if pressed == Up then 2 else -2);
      Press(Some(pressed), change, true)
  }

  /** From no vote, up adds 1 and down subtracts 1, and the pressed direction becomes active. */
  lemma CastFromNone(pressed: Direction)
    ensures PressButton(None, pressed).vote == Some(pressed)
    ensures PressButton(None, pressed).delta == (if pressed == Up then 1 else -1)
    ensures PressButton(None, pressed).notifies
  {
  }

  /** Pressing the active direction retracts it: up -1, down +1, no callback. */
  lemma RetractSame(pressed: Direction)
    ensures PressButton(Some(pressed), pressed).vote == None
    ensures PressButton(Some(pressed), pressed).delta == (if pressed == Up then -1 else 1)
    ensures !PressButton(Some(pressed), pressed).notifies
  {
  }

  /** Switching from the opposite direction moves the count by 2 toward the new one. */
  lemma SwitchOpposite(from: Direction, pressed: Direction)
    requires from != pressed
    ensures PressButton(Some(from), pressed).vote == Some(pressed)
    ensures PressButton(Some(from), pressed).delta == (if pressed == Up then 2 else -2)
    ensures PressButton(Some(from), pressed).notifies
  {
  }

  /**
   * Pressing the same button twice restores the vote and cancels out on the
   * count, when the first press casts or retracts.
   */
  lemma PressTwiceRestores(vote: Option<Direction>, pressed: Direction)
    requires vote == None || vote == Some(pressed)
    ensures PressButton(PressButton(vote, pressed).vote, pressed).vote == vote
    ensures PressButton(vote, pressed).delta + PressButton(PressButton(vote, pressed).vote, pressed).delta == 0
  {
  }

  /**
   * When the opposite vote is active, two presses do not restore it: the first
   * switches, the second retracts, and the count ends one away from where it was.
   */
  lemma PressTwiceAfterSwitch(pressed: Direction)
    ensures var from := if pressed == Up then Down else Up;
            var first := PressButton(Some(from), pressed);
            var second := PressButton(first.vote, pressed);
            second.vote == None && first.delta + second.delta == (if pressed == Up then 1 else -1)
  {
  }

  /** The vote and count after a sequence of presses by a signed-in user. */
  function Replay(vote: Option<Direction>, count: int, presses: seq<Direction>): (Option<Direction>, int)
    decreases |presses|
  {
    if presses == [] then (vote, count)
    else
      var p := PressButton(vote, presses[0]);
      Replay(p.vote, count + p.delta, presses[1..])
  }

  /**
   * Vote conservation: whatever the presses, the count stays the product's
   * votes plus the weight of the vote that ends up active.
   */
  lemma {:induction false} ReplayConserves(base: int, vote: Option<Direction>, count: int, presses: seq<Direction>)
    requires count == base + Weight(vote)
    ensures Replay(vote, count, presses).1 == base + Weight(Replay(vote, count, presses).0)
    ensures base - 1 <= Replay(vote, count, presses).1 <= base + 1
    decreases |presses|
  {
    if presses != [] {
      var p := PressButton(vote, presses[0]);
      ReplayConserves(base, p.vote, count + p.delta, presses[1..]);
    }
  }

  /** The card's vote state: `voteType` and `localVotes`, seeded from `product.votes`. */
  class CardVotes {
    const productId: int
    const baseVotes: int
    var voteType: Option<Direction>
    var localVotes: int

    /** The count shown is the product's votes plus the active vote's weight. */
    ghost predicate Valid()
      reads this
    {
      localVotes == baseVotes + Weight(voteType)
    }

    constructor (product: Product)
      ensures productId == product.id && baseVotes == product.votes
      ensures voteType == None && localVotes == product.votes
      ensures Valid()
    {
      productId := product.id;
      baseVotes := product.votes;
      voteType := None;
      localVotes := product.votes;
    }

    /**
     * `handleVote(type)`: nothing without a signed-in user; otherwise the
     * transition table, and `onVote(product.id)` on a cast or a switch.
     */
    method HandleVote(user: Option<User>, pressed: Direction) returns (onVote: Option<int>)
      requires Valid()
      modifies this
      ensures Valid()
      ensures user.None? ==> voteType == old(voteType) && localVotes == old(localVotes) && onVote == None
      ensures user.Some? ==> voteType == PressButton(old(voteType), pressed).vote
                             && localVotes == old(localVotes) + PressButton(old(voteType), pressed).delta
      ensures user.Some? ==> (onVote == if PressButton(old(voteType), pressed).notifies then Some(productId) else None)
    {
      onVote := None;
      if user.None? {
        return;
      }
      if voteType == Some(pressed) {
        localVotes := if pressed == Up then localVotes - 1 else localVotes + 1;
        voteType := None;
      } else {
        var change := if voteType == None then (if pressed == Up then 1 else -1)
                      else (if pressed == Up then 2 else -2);
        localVotes := localVotes + change;
        voteType := Some(pressed);
        onVote := Some(productId);
      }
    }
  }

  /** The card's title: the Amharic one only when Amharic is selected and the product has one. */
  function CardTitle(lang: Language.Lang, product: Product): (r: string)
    ensures lang == Language.Am && Present(product.titleAm) ==> r == product.titleAm.value
    ensures !(lang == Language.Am && Present(product.titleAm)) ==> r == product.title
  {
    Language.Localized(lang, product.title, product.titleAm)
  }

  /** The card's description, with the same fallback as the title. */
  function CardDescription(lang: Language.Lang, product: Product): (r: string)
    ensures lang == Language.Am && Present(product.descriptionAm) ==> r == product.descriptionAm.value
    ensures !(lang == Language.Am && Present(product.descriptionAm)) ==> r == product.description
  {
    Language.Localized(lang, product.description, product.descriptionAm)
  }
}
