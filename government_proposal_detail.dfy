/**
 * The proposal detail page (src/pages/GovernmentProposalDetail.tsx): lookup by
 * route id, the larger status icons, the key objectives, the numbered
 * requirements and the role-gated actions. The badge colours are the card's.
 */
module GovernmentProposalDetail {

  import opened Common
  import opened Types
  import Seqs
  import ProposalCard
  import Language

  function HasId(id: int): Proposal -> bool {
    (p: Proposal) => p.id == id
  }

  /** `find(p => p.id === id)`: the first proposal with the route id, or the not-found branch. */
  function FindProposal(proposals: seq<Proposal>, id: int): (r: Option<Proposal>)
    ensures r.Some? ==> r.value in proposals && r.value.id == id
    ensures r.None? <==> forall p :: p in proposals ==> p.id != id
    ensures r.Some? ==> exists i :: 0 <= i < |proposals| && proposals[i] == r.value
                                    && forall j :: 0 <= j < i ==> proposals[j].id != id
  {
    Seqs.FindFirst(proposals, HasId(id))
  }

  /** `getStatusIcon` on the detail page: the card's glyphs in the 400 shade; slate for an unknown status. */
  function DetailStatusIcon(status: string): (r: ProposalCard.Icon)
    ensures r.glyph == ProposalCard.StatusGlyph(status)
    ensures status !in ProposalCard.Statuses ==> r == ProposalCard.Icon(ProposalCard.FileText, "text-slate-400")
    ensures status in ProposalCard.Statuses ==> r.color == ProposalCard.IconColor(ProposalCard.KnownHue(status).value, "400")
  {
    ProposalCard.Icon(ProposalCard.StatusGlyph(status),
                      ProposalCard.IconColor(ProposalCard.KnownHue(status).GetOr("slate"), "400"))
  }

  /** The detail page and the card agree on the glyph for every status, and on the hue for every known one. */
  lemma SameIconAsCard(status: string)
    ensures DetailStatusIcon(status).glyph == ProposalCard.CardStatusIcon(status).glyph
    ensures status in ProposalCard.Statuses ==>
              exists hue :: DetailStatusIcon(status).color == ProposalCard.IconColor(hue, "400")
                         && ProposalCard.CardStatusIcon(status).color == ProposalCard.IconColor(hue, "500")
  {
    if status in ProposalCard.Statuses {
      var hue := ProposalCard.KnownHue(status).value;
      assert DetailStatusIcon(status).color == ProposalCard.IconColor(hue, "400");
    }
  }

  /** The page's title and description, with the card's Amharic fallback. */
  function DetailTitle(lang: Language.Lang, p: Proposal): (r: string)
    ensures lang == Language.Am && Present(p.titleAm) ==> r == p.titleAm.value
    ensures !(lang == Language.Am && Present(p.titleAm)) ==> r == p.title
  {
    Language.Localized(lang, p.title, p.titleAm)
  }

  function DetailDescription(lang: Language.Lang, p: Proposal): (r: string)
    ensures lang == Language.Am && Present(p.descriptionAm) ==> r == p.descriptionAm.value
    ensures !(lang == Language.Am && Present(p.descriptionAm)) ==> r == p.description
  {
    Language.Localized(lang, p.description, p.descriptionAm)
  }

  /** `requirements.slice(0, 5)`: the first five objectives, or all when fewer. */
  function KeyObjectives(requirements: seq<string>): (r: seq<string>)
    ensures |r| == if |requirements| < 5 then |requirements| else 5
    ensures forall i :: 0 <= i < |r| ==> r[i] == requirements[i]
  {
    Seqs.Take(requirements, 5)
  }

  /** `requirements.map((req, index) => ...)` with the badge `index + 1`. */
  function NumberedRequirements(requirements: seq<string>): (r: seq<(nat, string)>)
    ensures |r| == |requirements|
    ensures forall i :: 0 <= i < |r| ==> r[i].1 == requirements[i]
  {
    seq(|requirements|, i requires 0 <= i < |requirements| => (i + 1, requirements[i]))
  }

  /** The numbers run 1..n without gaps, so the last one equals the header's requirement count. */
  lemma NumbersRunOneToN(requirements: seq<string>)
    ensures forall i :: 0 <= i < |requirements| ==> NumberedRequirements(requirements)[i].0 == i + 1
    ensures |requirements| > 0 ==> NumberedRequirements(requirements)[|requirements| - 1].0 == |requirements|
  {
  }

  /** Accept and Decline render only for a signed-in user with the government role. */
  function ActionsShown(user: Option<User>): (shown: bool)
    ensures shown <==> user.Some? && user.value.role == Government
  {
    user.Some? && user.value.role == Government
  }
}
