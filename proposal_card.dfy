/**
 * The proposal card (src/components/Government/ProposalCard.tsx): the status
 * icon and badge colour, the three-requirement preview, the localized title
 * and the review-notes box.
 */
module ProposalCard {

  import opened Common
  import opened Types
  import Language

  /** The icon glyphs the status switches choose from. */
  datatype Glyph = FileText | AlertCircle | CheckCircle | XCircle

  /** An icon: its glyph and its colour class. */
  datatype Icon = Icon(glyph: Glyph, color: string)

  const Statuses: seq<string> := ["submitted", "under_review", "accepted", "declined"]

  /** The glyph for a status; any other value gets the document glyph. */
  function StatusGlyph(status: string): (g: Glyph)
    ensures status !in Statuses ==> g == FileText
  {
    match status
    case "submitted" => FileText
    case "under_review" => AlertCircle
    case "accepted" => CheckCircle
    case "declined" => XCircle
    case _ => FileText
  }

  /** The colour family of a known status; the switches fall back to their own default for any other value. */
  function KnownHue(status: string): (r: Option<string>)
    ensures r.None? <==> status !in Statuses
  {
    match status
    case "submitted" => Some("blue")
    case "under_review" => Some("yellow")
    case "accepted" => Some("green")
    case "declined" => Some("red")
    case _ => None
  }

  /** An icon class `text-<hue>-<shade>`. */
  function IconColor(hue: string, shade: string): string {
    "text-" + hue + "-" + shade
  }

  /** `getStatusIcon` on the card: the glyph in the 500 shade; gray for an unknown status. */
  function CardStatusIcon(status: string): (r: Icon)
    ensures r.glyph == StatusGlyph(status)
    ensures status !in Statuses ==> r == Icon(FileText, "text-gray-500")
    ensures status in Statuses ==> r.color == IconColor(KnownHue(status).value, "500")
  {
    Icon(StatusGlyph(status), IconColor(KnownHue(status).GetOr("gray"), "500"))
  }

  /** The badge classes `bg-<hue>-500/20 text-<hue>-300 border-<hue>-500/30`. */
  function Badge(hue: string): (r: string)
    ensures |r| == 3 * |hue| + 35
    ensures r[3..3 + |hue|] == hue
  {
    var r := "bg-" + hue + "-500/20 text-" + hue + "-300 border-" + hue + "-500/30";
    assert r[3..3 + |hue|] == hue;
    r
  }

  /** Different hues give different badges. */
  lemma BadgeInjective(h1: string, h2: string)
    requires h1 != h2
    ensures Badge(h1) != Badge(h2)
  {
    if |h1| == |h2| {
      assert Badge(h1)[3..3 + |h1|] != Badge(h2)[3..3 + |h2|];
    }
  }

  const DefaultColor := Badge("slate")

  /** `getStatusColor`: the badge classes; slate for an unknown status. */
  function StatusColor(status: string): (r: string)
    ensures status !in Statuses ==> r == DefaultColor
    ensures status in Statuses ==> r == Badge(KnownHue(status).value)
  {
    Badge(KnownHue(status).GetOr("slate"))
  }

  /** Each of the four statuses has its own badge colour and icon, none of them the default. */
  lemma StatusesDistinguished(s: string, t: string)
    requires s in Statuses && t in Statuses && s != t
    ensures StatusColor(s) != StatusColor(t) && StatusColor(s) != DefaultColor
    ensures CardStatusIcon(s) != CardStatusIcon(t) && CardStatusIcon(s).color != "text-gray-500"
  {
    var hs, ht := KnownHue(s).value, KnownHue(t).value;
    assert hs != ht && hs != "slate" && hs != "gray";
    BadgeInjective(hs, ht);
    BadgeInjective(hs, "slate");
    assert CardStatusIcon(s).glyph != CardStatusIcon(t).glyph;
    assert IconColor(hs, "500")[5..5 + |hs|] == hs;
    assert "text-gray-500"[5..9] == "gray";
  }

  /** The requirement preview: the first three in order, and "+k more" when more are left. */
  datatype Preview = Preview(shown: seq<string>, more: Option<nat>)

  function RequirementPreview(requirements: seq<string>): (r: Preview)
    ensures |r.shown| == if |requirements| < 3 then |requirements| else 3
    ensures forall i :: 0 <= i < |r.shown| ==> r.shown[i] == requirements[i]
    ensures r.more.Some? <==> |requirements| > 3
  {
    var n := |requirements|;
    Preview(if n <= 3 then requirements else requirements[..3],
            if n > 3 then Some(n - 3) else None)
  }

  /** The preview accounts for every requirement: those shown plus the "+k more" count make up the list. */
  lemma PreviewAccountsForAll(requirements: seq<string>)
    ensures |RequirementPreview(requirements).shown| + RequirementPreview(requirements).more.GetOr(0) == |requirements|
    ensures RequirementPreview(requirements).more.Some? ==> RequirementPreview(requirements).shown + requirements[3..] == requirements
  {
  }

  /** The card's title and description: Amharic only when selected and present. */
  function ProposalTitle(lang: Language.Lang, p: Proposal): (r: string)
    ensures lang == Language.Am && Present(p.titleAm) ==> r == p.titleAm.value
    ensures !(lang == Language.Am && Present(p.titleAm)) ==> r == p.title
  {
    Language.Localized(lang, p.title, p.titleAm)
  }

  function ProposalDescription(lang: Language.Lang, p: Proposal): (r: string)
    ensures lang == Language.Am && Present(p.descriptionAm) ==> r == p.descriptionAm.value
    ensures !(lang == Language.Am && Present(p.descriptionAm)) ==> r == p.description
  {
    Language.Localized(lang, p.description, p.descriptionAm)
  }

  /** The review-notes box appears exactly when there are notes to show (a missing or empty note hides it). */
  function ReviewNotesShown(p: Proposal): (shown: bool)
    ensures shown <==> p.reviewNotes.Some? && p.reviewNotes.value != []
  {
    Present(p.reviewNotes)
  }
}
