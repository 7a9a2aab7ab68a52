/**
 * The government proposals listing (src/pages/Government.tsx): the status
 * filter, the sort of a copy, the result-count line and the submit link.
 */
module Government {

  import opened Common
  import opened Text
  import opened Types
  import Seqs
  import Language

  function HasStatus(status: string): Proposal -> bool {
    (p: Proposal) => p.status == status
  }

  /** 'all' shows every proposal; any other value exactly those whose status equals it, in order. */
  function StatusFilter(proposals: seq<Proposal>, status: string): (r: seq<Proposal>)
    ensures status == "all" ==> r == proposals
    ensures status != "all" ==> forall p :: p in r <==> p in proposals && p.status == status
    ensures status != "all" ==> forall p: Proposal :: p.status == status ==> multiset(r)[p] == multiset(proposals)[p]
    ensures Seqs.SubseqOf(r, proposals)
  {
    if status == "all" then
      Seqs.SubseqOfSelf(proposals);
      proposals
    else Seqs.Filter(proposals, HasStatus(status))
  }

  /** The comparator's key: by submission time, by budget, or 0 for every pair. */
  function ProposalKey(sortBy: string): Proposal -> int {
    match sortBy
    case "recent" => (p: Proposal) => p.submittedAt
    case "budget" => (p: Proposal) => p.budget
    case _ => (p: Proposal) => 0
  }

  /** `[...filtered].sort(...)`: a stable descending sort of a copy. */
  function SortedProposals(proposals: seq<Proposal>, status: string, sortBy: string): (r: seq<Proposal>)
    ensures multiset(r) == multiset(StatusFilter(proposals, status))
    ensures |r| == |StatusFilter(proposals, status)|
    ensures Seqs.SortedDesc(r, ProposalKey(sortBy))
  {
    Seqs.SortDesc(StatusFilter(proposals, status), ProposalKey(sortBy))
  }

  /** 'budget' orders by non-increasing budget and 'recent' by non-increasing submission time. */
  lemma SortedByChoice(proposals: seq<Proposal>, status: string, sortBy: string)
    ensures var r := SortedProposals(proposals, status, sortBy);
            sortBy == "budget" ==> forall i, j :: 0 <= i < j < |r| ==> r[i].budget >= r[j].budget
    ensures var r := SortedProposals(proposals, status, sortBy);
            sortBy == "recent" ==> forall i, j :: 0 <= i < j < |r| ==> r[i].submittedAt >= r[j].submittedAt
  {
    var r := SortedProposals(proposals, status, sortBy);
    assert Seqs.SortedDesc(r, ProposalKey(sortBy));
  }

  /** Any other sort choice keeps the filtered order. */
  lemma UnknownSortKeepsOrder(proposals: seq<Proposal>, status: string, sortBy: string)
    requires sortBy != "recent" && sortBy != "budget"
    ensures SortedProposals(proposals, status, sortBy) == StatusFilter(proposals, status)
  {
    var key := ProposalKey(sortBy);
    assert forall p :: key(p) == 0;
    Seqs.SortDescConstantKey(StatusFilter(proposals, status), key, 0);
  }

  /** "Showing n proposal(s)": the singular only for exactly one result. */
  function CountLine(n: nat): (r: string)
    ensures r == "Showing " + NatToString(n) + (if n == 1 then " proposal" else " proposals")
  {
    "Showing " + NatToString(n) + " proposal" + PluralSuffix(n == 1)
  }

  /** The results line: the count, then the translated status when a filter is on. */
  function ResultsLine(n: nat, status: string, lang: Language.Lang): (r: string)
    ensures status == "all" ==> r == CountLine(n)
    ensures status != "all" ==> r == CountLine(n) + " with status: " + Language.Translate(lang, "gov.status." + status)
  {
    if status == "all" then CountLine(n)
    else CountLine(n) + " with status: " + Language.Translate(lang, "gov.status." + status)
  }

  /** The count reads "proposal" only for exactly one result. */
  lemma SingularOnlyForOne(n: nat)
    ensures var r := CountLine(n); (r[|r| - 1] == 's') <==> n != 1
    ensures CountLine(1) == "Showing 1 proposal"
  {
    var r := CountLine(n);
    var tail := if n == 1 then " proposal" else " proposals";
    assert r == ("Showing " + NatToString(n)) + tail;
    assert r[|r| - 1] == tail[|tail| - 1];
    assert NatToString(1) == "1";
  }

  /** The submit link appears exactly when someone is signed in. */
  function SubmitLinkShown(user: Option<User>): (shown: bool)
    ensures shown <==> user.Some?
  {
    user.Some?
  }
}
