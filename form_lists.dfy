/**
 * The list editors shared by the two submission wizards
 * (src/pages/GovernmentSubmit.tsx `addToArray` / `removeFromArray`,
 * src/pages/Submit.tsx `addTag` / `removeTag` and their siblings):
 * add a trimmed, non-blank, absent value and clear the input; remove every
 * equal value. Also the 1..4 step range both wizards keep.
 */
module FormLists {

  import opened Text
  import Seqs

  /** Entries are trimmed, non-empty and pairwise distinct. */
  predicate Clean(list: seq<string>) {
    (forall i :: 0 <= i < |list| ==> list[i] != [] && IsTrimmed(list[i]))
    && Distinct(list)
  }

  predicate Distinct(list: seq<string>) {
    forall i, j :: 0 <= i < j < |list| ==> list[i] != list[j]
  }

  /** The list and the input box after an add. */
  datatype Added = Added(list: seq<string>, input: string)

  /**
   * One add: blank input changes nothing; a trimmed value already present
   * changes nothing and leaves the input as typed; otherwise the trimmed
   * value goes at the end and the input is cleared.
   */
  function AddEntry(list: seq<string>, input: string): (r: Added)
    ensures IsBlank(input) ==> r == Added(list, input)
    ensures !IsBlank(input) && Trim(input) in list ==> r == Added(list, input)
    ensures !IsBlank(input) && Trim(input) !in list ==> r.list == list + [Trim(input)] && r.input == []
    ensures r.list[..|list|] == list
  {
    var v := Trim(input);
    if v == [] then Added(list, input)
    else if v in list then Added(list, input)
    else Added(list + [v], [])
  }

  function IsNot(v: string): string -> bool {
    x => x != v
  }

  /** `list.filter(item => item !== v)`. */
  function RemoveAll(list: seq<string>, v: string): (r: seq<string>)
    ensures v !in r
    ensures forall x :: x in r <==> x in list && x != v
    ensures forall x :: x != v ==> multiset(r)[x] == multiset(list)[x]
    ensures Seqs.SubseqOf(r, list)
  {
    Seqs.Filter(list, IsNot(v))
  }

  /** Removing an absent value leaves the list as it is. */
  lemma RemoveAbsent(list: seq<string>, v: string)
    requires v !in list
    ensures RemoveAll(list, v) == list
  {
    Seqs.FilterKeepsAll(list, IsNot(v));
  }

  /** Add keeps a clean list clean. */
  lemma AddKeepsClean(list: seq<string>, input: string)
    requires Clean(list)
    ensures Clean(AddEntry(list, input).list)
  {
    var v := Trim(input);
    TrimIsTrimmed(input);
    var r := AddEntry(list, input).list;
    if v != [] && v !in list {
      assert r == list + [v];
      assert forall i :: 0 <= i < |list| ==> r[i] == list[i];
    }
  }

  lemma DistinctTail(list: seq<string>)
    requires list != [] && Distinct(list)
    ensures Distinct(list[1..]) && list[0] !in list[1..]
  {
    var tail := list[1..];
    forall i, j | 0 <= i < j < |tail| ensures tail[i] != tail[j] {
      assert tail[i] == list[i + 1] && tail[j] == list[j + 1];
    }
    forall k | 0 <= k < |tail| ensures tail[k] != list[0] {
      assert tail[k] == list[k + 1];
    }
  }

  lemma DistinctCons(a: string, rest: seq<string>)
    requires Distinct(rest) && a !in rest
    ensures Distinct([a] + rest)
  {
    var r := [a] + rest;
    forall i, j | 0 <= i < j < |r| ensures r[i] != r[j] {
      assert r[j] == rest[j - 1];
      if i > 0 {
        assert r[i] == rest[i - 1];
      }
    }
  }

  lemma {:induction false} FilterKeepsDistinct(list: seq<string>, p: string -> bool)
    requires Distinct(list)
    ensures Distinct(Seqs.Filter(list, p))
  {
    if list != [] {
      DistinctTail(list);
      FilterKeepsDistinct(list[1..], p);
      if p(list[0]) {
        DistinctCons(list[0], Seqs.Filter(list[1..], p));
      }
    }
  }

  /** Remove keeps a clean list clean. */
  lemma RemoveKeepsClean(list: seq<string>, v: string)
    requires Clean(list)
    ensures Clean(RemoveAll(list, v))
  {
    FilterKeepsDistinct(list, IsNot(v));
    var r := RemoveAll(list, v);
    forall i | 0 <= i < |r| ensures r[i] != [] && IsTrimmed(r[i]) {
      assert r[i] in list;
    }
  }

  /** Adding a fresh value and then removing it restores the list. */
  lemma AddThenRemove(list: seq<string>, input: string)
    requires !IsBlank(input) && Trim(input) !in list
    ensures RemoveAll(AddEntry(list, input).list, Trim(input)) == list
  {
    var v := Trim(input);
    Seqs.FilterAppend(list, [v], IsNot(v));
    RemoveAbsent(list, v);
    assert Seqs.Filter([v], IsNot(v)) == [];
  }

  /** Every list of a form is clean. */
  predicate AllClean<K>(lists: map<K, seq<string>>) {
    forall f :: f in lists ==> Clean(lists[f])
  }

  lemma UpdateKeepsClean<K>(lists: map<K, seq<string>>, field: K, list: seq<string>)
    requires AllClean(lists) && Clean(list)
    ensures AllClean(lists[field := list])
  {
  }

  lemma AddKeepsAllClean<K>(lists: map<K, seq<string>>, field: K, value: string)
    requires AllClean(lists) && field in lists
    ensures AllClean(lists[field := AddEntry(lists[field], value).list])
  {
    AddKeepsClean(lists[field], value);
  }

  const FirstStep := 1
  const LastStep := 4

  predicate StepInRange(step: int) {
    FirstStep <= step <= LastStep
  }
}
