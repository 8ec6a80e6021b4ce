/**
 * The two list filters of `internal/tui/app.go`: `getRequirementItems`,
 * which keeps the requirements that pass every set filter, and the `Filter`
 * closure `initList` installs, which keeps the targets containing the search
 * term.  Both keep the elements that pass a test, in their order; `Keep` and
 * `KeptIndices` say that once.
 */
module Filters {
  import opened Text
  import opened Model
  import opened ListItem

  /** The elements of `s` that pass `p`, in order. */
  function Keep<T>(s: seq<T>, p: T -> bool): (r: seq<T>)
    ensures |r| <= |s|
    ensures forall i :: 0 <= i < |r| ==> p(r[i])
    decreases |s|
  {
    if s == [] then [] else Keep(s[..|s| - 1], p) + (if p(s[|s| - 1]) then [s[|s| - 1]] else [])
  }

  /** The positions of the elements of `s` that pass `p`, ascending. */
  function KeptIndices<T>(s: seq<T>, p: T -> bool): seq<nat>
    decreases |s|
  {
    if s == [] then [] else KeptIndices(s[..|s| - 1], p) + (if p(s[|s| - 1]) then [|s| - 1] else [])
  }

  /** `0, 1, ..., n - 1`. */
  function Range(n: nat): (r: seq<nat>)
    ensures |r| == n && forall i :: 0 <= i < n ==> r[i] == i
  {
    seq(n, i requires 0 <= i < n => i)
  }

  /**
   * `KeptIndices` picks exactly the passing positions, in strictly ascending
   * order, and `Keep` is the elements at those positions: the kept elements
   * are the order-preserving subsequence of the passing ones.
   */
  lemma {:induction false} KeepPicksIndices<T>(s: seq<T>, p: T -> bool)
    ensures var idx := KeptIndices(s, p);
      |idx| == |Keep(s, p)| &&
      (forall k :: 0 <= k < |idx| ==> idx[k] < |s| && Keep(s, p)[k] == s[idx[k]]) &&
      (forall k, l :: 0 <= k < l < |idx| ==> idx[k] < idx[l]) &&
      (forall i :: 0 <= i < |s| ==> (i in idx <==> p(s[i])))
    decreases |s|
  {
    if s != [] {
      var n := |s| - 1;
      var pre, x := s[..n], s[n];
      KeepPicksIndices(pre, p);
      var idx, kept := KeptIndices(pre, p), Keep(pre, p);
      assert PicksIndices(pre, p, idx, kept);
      assert s == pre + [x];
      PicksIndicesSnoc(pre, x, p, idx, kept);
    }
  }

  /** `idx` picks the positions of `s` that pass `p`, ascending, and `kept` holds the elements there. */
  ghost predicate PicksIndices<T>(s: seq<T>, p: T -> bool, idx: seq<nat>, kept: seq<T>) {
    |idx| == |kept| &&
    (forall k :: 0 <= k < |idx| ==> idx[k] < |s| && kept[k] == s[idx[k]]) &&
    (forall k, l :: 0 <= k < l < |idx| ==> idx[k] < idx[l]) &&
    (forall i :: 0 <= i < |s| ==> (i in idx <==> p(s[i])))
  }

  lemma PicksIndicesSnoc<T>(pre: seq<T>, x: T, p: T -> bool, idx: seq<nat>, kept: seq<T>)
    requires PicksIndices(pre, p, idx, kept)
    ensures PicksIndices(pre + [x], p, idx + (if p(x) then [|pre|] else []), kept + (if p(x) then [x] else []))
  {
    var n := |pre|;
    assert forall i :: 0 <= i < n ==> (pre + [x])[i] == pre[i];
    assert n !in idx;
  }

  lemma KeepSnoc<T>(s: seq<T>, x: T, p: T -> bool)
    ensures Keep(s + [x], p) == Keep(s, p) + (if p(x) then [x] else [])
  {
    assert (s + [x])[..|s|] == s;
  }

  /** `Keep` on a list of four, element by element. */
  lemma KeepFour<T>(a: T, b: T, c: T, d: T, p: T -> bool)
    ensures Keep([a, b, c, d], p) ==
      (if p(a) then [a] else []) + (if p(b) then [b] else []) + (if p(c) then [c] else []) + (if p(d) then [d] else [])
  {
    KeepSnoc([], a, p);
    assert [] + [a] == [a];
    KeepSnoc([a], b, p);
    assert [a] + [b] == [a, b];
    KeepSnoc([a, b], c, p);
    assert [a, b] + [c] == [a, b, c];
    KeepSnoc([a, b, c], d, p);
    assert [a, b, c] + [d] == [a, b, c, d];
  }

  /** An element is kept exactly when it is in `s` and passes. */
  lemma KeepMembers<T>(s: seq<T>, p: T -> bool, x: T)
    ensures x in Keep(s, p) <==> x in s && p(x)
  {
    KeepPicksIndices(s, p);
    var idx := KeptIndices(s, p);
    if x in s && p(x) {
      var i :| 0 <= i < |s| && s[i] == x;
      var k :| 0 <= k < |idx| && idx[k] == i;
      assert Keep(s, p)[k] == x;
    }
  }

  /** A test everything passes keeps everything. */
  lemma {:induction false} KeepAll<T>(s: seq<T>, p: T -> bool)
    requires forall i :: 0 <= i < |s| ==> p(s[i])
    ensures Keep(s, p) == s
    ensures KeptIndices(s, p) == Range(|s|)
    decreases |s|
  {
    if s != [] {
      var n := |s| - 1;
      KeepAll(s[..n], p);
      assert s == s[..n] + [s[n]];
      assert Range(n + 1) == Range(n) + [n];
    }
  }

  /** Filtering twice with the same test is filtering once. */
  lemma {:induction false} KeepIdempotent<T>(s: seq<T>, p: T -> bool)
    ensures Keep(Keep(s, p), p) == Keep(s, p)
  {
    KeepPicksIndices(s, p);
    var out := Keep(s, p);
    forall i | 0 <= i < |out|
      ensures p(out[i])
    {
      KeepMembers(s, p, out[i]);
    }
    KeepAll(out, p);
  }

  // ---- getRequirementItems ----

  /** Whether a requirement passes every set filter; an empty filter restricts nothing. */
  predicate Passes(r: Requirement, documentFilter: Str, keywordFilter: Str, affectsFilter: Str): (b: bool)
    ensures documentFilter == "" && keywordFilter == "" && affectsFilter == "" ==> b
    ensures b && documentFilter != "" ==> r.documentCode == documentFilter
  {
    (documentFilter == "" || r.documentCode == documentFilter) &&
    (keywordFilter == "" || r.primaryKeyWord == keywordFilter) &&
    (affectsFilter == "" || affectsFilter in r.affects)
  }

  /** Clearing any one filter keeps every requirement that passed, as the `f` key relies on. */
  lemma PassesClearing(r: Requirement, documentFilter: Str, keywordFilter: Str, affectsFilter: Str)
    requires Passes(r, documentFilter, keywordFilter, affectsFilter)
    ensures Passes(r, "", keywordFilter, affectsFilter)
    ensures Passes(r, documentFilter, "", affectsFilter)
    ensures Passes(r, documentFilter, keywordFilter, "")
  {
  }

  function RequirementTest(documentFilter: Str, keywordFilter: Str, affectsFilter: Str): Requirement -> bool {
    r => Passes(r, documentFilter, keywordFilter, affectsFilter)
  }

  /** The requirements the requirements view lists. */
  function Filtered(reqs: seq<Requirement>, documentFilter: Str, keywordFilter: Str, affectsFilter: Str): (out: seq<Requirement>)
    ensures |out| <= |reqs|
    ensures forall i :: 0 <= i < |out| ==> Passes(out[i], documentFilter, keywordFilter, affectsFilter)
  {
    Keep(reqs, RequirementTest(documentFilter, keywordFilter, affectsFilter))
  }

  /** One row per requirement. */
  function RequirementRows(reqs: seq<Requirement>): (items: seq<Item>)
    ensures |items| == |reqs| && forall i :: 0 <= i < |reqs| ==> items[i] == RequirementItem(reqs[i])
  {
    seq(|reqs|, i requires 0 <= i < |reqs| => RequirementItem(reqs[i]))
  }

  /** `getRequirementItems`: the loop over the requirements, with the inner search of `Affects`. */
  method GetRequirementItems(reqs: seq<Requirement>, documentFilter: Str, keywordFilter: Str, affectsFilter: Str)
    returns (items: seq<Item>)
    ensures items == RequirementRows(Filtered(reqs, documentFilter, keywordFilter, affectsFilter))
  {
    var test := RequirementTest(documentFilter, keywordFilter, affectsFilter);
    items := [];
    for i := 0 to |reqs|
      invariant items == RequirementRows(Keep(reqs[..i], test))
    {
      var r := reqs[i];
      assert reqs[..i + 1][..i] == reqs[..i];
      if documentFilter != "" && r.documentCode != documentFilter {
        continue;
      }
      if keywordFilter != "" && r.primaryKeyWord != keywordFilter {
        continue;
      }
      if affectsFilter != "" {
        var found := false;
        var j := 0;
        while j < |r.affects|
          invariant 0 <= j <= |r.affects|
          invariant found ==> affectsFilter in r.affects
          invariant !found ==> affectsFilter !in r.affects[..j]
        {
          if r.affects[j] == affectsFilter {
            found := true;
            break;
          }
          assert r.affects[..j + 1] == r.affects[..j] + [r.affects[j]];
          j := j + 1;
        }
        if !found {
          assert r.affects[..j] == r.affects;
          continue;
        }
      }
      items := items + [RequirementItem(r)];
    }
    assert reqs[..|reqs|] == reqs;
  }

  /**
   * The requirements view lists the order-preserving subsequence of the
   * requirements that pass every set filter: the rows are the requirements
   * at the passing positions, ascending.
   */
  lemma FilteredSubsequence(reqs: seq<Requirement>, documentFilter: Str, keywordFilter: Str, affectsFilter: Str)
    ensures var test := RequirementTest(documentFilter, keywordFilter, affectsFilter);
      var idx := KeptIndices(reqs, test);
      var out := Filtered(reqs, documentFilter, keywordFilter, affectsFilter);
      |idx| == |out| &&
      (forall k :: 0 <= k < |idx| ==> idx[k] < |reqs| && out[k] == reqs[idx[k]]) &&
      (forall k, l :: 0 <= k < l < |idx| ==> idx[k] < idx[l]) &&
      (forall i :: 0 <= i < |reqs| ==> (i in idx <==> Passes(reqs[i], documentFilter, keywordFilter, affectsFilter)))
  {
    KeepPicksIndices(reqs, RequirementTest(documentFilter, keywordFilter, affectsFilter));
  }

  /** With no filter set, every requirement is listed. */
  lemma NoFilterListsAll(reqs: seq<Requirement>)
    ensures Filtered(reqs, "", "", "") == reqs
  {
    KeepAll(reqs, RequirementTest("", "", ""));
  }

  /** A listed requirement carries the document code and keyword filtered for, and the affected party. */
  lemma FilteredMembers(reqs: seq<Requirement>, documentFilter: Str, keywordFilter: Str, affectsFilter: Str, r: Requirement)
    ensures r in Filtered(reqs, documentFilter, keywordFilter, affectsFilter) <==>
      r in reqs &&
      (documentFilter != "" ==> r.documentCode == documentFilter) &&
      (keywordFilter != "" ==> r.primaryKeyWord == keywordFilter) &&
      (affectsFilter != "" ==> affectsFilter in r.affects)
  {
    KeepMembers(reqs, RequirementTest(documentFilter, keywordFilter, affectsFilter), r);
  }

  function Req(id: Str, documentCode: Str, keyword: Str): Requirement {
    Requirement(id, documentCode, "", "", Impact(false, false, false), [], keyword, "")
  }

  /** The requirements of the source's keyword-filter test. */
  const KeywordSample: seq<Requirement> :=
    [Req("VDR-1", "VDR", "MUST"), Req("VDR-2", "VDR", "SHOULD"), Req("VDR-3", "VDR", "MUST"), Req("UCM-1", "UCM", "SHOULD")]

  /** Four rows unfiltered, two MUST, two SHOULD, two VDR and MUST. */
  lemma KeywordFilterExample()
    ensures |Filtered(KeywordSample, "", "", "")| == 4
    ensures Filtered(KeywordSample, "", "MUST", "") == [KeywordSample[0], KeywordSample[2]]
    ensures Filtered(KeywordSample, "", "SHOULD", "") == [KeywordSample[1], KeywordSample[3]]
    ensures Filtered(KeywordSample, "VDR", "MUST", "") == [KeywordSample[0], KeywordSample[2]]
  {
    NoFilterListsAll(KeywordSample);
    var s := KeywordSample;
    KeepFour(s[0], s[1], s[2], s[3], RequirementTest("", "MUST", ""));
    KeepFour(s[0], s[1], s[2], s[3], RequirementTest("", "SHOULD", ""));
    KeepFour(s[0], s[1], s[2], s[3], RequirementTest("VDR", "MUST", ""));
  }

  /** The requirements of the source's document-filter test: two VDR rows, one UCM row. */
  lemma DocumentFilterExample()
    ensures var s := [Req("VDR-1", "VDR", ""), Req("VDR-2", "VDR", ""), Req("UCM-1", "UCM", "")];
      Filtered(s, "VDR", "", "") == s[..2]
  {
    var s := [Req("VDR-1", "VDR", ""), Req("VDR-2", "VDR", ""), Req("UCM-1", "UCM", "")];
    var p := RequirementTest("VDR", "", "");
    KeepSnoc([], s[0], p);
    assert [] + [s[0]] == [s[0]];
    KeepSnoc([s[0]], s[1], p);
    KeepSnoc([s[0], s[1]], s[2], p);
    assert s == [s[0], s[1]] + [s[2]];
  }

  // ---- the Filter closure of initList ----

  /** Whether a target contains the term, both lower-cased. */
  function TermTest(term: Str): Str -> bool {
    target => Contains(ToLower(target), ToLower(term))
  }

  /** The `Filter` closure: the positions of the targets that contain the term, ignoring ASCII case. */
  method ListFilter(term: Str, targets: seq<Str>) returns (ranks: seq<nat>)
    ensures ranks == KeptIndices(targets, TermTest(term))
  {
    ranks := [];
    var lowered := ToLower(term);
    for i := 0 to |targets|
      invariant ranks == KeptIndices(targets[..i], TermTest(term))
    {
      assert targets[..i + 1][..i] == targets[..i];
      if Contains(ToLower(targets[i]), lowered) {
        ranks := ranks + [i];
      }
    }
    assert targets[..|targets|] == targets;
  }

  /**
   * The ranks are strictly ascending and are exactly the positions of the
   * targets that contain the term in lower case.
   */
  lemma ListFilterRanks(term: Str, targets: seq<Str>)
    ensures var ranks := KeptIndices(targets, TermTest(term));
      (forall k :: 0 <= k < |ranks| ==> ranks[k] < |targets|) &&
      (forall k, l :: 0 <= k < l < |ranks| ==> ranks[k] < ranks[l]) &&
      (forall i :: 0 <= i < |targets| ==> (i in ranks <==> Contains(ToLower(targets[i]), ToLower(term))))
  {
    KeepPicksIndices(targets, TermTest(term));
  }

  /** An empty term matches every target. */
  lemma EmptyTermMatchesAll(targets: seq<Str>)
    ensures KeptIndices(targets, TermTest("")) == Range(|targets|)
  {
    forall i | 0 <= i < |targets|
      ensures TermTest("")(targets[i])
    {
      EmptyContained(ToLower(targets[i]));
    }
    KeepAll(targets, TermTest(""));
  }

  /** The match ignores case: "vdr" finds "VDR-1" and "Ucm" finds "UCM-1". */
  lemma CaseInsensitiveExample()
    ensures KeptIndices(["VDR-1", "UCM-1"], TermTest("vdr")) == [0]
    ensures KeptIndices(["VDR-1", "UCM-1"], TermTest("Ucm")) == [1]
  {
    ExampleTerms();
    KeptTwo("VDR-1", "UCM-1", TermTest("vdr"));
    KeptTwo("VDR-1", "UCM-1", TermTest("Ucm"));
  }

  /** Each of the two terms, lowered, is a prefix of one identifier and misses the other's first letter. */
  lemma ExampleTerms()
    ensures TermTest("vdr")("VDR-1") && !TermTest("vdr")("UCM-1")
    ensures TermTest("Ucm")("UCM-1") && !TermTest("Ucm")("VDR-1")
  {
    assert ToLower("VDR-1") == "vdr-1";
    assert ToLower("UCM-1") == "ucm-1";
    assert ToLower("vdr") == "vdr";
    assert ToLower("Ucm") == "ucm";
    assert OccursAt("vdr-1", "vdr", 0);
    assert OccursAt("ucm-1", "ucm", 0);
    AbsentInitial("ucm-1", "vdr");
    AbsentInitial("vdr-1", "ucm");
  }

  /** A term whose first byte does not occur in the text is not contained in it. */
  lemma AbsentInitial(s: Str, sub: Str)
    requires sub != [] && sub[0] !in s
    ensures !Contains(s, sub)
  {
    forall i | 0 <= i <= |s|
      ensures !OccursAt(s, sub, i)
    {
      if i + |sub| <= |s| {
        assert s[i..i + |sub|][0] == s[i];
      }
    }
  }

  lemma KeptTwo<T>(a: T, b: T, p: T -> bool)
    ensures KeptIndices([a, b], p) == (if p(a) then [0] else []) + (if p(b) then [1] else [])
  {
    assert [a, b][..1] == [a];
    assert [a][..0] == [];
    assert KeptIndices([a], p) == [] + (if p(a) then [0] else []);
    assert KeptIndices([a, b], p) == KeptIndices([a], p) + (if p(b) then [1] else []);
  }
}
