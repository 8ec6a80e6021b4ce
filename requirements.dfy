/**
 * `Client.ParseRequirements` and `Client.extractRequirements`
 * (`internal/api/client.go`): the requirements of one document, read from
 * `FRR.<code>` either as a map of categories or as a single category, with
 * every nested `following_information` record listed after its parent.
 */
module Requirements {
  import opened Wrappers
  import opened Text
  import opened Json
  import opened ApiTypes
  import opened MapOrder
  import Model

  /** The domain record of one requirement record, stamped with the document code. */
  function ToRequirement(r: RequirementJson, docCode: Str): Model.Requirement {
    Model.Requirement(r.id, docCode, r.statement, r.name, ToImpact(r.impact), r.affects, r.primaryKeyWord, r.note)
  }

  /**
   * What `extractRequirements` returns: each record in turn, immediately
   * followed by the records of its resolved `following_information`.
   */
  function Flatten(reqs: seq<RequirementJson>, docCode: Str): (out: seq<Model.Requirement>)
    ensures forall i :: 0 <= i < |out| ==> out[i].documentCode == docCode
    decreases WeightSum(reqs), 1
  {
    if reqs == [] then []
    else
      WeightSumLast(reqs);
      Flatten(reqs[..|reqs| - 1], docCode) + Expand(reqs[|reqs| - 1], docCode)
  }

  /** One record and everything nested under it. */
  function Expand(r: RequirementJson, docCode: Str): (out: seq<Model.Requirement>)
    ensures |out| > 0 && out[0] == ToRequirement(r, docCode)
    ensures forall i :: 0 <= i < |out| ==> out[i].documentCode == docCode
    decreases Weight(r), 0
  {
    ChildrenLighter(r);
    [ToRequirement(r, docCode)] + Flatten(Children(r), docCode)
  }

  /**
   * The record as `extractRequirements` leaves it in the slice: resolved, and
   * with its nested records resolved in turn (the recursive call works on the
   * very slice stored in the record).
   */
  function Resolved(r: RequirementJson): (u: RequirementJson)
    ensures u == UnmarshalFollowingInfo(r).(followingInformation := u.followingInformation)
    decreases Weight(r), 1
  {
    ChildrenLighter(r);
    UnmarshalFollowingInfo(r).(followingInformation := ResolvedAll(Children(r)))
  }

  function ResolvedAll(rs: seq<RequirementJson>): (out: seq<RequirementJson>)
    ensures |out| == |rs|
    decreases WeightSum(rs), 2
  {
    if rs == [] then []
    else
      WeightSumLast(rs);
      ResolvedAll(rs[..|rs| - 1]) + [Resolved(rs[|rs| - 1])]
  }

  lemma {:induction false} ResolvedAllAt(rs: seq<RequirementJson>)
    ensures forall k :: 0 <= k < |rs| ==> ResolvedAll(rs)[k] == Resolved(rs[k])
    decreases |rs|
  {
    if rs != [] {
      ResolvedAllAt(rs[..|rs| - 1]);
    }
  }

  lemma FlattenStep(rs: seq<RequirementJson>, i: nat, docCode: Str)
    requires i < |rs|
    ensures Flatten(rs[..i + 1], docCode) == Flatten(rs[..i], docCode) + Expand(rs[i], docCode)
  {
    assert rs[..i + 1][..i] == rs[..i];
  }

  /** One turn of the loop of `extractRequirements`, on a record without nested records. */
  lemma ExtractLeaf(rs: seq<RequirementJson>, i: nat, docCode: Str)
    requires i < |rs| && Children(rs[i]) == []
    ensures Flatten(rs[..i + 1], docCode) == Flatten(rs[..i], docCode) + [ToRequirement(rs[i], docCode)]
    ensures UnmarshalFollowingInfo(rs[i]) == Resolved(rs[i])
  {
    FlattenStep(rs, i, docCode);
    var u := UnmarshalFollowingInfo(rs[i]);
    assert u == u.(followingInformation := []);
  }

  /** One turn of the loop of `extractRequirements`, on a record with nested records. */
  lemma ExtractNode(rs: seq<RequirementJson>, i: nat, docCode: Str)
    requires i < |rs|
    ensures Flatten(rs[..i + 1], docCode) ==
      Flatten(rs[..i], docCode) + [ToRequirement(rs[i], docCode)] + Flatten(Children(rs[i]), docCode)
    ensures UnmarshalFollowingInfo(rs[i]).(followingInformation := ResolvedAll(Children(rs[i]))) == Resolved(rs[i])
  {
    FlattenStep(rs, i, docCode);
  }

  lemma ResolvedPrefixStep(rs: seq<RequirementJson>, i: nat)
    requires i < |rs|
    ensures (ResolvedAll(rs[..i]) + rs[i..])[i := Resolved(rs[i])] == ResolvedAll(rs[..i + 1]) + rs[i + 1..]
  {
    assert rs[..i + 1][..i] == rs[..i];
    WeightSumLast(rs[..i + 1]);
  }

  /** `extractRequirements`, updating each record of the slice in place. */
  method ExtractRequirements(reqs: array<RequirementJson>, docCode: Str) returns (out: seq<Model.Requirement>)
    modifies reqs
    ensures out == Flatten(old(reqs[..]), docCode)
    ensures reqs[..] == ResolvedAll(old(reqs[..]))
    decreases WeightSum(reqs[..])
  {
    ghost var before := reqs[..];
    out := [];
    var i := 0;
    while i < reqs.Length
      invariant 0 <= i <= reqs.Length
      invariant reqs[..] == ResolvedAll(before[..i]) + before[i..]
      invariant out == Flatten(before[..i], docCode)
    {
      ghost var r0 := before[i];
      assert reqs[i] == r0;
      ResolvedPrefixStep(before, i);
      var r := UnmarshalFollowingInfo(reqs[i]);
      reqs[i] := r;
      var req := Model.Requirement(r.id, docCode, r.statement, r.name,
        Model.Impact(r.impact.low, r.impact.moderate, r.impact.high), r.affects, r.primaryKeyWord, r.note);
      out := out + [req];
      if |r.followingInformation| > 0 {
        var fi := r.followingInformation;
        var nested := new RequirementJson[|fi|](k requires 0 <= k < |fi| => fi[k]);
        assert nested[..] == Children(r0);
        ChildrenLighter(r0);
        WeightBound(before, i);
        var sub := ExtractRequirements(nested, docCode);
        out := out + sub;
        reqs[i] := r.(followingInformation := nested[..]);
        ExtractNode(before, i, docCode);
      } else {
        ExtractLeaf(before, i, docCode);
      }
      i := i + 1;
    }
    assert before[..i] == before;
    assert reqs[..] == ResolvedAll(before) + [];
  }

  // ---- the pre-order reference ----

  /** The records of a resolved forest in pre-order, read off the stored nesting. */
  function Preorder(rs: seq<RequirementJson>): seq<RequirementJson>
    decreases rs
  {
    if rs == [] then []
    else
      var last := rs[|rs| - 1];
      Preorder(rs[..|rs| - 1]) + [last] + Preorder(last.followingInformation)
  }

  function Stamped(rs: seq<RequirementJson>, docCode: Str): (out: seq<Model.Requirement>)
    ensures |out| == |rs|
    ensures forall i :: 0 <= i < |rs| ==> out[i] == ToRequirement(rs[i], docCode)
  {
    seq(|rs|, i requires 0 <= i < |rs| => ToRequirement(rs[i], docCode))
  }

  lemma StampedAppend(a: seq<RequirementJson>, b: seq<RequirementJson>, docCode: Str)
    ensures Stamped(a + b, docCode) == Stamped(a, docCode) + Stamped(b, docCode)
  {
    assert Stamped(a + b, docCode) == Stamped(a, docCode) + Stamped(b, docCode);
  }

  /**
   * The records `extractRequirements` returns are exactly the nodes of the
   * tree it leaves in the slice, in pre-order: one per node, each parent
   * before its children, siblings in document order.
   */
  lemma {:induction false} FlattenIsPreorder(rs: seq<RequirementJson>, docCode: Str)
    ensures Flatten(rs, docCode) == Stamped(Preorder(ResolvedAll(rs)), docCode)
    decreases WeightSum(rs), 1
  {
    if rs != [] {
      var n := |rs| - 1;
      var all := ResolvedAll(rs);
      WeightSumLast(rs);
      assert all[..n] == ResolvedAll(rs[..n]);
      assert all[n] == Resolved(rs[n]);
      FlattenIsPreorder(rs[..n], docCode);
      ExpandIsPreorder(rs[n], docCode);
      StampedAppend(Preorder(all[..n]) + [all[n]], Preorder(all[n].followingInformation), docCode);
      StampedAppend(Preorder(all[..n]), [all[n]], docCode);
    }
  }

  lemma {:induction false} ExpandIsPreorder(r: RequirementJson, docCode: Str)
    ensures Expand(r, docCode) ==
      [ToRequirement(Resolved(r), docCode)] + Stamped(Preorder(Resolved(r).followingInformation), docCode)
    decreases Weight(r), 0
  {
    ChildrenLighter(r);
    FlattenIsPreorder(Children(r), docCode);
  }

  /** Lists placed one after the other are flattened one after the other. */
  lemma {:induction false} FlattenAppend(a: seq<RequirementJson>, b: seq<RequirementJson>, docCode: Str)
    ensures Flatten(a + b, docCode) == Flatten(a, docCode) + Flatten(b, docCode)
    decreases |b|
  {
    if b == [] {
      assert a + b == a;
    } else {
      var pre, x := b[..|b| - 1], b[|b| - 1];
      assert b == pre + [x];
      assert a + b == (a + pre) + [x];
      FlattenAppend(a, pre, docCode);
      FlattenSnoc(a + pre, x, docCode);
      FlattenSnoc(pre, x, docCode);
      AppendAssoc(Flatten(a, docCode), Flatten(pre, docCode), Expand(x, docCode));
    }
  }

  lemma FlattenSnoc(rs: seq<RequirementJson>, x: RequirementJson, docCode: Str)
    ensures Flatten(rs + [x], docCode) == Flatten(rs, docCode) + Expand(x, docCode)
  {
    assert (rs + [x])[..|rs|] == rs;
  }

  // ---- ParseRequirements ----

  /** The `FRR.<docCode>` member: an error, `None` when either level is absent, or the member. */
  function Section(data: Option<Value>, docCode: Str): (r: Result<Option<Value>, Error>)
    ensures r.Err? <==> (data.None? || !IsStruct(data.value) ||
                         (RawField(data.value, "FRR").Some? && !IsStruct(RawField(data.value, "FRR").value)))
    ensures r.Ok? && r.value.Some? ==>
      data.Some? && RawField(data.value, "FRR").Some? && r.value == RawField(RawField(data.value, "FRR").value, docCode)
  {
    match data
    case None => Err(SyntaxError)
    case Some(doc) =>
      match RawObject(doc)
      case None => Err(TypeError)
      case Some(members) =>
        match Lookup(members, "FRR")
        case None => Ok(None)
        case Some(frrData) =>
          match RawObject(frrData)
          case None => Err(TypeError)
          case Some(frr) => Ok(Lookup(frr, docCode))
  }

  /** The section decoded as a map of categories, when it is present and has that shape. */
  function Categories(data: Option<Value>, docCode: Str): Option<map<Str, RequirementCategory>> {
    match Section(data, docCode)
    case Ok(Some(docData)) => DecodeMap(docData, DecodeCategory)
    case _ => None
  }

  function CategoryBlocks(cats: map<Str, RequirementCategory>, docCode: Str): Str -> seq<Model.Requirement> {
    name => if name in cats then Flatten(cats[name].requirements, docCode) else []
  }

  /** What `ParseRequirements` returns when it visits the categories in `order`. */
  function RequirementsOf(data: Option<Value>, docCode: Str, order: seq<Str>): (r: Result<seq<Model.Requirement>, Error>)
    ensures r.Err? <==> Section(data, docCode).Err?
    ensures r.Err? ==> r.error == Section(data, docCode).error
    ensures Section(data, docCode) == Ok(None) ==> r == Ok([])
  {
    var section :- Section(data, docCode);
    if section.None? then Ok([])
    else
      match DecodeMap(section.value, DecodeCategory)
      case Some(cats) => Ok(ConcatMap(order, CategoryBlocks(cats, docCode)))
      case None =>
        match DecodeCategory(section.value)
        case Some(single) => Ok(Flatten(single.requirements, docCode))
        case None => Ok([])
  }

  /** `ParseRequirements`; `order` is the order in which the map of categories was visited. */
  method ParseRequirements(data: Option<Value>, docCode: Str)
    returns (r: Result<seq<Model.Requirement>, Error>, ghost order: seq<Str>)
    ensures Categories(data, docCode).Some? ==> IsEnumeration(order, Categories(data, docCode).value.Keys)
    ensures r == RequirementsOf(data, docCode, order)
    ensures r.Err? <==> Section(data, docCode).Err?
    ensures r.Err? ==> r.error == Section(data, docCode).error
    ensures Section(data, docCode) == Ok(None) ==> r == Ok([])
    ensures Categories(data, docCode).Some? ==> r.Ok?
    ensures Categories(data, docCode).Some? ==> forall x :: x in r.value <==> exists name :: name in Categories(data, docCode).value && x in Flatten(Categories(data, docCode).value[name].requirements, docCode)
  {
    order := [];
    if data.None? {
      return Err(SyntaxError), order;
    }
    var rawDoc := RawObject(data.value);
    if rawDoc.None? {
      return Err(TypeError), order;
    }
    var requirements: seq<Model.Requirement> := [];
    var frrData := Lookup(rawDoc.value, "FRR");
    if frrData.Some? {
      var frr := RawObject(frrData.value);
      if frr.None? {
        return Err(TypeError), order;
      }
      var docData := Lookup(frr.value, docCode);
      if docData.Some? {
        var categories := DecodeMap(docData.value, DecodeCategory);
        if categories.None? {
          var singleCat := DecodeCategory(docData.value);
          if singleCat.Some? {
            requirements := ExtractList(singleCat.value.requirements, docCode);
          }
        } else {
          requirements, order := CollectCategories(categories.value, docCode);
        }
      }
    }
    return Ok(requirements), order;
  }

  /** `extractRequirements` on a slice of its own. */
  method ExtractList(reqs: seq<RequirementJson>, docCode: Str) returns (out: seq<Model.Requirement>)
    ensures out == Flatten(reqs, docCode)
  {
    var a := new RequirementJson[|reqs|](k requires 0 <= k < |reqs| => reqs[k]);
    assert a[..] == reqs;
    out := ExtractRequirements(a, docCode);
  }

  /** The loop over the map of categories, in whatever order the map yields its keys. */
  method CollectCategories(cats: map<Str, RequirementCategory>, docCode: Str)
    returns (requirements: seq<Model.Requirement>, ghost order: seq<Str>)
    ensures IsEnumeration(order, cats.Keys)
    ensures requirements == ConcatMap(order, CategoryBlocks(cats, docCode))
    ensures forall x :: x in requirements <==> exists name :: name in cats && x in Flatten(cats[name].requirements, docCode)
  {
    order := [];
    requirements := [];
    var remaining := cats.Keys;
    while remaining != {}
      invariant remaining <= cats.Keys
      invariant Distinct(order)
      invariant forall k :: k in order <==> k in cats.Keys && k !in remaining
      invariant requirements == ConcatMap(order, CategoryBlocks(cats, docCode))
      decreases remaining
    {
      var name :| name in remaining;
      var block := ExtractList(cats[name].requirements, docCode);
      requirements := requirements + block;
      assert (order + [name])[..|order|] == order;
      order := order + [name];
      remaining := remaining - {name};
    }
    forall x
      ensures x in requirements <==> exists name :: name in cats && x in Flatten(cats[name].requirements, docCode)
    {
      ConcatMapMember(order, CategoryBlocks(cats, docCode), x);
    }
  }

  // ---- properties of ParseRequirements ----

  /**
   * The only errors: a payload that is not JSON, a document that is not an
   * object, or an `FRR` member that is not an object.
   */
  lemma RequirementsErrors(data: Option<Value>, docCode: Str, order: seq<Str>)
    ensures RequirementsOf(data, docCode, order).Err? <==>
      data.None? || !IsStruct(data.value) ||
      (RawField(data.value, "FRR").Some? && !IsStruct(RawField(data.value, "FRR").value))
    ensures RequirementsOf(data, docCode, order) == Err(SyntaxError) <==> data.None?
  {
  }

  /** A document without `FRR`, or without the document's own section, has no requirements. */
  lemma RequirementsMissingSection(data: Option<Value>, docCode: Str, order: seq<Str>)
    requires data.Some? && IsStruct(data.value)
    requires RawField(data.value, "FRR").None? ||
      (IsStruct(RawField(data.value, "FRR").value) && RawField(RawField(data.value, "FRR").value, docCode).None?)
    ensures RequirementsOf(data, docCode, order) == Ok([])
  {
  }

  /**
   * A present section that is not a map of categories is read as one
   * category; when that fails as well the result is empty, with no error.
   */
  lemma RequirementsFallback(data: Option<Value>, docCode: Str, order: seq<Str>)
    requires Section(data, docCode).Ok? && Section(data, docCode).value.Some?
    requires DecodeMap(Section(data, docCode).value.value, DecodeCategory).None?
    ensures DecodeCategory(Section(data, docCode).value.value).None? ==> RequirementsOf(data, docCode, order) == Ok([])
    ensures DecodeCategory(Section(data, docCode).value.value).Some? ==>
      RequirementsOf(data, docCode, order) == Ok(Flatten(DecodeCategory(Section(data, docCode).value.value).value.requirements, docCode))
  {
  }

  /** `{"FRR": {"VDR": "x"}}`: a section that is neither shape gives no requirements and no error. */
  lemma RequirementsFallbackExample(order: seq<Str>)
    ensures RequirementsOf(Some(Object([Member("FRR", Object([Member("VDR", String("x"))]))])), "VDR", order) == Ok([])
  {
  }

  /** Every record returned carries the requested document code. */
  lemma {:induction false} RequirementsStamped(data: Option<Value>, docCode: Str, order: seq<Str>, i: nat)
    requires RequirementsOf(data, docCode, order).Ok? && i < |RequirementsOf(data, docCode, order).value|
    ensures RequirementsOf(data, docCode, order).value[i].documentCode == docCode
  {
    var section := Section(data, docCode).value;
    if section.Some? {
      match DecodeMap(section.value, DecodeCategory)
      case Some(cats) =>
        ConcatMapStamped(order, cats, docCode);
      case None =>
    }
  }

  lemma {:induction false} ConcatMapStamped(order: seq<Str>, cats: map<Str, RequirementCategory>, docCode: Str)
    ensures forall i :: 0 <= i < |ConcatMap(order, CategoryBlocks(cats, docCode))| ==>
      ConcatMap(order, CategoryBlocks(cats, docCode))[i].documentCode == docCode
    decreases |order|
  {
    if order != [] {
      ConcatMapStamped(order[..|order| - 1], cats, docCode);
    }
  }

  /** Two runs that visit the categories in different orders return the same records, permuted. */
  lemma {:induction false} RequirementsOrderIndependent(data: Option<Value>, docCode: Str, o1: seq<Str>, o2: seq<Str>)
    requires Categories(data, docCode).Some?
    requires IsEnumeration(o1, Categories(data, docCode).value.Keys)
    requires IsEnumeration(o2, Categories(data, docCode).value.Keys)
    ensures RequirementsOf(data, docCode, o1).Ok? && RequirementsOf(data, docCode, o2).Ok?
    ensures multiset(RequirementsOf(data, docCode, o1).value) == multiset(RequirementsOf(data, docCode, o2).value)
  {
    var cats := Categories(data, docCode).value;
    EnumerationsPermute(o1, o2, cats.Keys);
    ConcatMapPermutation(o1, o2, CategoryBlocks(cats, docCode));
  }

  /** The seed payloads of the source's fuzz test for `ParseRequirements`. */
  lemma RequirementsSeeds(order: seq<Str>)
    ensures RequirementsOf(None, "", order) == Err(SyntaxError)
    ensures RequirementsOf(Some(Object([])), "FSI", order) == Ok([])
    ensures RequirementsOf(Some(Object([Member("FRR", Object([Member("FSI", Object([]))]))])), "FSI", order) == Ok([])
  {
    ConcatMapEmpty(order, CategoryBlocks(map[], "FSI"));
  }

  /** The fuzz seed whose section is not a map of categories: it is read as one category with no records. */
  lemma RequirementsSeedList(order: seq<Str>)
    ensures RequirementsOf(Some(Object([Member("FRR", Object([Member("VDR",
      Object([Member("requirements", Array([]))]))]))])), "VDR", order) == Ok([])
  {
    var section := Object([Member("requirements", Array([]))]);
    assert DecodeCategory(Array([])).None?;
    assert DecodeMap(section, DecodeCategory).None?;
    assert DecodeCategory(section) == Some(RequirementCategory("", "", "", []));
  }

  // ---- a requirement with one nested record ----

  const ChildJson := Object([Member("id", String("A.1"))])
  const ParentJson := Object([Member("id", String("A")), Member("following_information", Array([ChildJson]))])
  const NoImpact := ImpactJson(false, false, false)
  const ChildRecord := RequirementJson("A.1", "", "", NoImpact, [], "", "", [], None)
  const ParentRecord := RequirementJson("A", "", "", NoImpact, [], "", "", [], Some(Array([ChildJson])))

  lemma DecodeChildExample()
    ensures DecodeRequirement(ChildJson) == Some(ChildRecord)
  {
    assert DecodeImpact(Null) == Some(NoImpact);
  }

  lemma DecodeParentExample()
    ensures DecodeRequirement(ParentJson) == Some(ParentRecord)
  {
    var a, b := Member("id", String("A")), Member("following_information", Array([ChildJson]));
    LookupPair(a, b, "id");
    LookupPair(a, b, "statement");
    LookupPair(a, b, "name");
    LookupPair(a, b, "impact");
    LookupPair(a, b, "affects");
    LookupPair(a, b, "primary_key_word");
    LookupPair(a, b, "note");
    LookupPair(a, b, "following_information");
    assert DecodeString(String("A")) == Some("A");
    assert DecodeString(Null) == Some("");
    assert DecodeImpact(Null) == Some(NoImpact);
    assert DecodeStrings(Null) == Some([]);
  }

  lemma ChildrenExample()
    ensures Children(ParentRecord) == [ChildRecord]
    ensures Children(ChildRecord) == []
  {
    DecodeChildExample();
    var items := [ChildJson];
    var r := DecodeItems(items, DecodeRequirement);
    assert DecodeRequirement(items[0]).Some?;
    assert r.Some?;
    assert DecodeRequirement(items[0]) == Some(r.value[0]);
    assert r.value == [ChildRecord];
  }

  /** The record `A` with nested record `A.1` is listed as `A`, then `A.1`, both stamped with the code. */
  lemma NestedRequirementExample()
    ensures DecodeRequirement(ParentJson).Some?
    ensures var r := Flatten([DecodeRequirement(ParentJson).value], "VDR");
      |r| == 2 && r[0].id == "A" && r[1].id == "A.1" && r[0].documentCode == "VDR" && r[1].documentCode == "VDR"
  {
    DecodeParentExample();
    ChildrenExample();
    assert Flatten([ChildRecord], "VDR") == [ToRequirement(ChildRecord, "VDR")];
    assert Flatten([ParentRecord], "VDR") == [ToRequirement(ParentRecord, "VDR"), ToRequirement(ChildRecord, "VDR")];
  }
}
