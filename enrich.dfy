/**
 * `ParseDocumentInfo` and `EnrichDocument` (`internal/api/client.go`): the
 * `info` envelope of a document and the copying of its front matter,
 * releases and effective dates into the catalog entry shown on the home list.
 */
module Enrich {
  import opened Wrappers
  import opened Text
  import opened Json
  import opened ApiTypes
  import Model

  /** The anonymous struct `{ Info DocumentInfo "info" }`. */
  function DecodeInfoEnvelope(v: Value): Option<DocumentInfo> {
    if !IsStruct(v) then None else DecodeDocumentInfo(Field(v, "info"))
  }

  /** `ParseDocumentInfo`: the `info` member of a document, or the decode error. */
  function ParseDocumentInfo(data: Option<Value>): (r: Result<DocumentInfo, Error>)
    ensures data.None? <==> r == Err(SyntaxError)
    ensures r.Ok? <==> data.Some? && IsStruct(data.value) && DecodeDocumentInfo(Field(data.value, "info")).Some?
    ensures r.Ok? ==> Some(r.value) == DecodeDocumentInfo(Field(data.value, "info"))
    ensures r.Err? ==> r.error == SyntaxError || r.error == TypeError
  {
    Unmarshal(data, DecodeInfoEnvelope)
  }

  /** A document without an `info` member has the zero `info`, which is not an error. */
  lemma NoInfoSection()
    ensures ParseDocumentInfo(Some(Object([]))) == Ok(DocumentInfo("", "", map[], [], FrontMatter([], "", [])))
  {
    assert DecodeFrontMatter(Null) == Some(FrontMatter([], "", []));
  }

  function ToAuthority(a: Authority): Model.Authority {
    Model.Authority(a.reference, a.referenceUrl, a.description)
  }

  function ToRelease(r: Release): Model.Release {
    Model.Release(r.id, r.publishedDate, r.description)
  }

  function ToStatus(e: EffectiveInfo): Model.EffectiveStatus {
    Model.EffectiveStatus(e.applies, e.currentStatus, e.startDate, e.endDate, e.signupUrl, e.comments)
  }

  function Authorities(auths: seq<Authority>): (r: seq<Model.Authority>)
    ensures |r| == |auths|
    ensures forall i :: 0 <= i < |auths| ==> r[i] == ToAuthority(auths[i])
  {
    seq(|auths|, i requires 0 <= i < |auths| => ToAuthority(auths[i]))
  }

  function Releases(rs: seq<Release>): (r: seq<Model.Release>)
    ensures |r| == |rs|
    ensures forall i :: 0 <= i < |rs| ==> r[i] == ToRelease(rs[i])
  {
    seq(|rs|, i requires 0 <= i < |rs| => ToRelease(rs[i]))
  }

  function Statuses(eff: map<Str, EffectiveInfo>): (r: map<Str, Model.EffectiveStatus>)
    ensures r.Keys == eff.Keys
    ensures forall v :: v in eff ==> r[v] == ToStatus(eff[v])
  {
    map v | v in eff :: ToStatus(eff[v])
  }

  /** The document `EnrichDocument` leaves behind. */
  function Enriched(doc: Model.Document, info: Option<DocumentInfo>): (d: Model.Document)
    ensures info.None? ==> d == doc
    ensures d.code == doc.code && d.name == doc.name && d.description == doc.description &&
      d.requirementCount == doc.requirementCount
    ensures |d.authority| >= |doc.authority| && d.authority[..|doc.authority|] == doc.authority
    ensures |d.releases| >= |doc.releases| && d.releases[..|doc.releases|] == doc.releases
    ensures info.Some? && |info.value.effective| == 0 ==> d.effectiveInfo == doc.effectiveInfo
  {
    match info
    case None => doc
    case Some(i) =>
      doc.(purpose := i.frontMatter.purpose,
           expectedOutcomes := i.frontMatter.expectedOutcomes,
           authority := doc.authority + Authorities(i.frontMatter.authority),
           releases := doc.releases + Releases(i.releases),
           effectiveInfo := if |i.effective| > 0 then Statuses(i.effective) else doc.effectiveInfo)
  }

  /**
   * `EnrichDocument(&docs[k], info)`: updates one element of the documents
   * slice in place.
   */
  method EnrichDocument(docs: array<Model.Document>, k: nat, info: Option<DocumentInfo>)
    requires k < docs.Length
    modifies docs
    ensures docs[k] == Enriched(old(docs[k]), info)
    ensures forall j :: 0 <= j < docs.Length && j != k ==> docs[j] == old(docs[j])
  {
    if info.None? {
      return;
    }
    var i := info.value;
    docs[k] := docs[k].(purpose := i.frontMatter.purpose, expectedOutcomes := i.frontMatter.expectedOutcomes);

    var authority := docs[k].authority;
    ghost var before := authority;
    for j := 0 to |i.frontMatter.authority|
      invariant authority == before + Authorities(i.frontMatter.authority[..j])
    {
      var auth := i.frontMatter.authority[j];
      authority := authority + [Model.Authority(auth.reference, auth.referenceUrl, auth.description)];
      assert Authorities(i.frontMatter.authority[..j + 1]) == Authorities(i.frontMatter.authority[..j]) + [ToAuthority(auth)];
    }
    assert i.frontMatter.authority[..|i.frontMatter.authority|] == i.frontMatter.authority;
    docs[k] := docs[k].(authority := authority);

    var releases := docs[k].releases;
    ghost var earlier := releases;
    for j := 0 to |i.releases|
      invariant releases == earlier + Releases(i.releases[..j])
    {
      var rel := i.releases[j];
      releases := releases + [Model.Release(rel.id, rel.publishedDate, rel.description)];
      assert Releases(i.releases[..j + 1]) == Releases(i.releases[..j]) + [ToRelease(rel)];
    }
    assert i.releases[..|i.releases|] == i.releases;
    docs[k] := docs[k].(releases := releases);

    if |i.effective| > 0 {
      var eff := CopyEffective(i.effective);
      docs[k] := docs[k].(effectiveInfo := eff);
    }
  }

  /** The loop over the map of effective dates, in whatever order the map yields its versions. */
  method CopyEffective(effective: map<Str, EffectiveInfo>) returns (r: map<Str, Model.EffectiveStatus>)
    ensures r == Statuses(effective)
  {
    r := map[];
    var remaining := effective.Keys;
    while remaining != {}
      invariant remaining <= effective.Keys
      invariant r == map v | v in effective && v !in remaining :: ToStatus(effective[v])
      decreases remaining
    {
      var version :| version in remaining;
      var eff := effective[version];
      r := r[version := Model.EffectiveStatus(eff.applies, eff.currentStatus, eff.startDate, eff.endDate, eff.signupUrl, eff.comments)];
      remaining := remaining - {version};
    }
  }

  // ---- properties ----

  /** Without an `info` section nothing changes. */
  lemma EnrichNothing(doc: Model.Document)
    ensures Enriched(doc, None) == doc
  {
  }

  /**
   * With an `info` section: the identity and the count are kept, the purpose
   * and outcomes are overwritten, the authorities and releases are appended
   * in their source order with their fields copied, and the effective dates
   * are replaced, version by version, only when there are any.
   */
  lemma EnrichFields(doc: Model.Document, i: DocumentInfo)
    ensures var e := Enriched(doc, Some(i));
      e.code == doc.code && e.name == doc.name && e.description == doc.description &&
      e.requirementCount == doc.requirementCount &&
      e.purpose == i.frontMatter.purpose && e.expectedOutcomes == i.frontMatter.expectedOutcomes &&
      |e.authority| == |doc.authority| + |i.frontMatter.authority| && e.authority[..|doc.authority|] == doc.authority &&
      (forall j :: 0 <= j < |i.frontMatter.authority| ==>
        e.authority[|doc.authority| + j].reference == i.frontMatter.authority[j].reference &&
        e.authority[|doc.authority| + j].referenceUrl == i.frontMatter.authority[j].referenceUrl &&
        e.authority[|doc.authority| + j].description == i.frontMatter.authority[j].description) &&
      |e.releases| == |doc.releases| + |i.releases| && e.releases[..|doc.releases|] == doc.releases &&
      (forall j :: 0 <= j < |i.releases| ==>
        e.releases[|doc.releases| + j].id == i.releases[j].id &&
        e.releases[|doc.releases| + j].publishedDate == i.releases[j].publishedDate &&
        e.releases[|doc.releases| + j].description == i.releases[j].description) &&
      (|i.effective| == 0 ==> e.effectiveInfo == doc.effectiveInfo) &&
      (|i.effective| > 0 ==> (e.effectiveInfo.Keys == i.effective.Keys &&
        forall v :: v in i.effective ==>
          e.effectiveInfo[v].applies == i.effective[v].applies &&
          e.effectiveInfo[v].currentStatus == i.effective[v].currentStatus &&
          e.effectiveInfo[v].startDate == i.effective[v].startDate &&
          e.effectiveInfo[v].endDate == i.effective[v].endDate &&
          e.effectiveInfo[v].signupUrl == i.effective[v].signupUrl &&
          e.effectiveInfo[v].comments == i.effective[v].comments))
  {
  }

  /** Enriching twice appends the authorities and releases twice: the operation is not idempotent. */
  lemma EnrichTwice(doc: Model.Document, i: DocumentInfo)
    ensures |Enriched(Enriched(doc, Some(i)), Some(i)).authority| == |doc.authority| + 2 * |i.frontMatter.authority|
    ensures |Enriched(Enriched(doc, Some(i)), Some(i)).releases| == |doc.releases| + 2 * |i.releases|
    ensures Enriched(Enriched(doc, Some(i)), Some(i)).effectiveInfo == Enriched(doc, Some(i)).effectiveInfo
  {
  }
}
